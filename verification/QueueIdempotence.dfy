/** Enqueue with an idempotency key: a repeat is a stutter, and it answers with the first job. */
module QueueIdempotence {
  import opened Wrappers
  import opened Jobs
  import opened Queue
  import opened QueueSafety

  /** Equal but for the updated_at of rows. */
  predicate SameQueue(s: State, s': State) {
    && s' == s.(jobs := s'.jobs)
    && s'.jobs.Keys == s.jobs.Keys
    && forall id <- s.jobs :: RowKept(s.jobs[id], s'.jobs[id])
  }

  predicate IsRepeat(s: State, step: Step) {
    step.Enqueue? && step.jobType == ServiceEvaluation && KeyTaken(s.jobs, step.jobType, step.key)
  }

  lemma RepeatIsStutter(lease: nat, s: State, step: Step)
    requires IsRepeat(s, step)
    ensures SameQueue(s, Do(lease, s, step))
  {}

  // ----- updated_at influences nothing -----

  lemma SameKeysTaken(s: State, s': State, jobType: JobType, key: string)
    requires SameQueue(s, s')
    ensures KeyTaken(s.jobs, jobType, key) <==> KeyTaken(s'.jobs, jobType, key)
  {
    if KeyTaken(s.jobs, jobType, key) {
      var id :| id in s.jobs && HasKey(s.jobs[id], jobType, key);
      assert id in s'.jobs && HasKey(s'.jobs[id], jobType, key);
    }
    if KeyTaken(s'.jobs, jobType, key) {
      var id :| id in s'.jobs && HasKey(s'.jobs[id], jobType, key);
      assert id in s.jobs && HasKey(s.jobs[id], jobType, key);
    }
  }

  lemma SameEnabled(lease: nat, s: State, s': State, step: Step)
    requires SameQueue(s, s')
    ensures Enabled(lease, s, step) <==> Enabled(lease, s', step)
  {}

  lemma SameAfterEnqueue(s: State, s': State, row: Job)
    requires SameQueue(s, s')
    ensures SameQueue(AfterEnqueue(s, row), AfterEnqueue(s', row))
  {
    SameKeysTaken(s, s', row.jobType, row.key);
  }

  lemma SameAfterClaim(s: State, s': State, w: WorkerId, picked: seq<Uuid>, now: Time, acked: bool)
    requires SameQueue(s, s') && forall id <- picked :: id in s.jobs
    ensures SameQueue(AfterClaim(s, w, picked, now, acked), AfterClaim(s', w, picked, now, acked))
  {
    var t, t' := ClaimRows(s.jobs, picked, w, now), ClaimRows(s'.jobs, picked, w, now);
    assert Returned(t, picked) == Returned(t', picked);
    assert forall id <- t :: RowKept(t[id], t'[id]);
  }

  lemma SameAfterMark(s: State, s': State, w: WorkerId, row: Job, row': Job, o: ClaimOutcome, outcome: Outcome)
    requires SameQueue(s, s') && Batch(s, w) != [] && (MarkHits(s, w) ==> RowKept(row, row'))
    ensures SameQueue(AfterMark(s, w, row, o, outcome), AfterMark(s', w, row', o, outcome))
  {}

  lemma SameStep(lease: nat, s: State, s': State, step: Step)
    requires SameQueue(s, s')
    ensures SameQueue(Do(lease, s, step), Do(lease, s', step))
  {
    SameEnabled(lease, s, s', step);
    if Enabled(lease, s, step) {
      match step
      case Tick(_) =>
      case Enqueue(id, jobType, resource, key, maxAttempts, readAt) =>
        SameAfterEnqueue(s, s', NewRow(id, jobType, resource, key, maxAttempts, readAt));
      case Claim(w, _, _, _, now, picked, outcome) => SameAfterClaim(s, s', w, picked, now, outcome == Acked);
      case MarkCompleted(w, outcome) =>
        SameAfterMark(s, s', w, SuccessRow(s, w), SuccessRow(s', w), Succeeded, outcome);
      case MarkFailed(w, readAt, outcome) =>
        SameAfterMark(s, s', w, FailureRow(s, w, readAt), FailureRow(s', w, readAt), FailedAt(readAt), outcome);
      case Abandon(_) =>
    }
  }

  // ----- Erasing repeats -----

  function Erase(lease: nat, s: State, steps: seq<Step>): seq<Step> {
    if steps == [] then []
    else
      var before, step := steps[..|steps| - 1], steps[|steps| - 1];
      Erase(lease, s, before) + if IsRepeat(Run(lease, s, before), step) then [] else [step]
  }

  /** Any run, with repeated enqueues at any points, reaches the queue that the run without them reaches,
      but for updated_at. */
  lemma {:induction false} RepeatsErased(lease: nat, s: State, steps: seq<Step>)
    ensures SameQueue(Run(lease, s, steps), Run(lease, s, Erase(lease, s, steps)))
  {
    if steps != [] {
      var before, step := steps[..|steps| - 1], steps[|steps| - 1];
      RepeatsErased(lease, s, before);
      var mid, mid' := Run(lease, s, before), Run(lease, s, Erase(lease, s, before));
      if IsRepeat(mid, step) {
        RepeatIsStutter(lease, mid, step);
        assert Erase(lease, s, before) + [] == Erase(lease, s, before);
      } else {
        SameStep(lease, mid, mid', step);
        RunOne(lease, s, Erase(lease, s, before), step);
      }
    }
  }

  /** The erased run holds no repeat. */
  lemma {:induction false} ErasedHasNoRepeat(lease: nat, s: State, steps: seq<Step>, i: nat)
    requires i < |Erase(lease, s, steps)|
    ensures !IsRepeat(Run(lease, s, Erase(lease, s, steps)[..i]), Erase(lease, s, steps)[i])
  {
    var before, step := steps[..|steps| - 1], steps[|steps| - 1];
    var e := Erase(lease, s, before);
    if i < |e| {
      ErasedHasNoRepeat(lease, s, before, i);
      assert Erase(lease, s, steps)[..i] == e[..i];
    } else {
      assert Erase(lease, s, steps)[..i] == e;
      RepeatsErased(lease, s, before);
      SameKeysTaken(Run(lease, s, before), Run(lease, s, e), if step.Enqueue? then step.jobType else ServiceEvaluation,
                    if step.Enqueue? then step.key else "");
    }
  }

  // ----- What an enqueue answers -----

  /** RETURNING: the row that holds the key after the statement. */
  predicate Answers(t: Table, step: Step, id: Uuid)
    requires step.Enqueue?
  {
    id in t && HasKey(t[id], step.jobType, step.key)
  }

  /** Once a key is taken, every later enqueue with it, whatever service it asks for and whatever ran in
      between, inserts nothing and answers with the first job and the first job's service. */
  lemma FirstJobAnswers(lease: nat, steps: seq<Step>, more: seq<Step>, step: Step, first: Uuid, id: Uuid)
    requires step.Enqueue? && Answers(Run(lease, INIT, steps).jobs, step, first)
    requires var s := Run(lease, Run(lease, INIT, steps), more);
             Enabled(lease, s, step) && Answers(Do(lease, s, step).jobs, step, id)
    ensures var s := Run(lease, Run(lease, INIT, steps), more);
      && id == first
      && Do(lease, s, step).jobs.Keys == s.jobs.Keys
      && Do(lease, s, step).jobs[id].resourceId == Run(lease, INIT, steps).jobs[first].resourceId
  {
    var s0 := Run(lease, INIT, steps);
    var s := Run(lease, s0, more);
    ReachableInv(lease, steps);
    RunEvolves(lease, s0, more, first);
    RunKeepsInv(lease, s0, more);
    StepKeepsInv(lease, s, step);
    StepEvolves(lease, s, step, first);
    assert s0.jobs[first].jobType == ServiceEvaluation by {
      assert JobOk(lease, s0.jobs[first], Log(s0, first), s0.clock);
    }
    assert KeyTaken(s.jobs, step.jobType, step.key) by { assert HasKey(s.jobs[first], step.jobType, step.key); }
    RepeatIsStutter(lease, s, step);
    assert HasKey(Do(lease, s, step).jobs[first], step.jobType, step.key);
  }

  /** The key is unique per type and not per service: the answer is for the requested service exactly
      when no stored job of another service holds the key. */
  lemma AnswerIsForRequestedServiceIff(lease: nat, s: State, step: Step, id: Uuid)
    requires Inv(lease, s) && step.Enqueue? && Enabled(lease, s, step)
    requires Answers(Do(lease, s, step).jobs, step, id)
    ensures Do(lease, s, step).jobs[id].resourceId == step.resource
      <==> !exists other :: other in s.jobs && HasKey(s.jobs[other], step.jobType, step.key)
                            && s.jobs[other].resourceId != step.resource
  {
    StepKeepsInv(lease, s, step);
    StepMovesTable(lease, s, step);
    StepAddsRow(lease, s, step);
    var t' := Do(lease, s, step).jobs;
    assert UniqueKeys(t');
    forall other | other in s.jobs && HasKey(s.jobs[other], step.jobType, step.key) ensures other == id {
      assert HasKey(t'[other], t'[id].jobType, t'[id].key);
    }
    if id in s.jobs { assert HasKey(s.jobs[id], step.jobType, step.key); }
  }

  /** Two services using one key: the second request is answered with the first service's job. */
  lemma AnswerForAnotherService()
    ensures exists s: State, step: Step, id: Uuid ::
              && s == Run(1, INIT, [Enqueue(1, ServiceEvaluation, 100, "nightly", 3, 0)])
              && step.Enqueue? && Enabled(1, s, step)
              && Answers(Do(1, s, step).jobs, step, id)
              && Do(1, s, step).jobs[id].resourceId != step.resource
  {
    var one := Enqueue(1, ServiceEvaluation, 100, "nightly", 3, 0);
    var two := Enqueue(2, ServiceEvaluation, 200, "nightly", 3, 0);
    var s1 := Run(1, INIT, [one]);
    RunOne(1, INIT, [], one);
    assert [] + [one] == [one];
    assert 1 in s1.jobs && s1.jobs[1] == NewRow(1, ServiceEvaluation, 100, "nightly", 3, 0);
    assert HasKey(s1.jobs[1], ServiceEvaluation, "nightly");
    RepeatIsStutter(1, s1, two);
    assert Answers(Do(1, s1, two).jobs, two, 1) && Do(1, s1, two).jobs[1].resourceId != two.resource;
  }
}
