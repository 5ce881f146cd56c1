/** Which jobs never end. A job stays processing for good exactly when it is on its last attempt and no
    worker can still reach its handle: the process that held it stopped, or dropped the rest of its batch
    because an earlier mark failed. */
module Stranding {
  import opened Wrappers
  import opened Jobs
  import opened Queue
  import opened QueueSafety

  /** The handle carries its row's attempt. */
  predicate Live(s: State, h: Job) { h.id in s.jobs && s.jobs[h.id].attempts == h.attempts }

  /** Worker w can still settle position i of its batch: no mark up to it will miss. */
  predicate Reachable(s: State, w: WorkerId, i: nat) {
    i < |Batch(s, w)| && forall k :: 0 <= k <= i ==> Live(s, Batch(s, w)[k])
  }

  /** Worker w holds a handle of the job and can still settle it. */
  predicate Holds(s: State, w: WorkerId, id: Uuid) {
    exists i :: 0 <= i < |Batch(s, w)| && Batch(s, w)[i].id == id && Reachable(s, w, i)
  }

  ghost predicate Stranded(s: State, id: Uuid) {
    && id in s.jobs && s.jobs[id].status == Processing && s.jobs[id].attempts == s.jobs[id].maxAttempts
    && forall w :: !Holds(s, w, id)
  }

  // ----- Stranded is for good -----

  /** What a step makes of a worker's batch: it stays, ends, loses a head that was live, or is newly claimed. */
  lemma StepMovesBatch(lease: nat, s: State, step: Step, w: WorkerId)
    requires Inv(lease, s)
    ensures var b, b' := Batch(s, w), Batch(Do(lease, s, step), w);
      || b' == b
      || b' == []
      || (b != [] && b' == b[1..] && Live(s, b[0]))
      || (step.Claim? && Enabled(lease, s, step) && forall h <- b' :: h.id in step.picked)
  {
    if Enabled(lease, s, step) && (step.MarkCompleted? || step.MarkFailed?) && step.worker == w && MarkHits(s, w) {
      MarkHitSettlesOwnClaim(lease, s, w);
    }
  }

  /** Attempts never drop, so a handle that is live after a step was live before it. */
  lemma LiveBefore(lease: nat, s: State, step: Step, w: WorkerId, i: nat)
    requires Inv(lease, s) && i < |Batch(s, w)| && Live(Do(lease, s, step), Batch(s, w)[i])
    ensures Live(s, Batch(s, w)[i])
  {
    HandleAt(lease, s, w, i);
    StepEvolves(lease, s, step, Batch(s, w)[i].id);
  }

  lemma HeldBefore(lease: nat, s: State, step: Step, w: WorkerId, id: Uuid)
    requires Inv(lease, s) && Holds(Do(lease, s, step), w, id)
    requires step.Claim? && Enabled(lease, s, step) ==> id !in step.picked
    ensures Holds(s, w, id)
  {
    var s' := Do(lease, s, step);
    var b, b' := Batch(s, w), Batch(s', w);
    var i :| 0 <= i < |b'| && b'[i].id == id && Reachable(s', w, i);
    StepMovesBatch(lease, s, step, w);
    if b' == b {
      forall k | 0 <= k <= i ensures Live(s, b[k]) { LiveBefore(lease, s, step, w, k); }
      assert Reachable(s, w, i);
    } else if b != [] && b' == b[1..] {
      forall k | 0 <= k <= i + 1 ensures Live(s, b[k]) {
        if k > 0 {
          assert b[k] == b'[k - 1];
          LiveBefore(lease, s, step, w, k);
        }
      }
      assert b[i + 1].id == id && Reachable(s, w, i + 1);
    }
  }

  /** Only a mark by a worker that holds the job can end it, once it is on its last attempt. */
  lemma StepKeepsStranded(lease: nat, s: State, step: Step, id: Uuid)
    requires Inv(lease, s) && Stranded(s, id)
    ensures Stranded(Do(lease, s, step), id)
  {
    var s' := Do(lease, s, step);
    StepMovesTable(lease, s, step);
    if id in Moved(lease, s, step) { MovedWasHeld(lease, s, step, id); }
    forall w ensures !Holds(s', w, id) {
      if Holds(s', w, id) { HeldBefore(lease, s, step, w, id); }
    }
  }

  lemma MovedWasHeld(lease: nat, s: State, step: Step, id: Uuid)
    requires Inv(lease, s) && id in s.jobs && id in Moved(lease, s, step) && s.jobs[id].attempts == s.jobs[id].maxAttempts
    ensures !step.Claim? && Holds(s, step.worker, id)
  {
    MarkHitSettlesOwnClaim(lease, s, step.worker);
    assert Reachable(s, step.worker, 0);
  }

  lemma {:induction false} RunKeepsStranded(lease: nat, s: State, steps: seq<Step>, id: Uuid)
    requires Inv(lease, s) && Stranded(s, id)
    ensures Stranded(Run(lease, s, steps), id)
  {
    if steps != [] {
      RunKeepsStranded(lease, s, steps[..|steps| - 1], id);
      RunKeepsInv(lease, s, steps[..|steps| - 1]);
      StepKeepsStranded(lease, Run(lease, s, steps[..|steps| - 1]), steps[|steps| - 1], id);
    }
  }

  lemma HolderOwns(lease: nat, s: State, w: WorkerId, id: Uuid)
    requires Inv(lease, s) && Holds(s, w, id)
    ensures id in s.jobs && OwnedBy(s.jobs[id], w)
  {
    var i :| 0 <= i < |Batch(s, w)| && Batch(s, w)[i].id == id && Reachable(s, w, i);
    HandleAt(lease, s, w, i);
    assert Live(s, Batch(s, w)[i]);
  }

  /** Whoever stops while holding a job on its last attempt strands it. */
  lemma StopStrands(lease: nat, s: State, w: WorkerId, id: Uuid)
    requires Inv(lease, s) && Holds(s, w, id) && id in s.jobs && s.jobs[id].attempts == s.jobs[id].maxAttempts
    ensures Stranded(Do(lease, s, Abandon(w)), id)
  {
    HolderOwns(lease, s, w, id);
    forall v ensures !Holds(Do(lease, s, Abandon(w)), v, id) {
      if v != w && Holds(Do(lease, s, Abandon(w)), v, id) {
        HeldBefore(lease, s, Abandon(w), v, id);
        HolderOwns(lease, s, v, id);
      }
    }
  }

  // ----- Everything else can still end -----

  predicate ProcessingAfter(lease: nat, s: State, steps: seq<Step>, id: Uuid) {
    id in Run(lease, s, steps).jobs && Run(lease, s, steps).jobs[id].status == Processing
  }

  function Marks(w: WorkerId, n: nat): seq<Step> { seq(n, _ => MarkCompleted(w, Acked)) }

  /** A mark of a live head: the row is released and the rest of the batch is as live as before. */
  lemma MarkOfLiveHead(lease: nat, s: State, w: WorkerId)
    requires Inv(lease, s) && Batch(s, w) != [] && Live(s, Batch(s, w)[0])
    ensures var s' := Do(lease, s, MarkCompleted(w, Acked)); var h := Batch(s, w)[0];
      && Inv(lease, s') && Batch(s', w) == Batch(s, w)[1..]
      && s'.jobs == s.jobs[h.id := CompletedRow(s.jobs[h.id], s.clock)]
  {
    StepKeepsInv(lease, s, MarkCompleted(w, Acked));
    HandleAt(lease, s, w, 0);
  }

  lemma MarksFromHead(lease: nat, s: State, w: WorkerId, n: nat)
    ensures Run(lease, s, Marks(w, n + 1)) == Run(lease, Do(lease, s, MarkCompleted(w, Acked)), Marks(w, n))
  {
    var step := MarkCompleted(w, Acked);
    assert Marks(w, n + 1) == [step] + Marks(w, n);
    RunConcat(lease, s, [step], Marks(w, n));
    RunOne(lease, s, [], step);
    assert [] + [step] == [step];
  }

  lemma RestIsReachable(lease: nat, s: State, w: WorkerId, i: nat)
    requires Inv(lease, s) && Reachable(s, w, i) && i > 0
    ensures var s' := Do(lease, s, MarkCompleted(w, Acked));
      Inv(lease, s') && Batch(s', w) == Batch(s, w)[1..] && Reachable(s', w, i - 1)
  {
    var b, s' := Batch(s, w), Do(lease, s, MarkCompleted(w, Acked));
    assert Live(s, b[0]);
    MarkOfLiveHead(lease, s, w);
    assert BatchOk(lease, s, w, s.batches[w]);
    forall k | 0 <= k <= i - 1 ensures Live(s', b[1..][k]) {
      assert Live(s, b[k + 1]);
    }
  }

  lemma {:induction false} MarksReach(lease: nat, s: State, w: WorkerId, i: nat)
    requires Inv(lease, s) && Reachable(s, w, i)
    ensures !ProcessingAfter(lease, s, Marks(w, i + 1), Batch(s, w)[i].id)
    decreases i
  {
    MarksFromHead(lease, s, w, i);
    if i == 0 {
      assert Live(s, Batch(s, w)[0]);
      MarkOfLiveHead(lease, s, w);
    } else {
      RestIsReachable(lease, s, w, i);
      MarksReach(lease, Do(lease, s, MarkCompleted(w, Acked)), w, i - 1);
    }
  }

  /** An idle worker claims a row and completes it. */
  function Serve(lease: nat, w: WorkerId, id: Uuid, now: Time): seq<Step> {
    [Claim(w, 1, lease, now, now, [id], Acked), MarkCompleted(w, Acked)]
  }

  /** A worker becomes idle, and time passes. */
  function Wait(w: WorkerId, wait: nat): seq<Step> { [Abandon(w), Tick(wait)] }

  lemma TwoSteps(lease: nat, s: State, a1: Step, a2: Step)
    ensures Run(lease, s, [a1, a2]) == Do(lease, Do(lease, s, a1), a2)
  {
    RunOne(lease, s, [], a1);
    RunOne(lease, s, [a1], a2);
    assert [] + [a1] == [a1] && [a1] + [a2] == [a1, a2];
  }

  lemma Served(lease: nat, s: State, w: WorkerId, id: Uuid)
    requires Inv(lease, s) && id in s.jobs && Batch(s, w) == [] && Eligible(s.jobs[id], s.clock, s.clock - lease)
    ensures !ProcessingAfter(lease, s, Serve(lease, w, id, s.clock), id)
  {
    var c := Claim(w, 1, lease, s.clock, s.clock, [id], Acked);
    assert Claimable(s.jobs, [id], 1, s.clock, s.clock - lease);
    StepKeepsInv(lease, s, c);
    MarkOfLiveHead(lease, Do(lease, s, c), w);
    TwoSteps(lease, s, c, MarkCompleted(w, Acked));
  }

  lemma Waited(lease: nat, s: State, w: WorkerId, wait: nat)
    requires Inv(lease, s)
    ensures var s' := Run(lease, s, Wait(w, wait));
      Inv(lease, s') && s'.jobs == s.jobs && s'.clock == s.clock + wait && Batch(s', w) == []
  {
    StepKeepsInv(lease, s, Abandon(w));
    StepKeepsInv(lease, Do(lease, s, Abandon(w)), Tick(wait));
    TwoSteps(lease, s, Abandon(w), Tick(wait));
  }

  /** A row with attempts left is claimed once its lease is over, and completed. */
  lemma Rescued(lease: nat, s: State, w: WorkerId, id: Uuid, wait: nat)
    requires Inv(lease, s) && id in s.jobs && Eligible(s.jobs[id], s.clock + wait, s.clock + wait - lease)
    ensures !ProcessingAfter(lease, s, Wait(w, wait) + Serve(lease, w, id, s.clock + wait), id)
  {
    Waited(lease, s, w, wait);
    Served(lease, Run(lease, s, Wait(w, wait)), w, id);
    RunConcat(lease, s, Wait(w, wait), Serve(lease, w, id, s.clock + wait));
  }

  lemma CanEnd(lease: nat, s: State, id: Uuid) returns (steps: seq<Step>)
    requires Inv(lease, s) && id in s.jobs && !Stranded(s, id)
    ensures !ProcessingAfter(lease, s, steps, id)
  {
    var r := s.jobs[id];
    assert JobOk(lease, r, Log(s, id), s.clock);
    if r.status != Processing {
      steps := [];
    } else if r.attempts < r.maxAttempts {
      var wait := r.lockedAt.value + lease + 1;
      steps := Wait(0, wait) + Serve(lease, 0, id, s.clock + wait);
      Rescued(lease, s, 0, id, wait);
    } else {
      var w :| Holds(s, w, id);
      var i :| 0 <= i < |Batch(s, w)| && Batch(s, w)[i].id == id && Reachable(s, w, i);
      steps := Marks(w, i + 1);
      MarksReach(lease, s, w, i);
    }
  }

  /** A job stays processing whatever happens from here on, exactly if it is stranded. Every other job is
      completed or failed already, or some run completes it. */
  lemma ProcessingForeverIff(lease: nat, s: State, id: Uuid)
    requires Inv(lease, s) && id in s.jobs
    ensures (forall steps :: ProcessingAfter(lease, s, steps, id)) <==> Stranded(s, id)
  {
    if Stranded(s, id) {
      forall steps ensures ProcessingAfter(lease, s, steps, id) {
        RunKeepsStranded(lease, s, steps, id);
      }
    } else {
      var steps := CanEnd(lease, s, id);
    }
  }

  // ----- A job stranded while every call succeeds -----

  const TWO_JOBS: seq<Step> := [
    Enqueue(7, ServiceEvaluation, 100, "slow", 2, 0),
    Enqueue(8, ServiceEvaluation, 100, "next", 1, 0)]

  /** Worker 1 claims both jobs, the second for its only attempt. Its lease runs out over the first, which
      worker 2 claims. */
  const OVERTAKING: seq<Step> := [Claim(1, 2, 1, 0, 0, [7, 8], Acked), Tick(2), Claim(2, 2, 1, 2, 2, [7], Acked)]

  const ROW_7 := NewRow(7, ServiceEvaluation, 100, "slow", 2, 0)
  const ROW_8 := NewRow(8, ServiceEvaluation, 100, "next", 1, 0)

  lemma BothQueued()
    ensures var s := Run(1, INIT, TWO_JOBS);
      s.clock == 0 && s.jobs == map[7 := ROW_7, 8 := ROW_8] && s.batches == map[]
  {
    TwoSteps(1, INIT, TWO_JOBS[0], TWO_JOBS[1]);
    OneQueued(INIT);
    OtherQueued(Do(1, INIT, TWO_JOBS[0]));
  }

  lemma OneQueued(s: State)
    requires s == INIT
    ensures var s' := Do(1, s, TWO_JOBS[0]); s'.clock == 0 && s'.jobs == map[7 := ROW_7] && s'.batches == map[]
  {}

  lemma OtherQueued(s: State)
    requires s.clock == 0 && s.jobs == map[7 := ROW_7] && s.batches == map[]
    ensures var s' := Do(1, s, TWO_JOBS[1]);
      s'.clock == 0 && s'.jobs == map[7 := ROW_7, 8 := ROW_8] && s'.batches == map[]
  {
    assert "slow"[0] != "next"[0];
  }

  lemma BothClaimed(s: State)
    requires s.clock == 0 && s.jobs == map[7 := ROW_7, 8 := ROW_8] && s.batches == map[]
    ensures var s' := Do(1, s, OVERTAKING[0]); var a, b := ClaimedRow(ROW_7, 1, 0), ClaimedRow(ROW_8, 1, 0);
      s'.clock == 0 && s'.jobs == map[7 := a, 8 := b] && s'.batches == map[1 := [a, b]]
  {
    assert Claimable(s.jobs, [7, 8], 2, 0, -1);
    var jobs := ClaimRows(s.jobs, [7, 8], 1, 0);
    assert jobs == map[7 := ClaimedRow(ROW_7, 1, 0), 8 := ClaimedRow(ROW_8, 1, 0)];
    assert Returned(jobs, [7, 8]) == [jobs[7], jobs[8]];
  }

  lemma FirstOvertaken(s: State, a: Job, b: Job)
    requires a == ClaimedRow(ROW_7, 1, 0) && b == ClaimedRow(ROW_8, 1, 0)
    requires s.clock == 2 && s.jobs == map[7 := a, 8 := b] && s.batches == map[1 := [a, b]]
    ensures var s' := Do(1, s, OVERTAKING[2]); var c := ClaimedRow(a, 2, 2);
      s'.clock == 2 && s'.jobs == map[7 := c, 8 := b] && s'.batches == map[1 := [a, b], 2 := [c]]
  {
    assert Claimable(s.jobs, [7], 2, 2, 1);
    var jobs := ClaimRows(s.jobs, [7], 2, 2);
    assert jobs == map[7 := ClaimedRow(a, 2, 2), 8 := b];
    assert Returned(jobs, [7]) == [jobs[7]];
  }

  lemma BatchHeld()
    ensures var s := Run(1, INIT, TWO_JOBS + OVERTAKING[..2]); var a, b := ClaimedRow(ROW_7, 1, 0), ClaimedRow(ROW_8, 1, 0);
      s.clock == 2 && s.jobs == map[7 := a, 8 := b] && s.batches == map[1 := [a, b]]
  {
    var s0 := Run(1, INIT, TWO_JOBS);
    BothQueued();
    BothClaimed(s0);
    RunConcat(1, INIT, TWO_JOBS, OVERTAKING[..2]);
    assert OVERTAKING[..2] == [OVERTAKING[0], OVERTAKING[1]];
    TwoSteps(1, s0, OVERTAKING[0], OVERTAKING[1]);
  }

  lemma LastStep(first: seq<Step>, last: seq<Step>)
    requires last != []
    ensures Run(1, INIT, first + last)
            == Do(1, Run(1, INIT, first + last[..|last| - 1]), last[|last| - 1])
  {
    assert first + last == first + last[..|last| - 1] + [last[|last| - 1]];
    RunOne(1, INIT, first + last[..|last| - 1], last[|last| - 1]);
  }

  lemma HeadOvertaken()
    ensures var s := Run(1, INIT, TWO_JOBS + OVERTAKING); var a, b := ClaimedRow(ROW_7, 1, 0), ClaimedRow(ROW_8, 1, 0);
      s.jobs == map[7 := ClaimedRow(a, 2, 2), 8 := b] && s.batches == map[1 := [a, b], 2 := [ClaimedRow(a, 2, 2)]]
  {
    BatchHeld();
    FirstOvertaken(Run(1, INIT, TWO_JOBS + OVERTAKING[..2]), ClaimedRow(ROW_7, 1, 0), ClaimedRow(ROW_8, 1, 0));
    LastStep(TWO_JOBS, OVERTAKING);
  }

  lemma HoldsBoth(s: State)
    requires var a, b := ClaimedRow(ROW_7, 1, 0), ClaimedRow(ROW_8, 1, 0);
      s.jobs == map[7 := a, 8 := b] && s.batches == map[1 := [a, b]]
    ensures !Stranded(s, 8)
  {
    assert Live(s, Batch(s, 1)[0]) && Live(s, Batch(s, 1)[1]);
    assert Reachable(s, 1, 1) && Batch(s, 1)[1].id == 8;
    assert Holds(s, 1, 8);
  }

  lemma HoldsNoMore(s: State)
    requires var a, b := ClaimedRow(ROW_7, 1, 0), ClaimedRow(ROW_8, 1, 0); var c := ClaimedRow(a, 2, 2);
      s.jobs == map[7 := c, 8 := b] && s.batches == map[1 := [a, b], 2 := [c]]
    ensures Stranded(s, 8)
    ensures var s' := Do(1, s, MarkCompleted(1, Acked)); Batch(s', 1) == [] && s'.jobs == s.jobs
  {
    forall w ensures !Holds(s, w, 8) {
      if w == 1 { assert !Live(s, Batch(s, 1)[0]); }
    }
  }

  /** No process stops and no call fails, and still a job is stranded: once worker 2 has the first job, worker
      1's mark of it reports a conflict, runOnce returns, and the handle of the second job, still valid, is
      dropped. */
  lemma StrandedByOvertakenHead()
    ensures !Stranded(Run(1, INIT, TWO_JOBS + OVERTAKING[..2]), 8)
    ensures Stranded(Run(1, INIT, TWO_JOBS + OVERTAKING), 8)
    ensures var s := Run(1, INIT, TWO_JOBS + OVERTAKING + [MarkCompleted(1, Acked)]); Stranded(s, 8) && Batch(s, 1) == []
  {
    HeadOvertaken();
    BatchHeld();
    HoldsBoth(Run(1, INIT, TWO_JOBS + OVERTAKING[..2]));
    HoldsNoMore(Run(1, INIT, TWO_JOBS + OVERTAKING));
    RunOne(1, INIT, TWO_JOBS + OVERTAKING, MarkCompleted(1, Acked));
    ReachableInv(1, TWO_JOBS + OVERTAKING);
    StepKeepsStranded(1, Run(1, INIT, TWO_JOBS + OVERTAKING), MarkCompleted(1, Acked), 8);
  }
}
