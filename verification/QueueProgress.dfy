/** How far a run of the queue can go: the termination measure and the bound on overtaking. */
module QueueProgress {
  import opened Wrappers
  import opened Jobs
  import opened Queue
  import opened QueueSafety
  import opened Sums

  // ----- The termination measure -----

  function Weight(r: Job): nat
    requires r.attempts <= r.maxAttempts
  {
    2 * (r.maxAttempts - r.attempts) + if r.status == Processing then 1 else 0
  }

  predicate WithinBudget(t: Table) {
    forall id <- t :: t[id].attempts <= t[id].maxAttempts
  }

  function Weights(t: Table): map<Uuid, nat>
    requires WithinBudget(t)
  {
    map id | id in t :: Weight(t[id])
  }

  /** The weights in t' of the rows t already had. */
  function WeightsKept(t: Table, t': Table): map<Uuid, nat>
    requires WithinBudget(t') && forall id <- t :: id in t'
  {
    map id | id in t :: Weight(t'[id])
  }

  ghost function Measure(s: State): nat
    requires WithinBudget(s.jobs)
  {
    Sum(Weights(s.jobs))
  }

  lemma InvWithinBudget(lease: nat, s: State)
    requires Inv(lease, s)
    ensures WithinBudget(s.jobs)
  {
    forall id | id in s.jobs ensures s.jobs[id].attempts <= s.jobs[id].maxAttempts {
      assert JobOk(lease, s.jobs[id], Log(s, id), s.clock);
    }
  }

  /** The budget a step adds: what an enqueue of a new row brings. */
  function Added(lease: nat, s: State, step: Step): nat {
    if step.Enqueue? && step.id !in s.jobs && step.id in Do(lease, s, step).jobs then 2 * step.maxAttempts else 0
  }

  lemma MovesDropWeights(t: Table, t': Table, moved: seq<Uuid>)
    requires TableMoves(t, t', moved) && WithinBudget(t) && WithinBudget(t')
    ensures Sum(WeightsKept(t, t')) + |moved| <= Sum(Weights(t))
  {
    SumDrops(Weights(t), WeightsKept(t, t'), moved);
  }

  /** Every claim, completion and failure uses up measure, row by row, and only a new row brings any. */
  lemma MeasureDrops(lease: nat, s: State, step: Step)
    requires Inv(lease, s)
    ensures WithinBudget(s.jobs) && WithinBudget(Do(lease, s, step).jobs)
    ensures Measure(Do(lease, s, step)) + |Moved(lease, s, step)| <= Measure(s) + Added(lease, s, step)
  {
    var t' := Do(lease, s, step).jobs;
    InvWithinBudget(lease, s);
    StepKeepsInv(lease, s, step);
    InvWithinBudget(lease, Do(lease, s, step));
    StepMovesTable(lease, s, step);
    MovesDropWeights(s.jobs, t', Moved(lease, s, step));
    StepAddsRow(lease, s, step);
    NewRowWeighs(s.jobs, t', step);
  }

  lemma NewRowWeighs(t: Table, t': Table, step: Step)
    requires WithinBudget(t) && WithinBudget(t')
    requires forall id <- t :: id in t'
    requires AddsRow(t, t', step)
    ensures Sum(Weights(t')) == Sum(WeightsKept(t, t')) + if t'.Keys == t.Keys then 0 else 2 * step.maxAttempts
  {
    var kept := WeightsKept(t, t');
    if t'.Keys == t.Keys {
      assert Weights(t') == kept;
    } else {
      assert Weights(t') == kept[step.id := 2 * step.maxAttempts];
      SumInserts(kept, step.id, 2 * step.maxAttempts);
    }
  }

  function TotalMoved(lease: nat, s: State, steps: seq<Step>): nat {
    if steps == [] then 0
    else TotalMoved(lease, s, steps[..|steps| - 1])
         + |Moved(lease, Run(lease, s, steps[..|steps| - 1]), steps[|steps| - 1])|
  }

  function TotalAdded(lease: nat, s: State, steps: seq<Step>): nat {
    if steps == [] then 0
    else TotalAdded(lease, s, steps[..|steps| - 1])
         + Added(lease, Run(lease, s, steps[..|steps| - 1]), steps[|steps| - 1])
  }

  /** However workers, crashes and lost replies interleave, the claims, completions and failures of a run
      are bounded by the measure it started with and the budgets of the jobs enqueued on the way. */
  lemma {:induction false} BoundedWork(lease: nat, s: State, steps: seq<Step>)
    requires Inv(lease, s)
    ensures WithinBudget(s.jobs) && WithinBudget(Run(lease, s, steps).jobs)
    ensures TotalMoved(lease, s, steps) + Measure(Run(lease, s, steps)) <= Measure(s) + TotalAdded(lease, s, steps)
  {
    InvWithinBudget(lease, s);
    if steps != [] {
      var before := steps[..|steps| - 1];
      BoundedWork(lease, s, before);
      RunKeepsInv(lease, s, before);
      MeasureDrops(lease, Run(lease, s, before), steps[|steps| - 1]);
    }
  }

  // ----- Quiescence -----

  predicate EligibleAt(r: Job, l: nat, now: Time) { Eligible(r, now, now - l) }

  ghost predicate NeverAgainEligible(r: Job, l: nat, clock: Time) {
    forall now: Time :: now >= clock ==> !EligibleAt(r, l, now)
  }

  /** The queue is finished, no matter how long workers keep polling, exactly when every row is completed
      or has used up its attempts; a row abandoned on its last attempt stays processing for good. */
  lemma QuiescentIff(lease: nat, s: State, l: nat)
    requires Inv(lease, s)
    ensures (forall id <- s.jobs :: NeverAgainEligible(s.jobs[id], l, s.clock))
      <==> (forall id <- s.jobs :: s.jobs[id].status == JobStatus.Completed || s.jobs[id].attempts == s.jobs[id].maxAttempts)
  {
    forall id | id in s.jobs
      ensures NeverAgainEligible(s.jobs[id], l, s.clock)
         <==> (s.jobs[id].status == JobStatus.Completed || s.jobs[id].attempts == s.jobs[id].maxAttempts)
    {
      var r := s.jobs[id];
      assert JobOk(lease, r, Log(s, id), s.clock);
      var late: Time := s.clock + r.availableAt + l + 1 + if r.lockedAt.Some? then r.lockedAt.value else 0;
      if r.status != JobStatus.Completed && r.attempts < r.maxAttempts { assert EligibleAt(r, l, late); }
    }
  }

  /** A worker that stops on a job's only attempt leaves the row processing, and no claim can ever take it. */
  lemma StrandedJob()
    ensures var s := Run(1, INIT, [Enqueue(7, ServiceEvaluation, 100, "once", 1, 0),
                                   Claim(1, 1, 1, 0, 0, [7], Acked), Abandon(1)]);
      && 7 in s.jobs && s.jobs[7].status == Processing && NeverAgainEligible(s.jobs[7], 1, s.clock)
  {
    var e, c, a := Enqueue(7, ServiceEvaluation, 100, "once", 1, 0), Claim(1, 1, 1, 0, 0, [7], Acked), Abandon(1);
    RunOne(1, INIT, [], e);
    RunOne(1, INIT, [e], c);
    RunOne(1, INIT, [e, c], a);
    assert [] + [e] == [e] && [e] + [c] == [e, c] && [e, c] + [a] == [e, c, a];
    OnlyJob();
    OnlyJobClaimed(Run(1, INIT, [e]));
  }

  lemma OnlyJob()
    ensures var s := Do(1, INIT, Enqueue(7, ServiceEvaluation, 100, "once", 1, 0));
      s.jobs == map[7 := NewRow(7, ServiceEvaluation, 100, "once", 1, 0)] && s.clock == 0 && Batch(s, 1) == []
  {}

  lemma OnlyJobClaimed(s: State)
    requires s.jobs == map[7 := NewRow(7, ServiceEvaluation, 100, "once", 1, 0)] && s.clock == 0 && Batch(s, 1) == []
    ensures var s' := Do(1, s, Claim(1, 1, 1, 0, 0, [7], Acked));
      s'.clock == 0 && 7 in s'.jobs && s'.jobs[7] == ClaimedRow(s.jobs[7], 1, 0)
  {
    assert Claimable(s.jobs, [7], 1, 0, -1);
  }

  // ----- Bounded overtaking -----

  predicate Waiting(r: Job) {
    (r.status == Pending || r.status == JobStatus.Failed) && r.attempts < r.maxAttempts
  }

  /** The attempts row r may still take before a row sorted like target. */
  function AheadWeight(r: Job, target: Job): nat {
    if NotAfter(r, target) && r.attempts <= r.maxAttempts then r.maxAttempts - r.attempts else 0
  }

  function AheadWeights(t: Table, j: Uuid, target: Job): map<Uuid, nat> {
    map id | id in t && id != j :: AheadWeight(t[id], target)
  }

  /** The weights in t' of the rows t already had. */
  function AheadKept(t: Table, t': Table, j: Uuid, target: Job): map<Uuid, nat>
    requires forall id <- t :: id in t'
  {
    map id | id in t && id != j :: AheadWeight(t'[id], target)
  }

  ghost function Ahead(s: State, j: Uuid, target: Job): nat {
    Sum(AheadWeights(s.jobs, j, target))
  }

  /** A claim call that could have taken j: it went through, asked for at least b rows no earlier than j
      became available, and did not find j locked. Whatever else was locked it skipped. */
  ghost predicate FairCall(lease: nat, s: State, step: Step, b: nat, j: Uuid, target: Job) {
    && step.Claim? && Enabled(lease, s, step) && step.outcome != Refused
    && step.batchSize >= b && target.availableAt <= step.now
    && exists locked: set<Uuid> :: j !in locked
         && InOrderAmong(s.jobs, locked, step.picked, step.batchSize, step.now, step.readAt - step.lease)
  }

  ghost function ClaimCalls(lease: nat, s: State, steps: seq<Step>, b: nat, j: Uuid, target: Job): nat {
    if steps == [] then 0
    else ClaimCalls(lease, s, steps[..|steps| - 1], b, j, target)
         + if FairCall(lease, Run(lease, s, steps[..|steps| - 1]), steps[|steps| - 1], b, j, target) then 1 else 0
  }

  /** b places for every such call. */
  ghost function Places(lease: nat, s: State, steps: seq<Step>, b: nat, j: Uuid, target: Job): nat {
    if steps == [] then 0
    else Places(lease, s, steps[..|steps| - 1], b, j, target)
         + if FairCall(lease, Run(lease, s, steps[..|steps| - 1]), steps[|steps| - 1], b, j, target) then b else 0
  }

  /** The attempts of a row that an enqueue in flight puts ahead of target: its clock was read no later than
      target became available. */
  function JumpedInto(t: Table, t': Table, step: Step, target: Job): nat {
    if step.Enqueue? && step.id !in t && step.id in t' && step.readAt <= target.availableAt then step.maxAttempts else 0
  }

  function Jumped(lease: nat, s: State, step: Step, target: Job): nat {
    JumpedInto(s.jobs, Do(lease, s, step).jobs, step, target)
  }

  function TotalJumped(lease: nat, s: State, steps: seq<Step>, target: Job): nat {
    if steps == [] then 0
    else TotalJumped(lease, s, steps[..|steps| - 1], target)
         + Jumped(lease, Run(lease, s, steps[..|steps| - 1]), steps[|steps| - 1], target)
  }

  lemma OneCallMore(b: nat, n: nat)
    ensures b * (n + 1) == b * n + b
  {}

  lemma {:induction false} PlacesPerCall(lease: nat, s: State, steps: seq<Step>, b: nat, j: Uuid, target: Job)
    ensures Places(lease, s, steps, b, j, target) == b * ClaimCalls(lease, s, steps, b, j, target)
  {
    if steps != [] {
      PlacesPerCall(lease, s, steps[..|steps| - 1], b, j, target);
      OneCallMore(b, ClaimCalls(lease, s, steps[..|steps| - 1], b, j, target));
    }
  }

  /** A waiting row that is not claimed keeps everything but its updated_at. */
  lemma UnclaimedStays(r: Job, r': Job, moved: bool)
    requires Waiting(r) && r'.attempts == r.attempts
    requires if moved then RowMoved(r, r') else RowKept(r, r')
    ensures !moved && r' == r.(updatedAt := r'.updatedAt)
  {}

  lemma MovesDropAhead(t: Table, t': Table, moved: seq<Uuid>, j: Uuid, target: Job, overtakers: bool)
    requires TableMoves(t, t', moved) && j !in moved
    requires overtakers ==> forall p <- moved :: t'[p].attempts > t[p].attempts && NotAfter(t[p], target)
    ensures Sum(AheadKept(t, t', j, target)) + (if overtakers then |moved| else 0) <= Sum(AheadWeights(t, j, target))
  {
    SumDrops(AheadWeights(t, j, target), AheadKept(t, t', j, target), if overtakers then moved else []);
  }

  lemma NewRowJumps(t: Table, t': Table, step: Step, j: Uuid, target: Job)
    requires j in t && forall id <- t :: id in t'
    requires AddsRow(t, t', step)
    ensures Sum(AheadWeights(t', j, target)) <= Sum(AheadKept(t, t', j, target))
              + JumpedInto(t, t', step, target)
  {
    var kept := AheadKept(t, t', j, target);
    if t'.Keys == t.Keys {
      assert AheadWeights(t', j, target) == kept;
    } else {
      var w := AheadWeight(t'[step.id], target);
      assert AheadWeights(t', j, target) == kept[step.id := w];
      SumInserts(kept, step.id, w);
    }
  }

  /** A claim that leaves out the waiting row j, and not because j is locked, takes a full batch of rows
      sorted no later than j. */
  lemma SkippedOnlyForEarlierRows(t: Table, locked: set<Uuid>, picked: seq<Uuid>, batchSize: nat, now: Time,
                                  expiredBefore: int, j: Uuid)
    requires InOrderAmong(t, locked, picked, batchSize, now, expiredBefore) && j !in locked
    requires j in t && j !in picked && Waiting(t[j]) && t[j].availableAt <= now
    ensures |picked| == batchSize && forall p <- picked :: p in t && NotAfter(t[p], t[j])
  {
    assert j in t - locked;
  }

  /** One step that leaves j unclaimed: the attempts ahead of j grow only by rows that jump ahead, and a
      fair call takes at least b of them. */
  lemma AheadDrops(t: Table, t': Table, moved: seq<Uuid>, step: Step, b: nat, j: Uuid, target: Job, claims: bool)
    requires TableMoves(t, t', moved) && AddsRow(t, t', step) && j in t && j !in moved
    requires claims ==> |moved| >= b && forall p <- moved :: t'[p].attempts > t[p].attempts && NotAfter(t[p], target)
    ensures Sum(AheadWeights(t', j, target)) + (if claims then b else 0) <= Sum(AheadWeights(t, j, target))
              + JumpedInto(t, t', step, target)
  {
    MovesDropAhead(t, t', moved, j, target, claims);
    NewRowJumps(t, t', step, j, target);
  }

  lemma ClaimTakesFromAhead(lease: nat, s: State, step: Step, b: nat, j: Uuid, target: Job)
    requires Inv(lease, s) && FairCall(lease, s, step, b, j, target)
    requires j in s.jobs && j !in step.picked && Waiting(target) && RowKept(target, s.jobs[j])
    ensures Moved(lease, s, step) == step.picked && |step.picked| >= b
    ensures forall p <- step.picked :: p in s.jobs && Do(lease, s, step).jobs[p].attempts > s.jobs[p].attempts
                                       && NotAfter(s.jobs[p], target)
  {
    var locked: set<Uuid> :| j !in locked
      && InOrderAmong(s.jobs, locked, step.picked, step.batchSize, step.now, step.readAt - step.lease);
    SkippedOnlyForEarlierRows(s.jobs, locked, step.picked, step.batchSize, step.now, step.readAt - step.lease, j);
  }

  /** Bounded overtaking, over any run: while j waits unclaimed, every claim call that could have taken it
      uses up at least b of the attempts that were ahead of it, or that enqueues in flight put there. */
  lemma OvertakingIsBounded(lease: nat, s: State, steps: seq<Step>, b: nat, j: Uuid)
    requires Inv(lease, s) && j in s.jobs && Waiting(s.jobs[j])
    requires var s' := Run(lease, s, steps); j in s'.jobs ==> s'.jobs[j].attempts == s.jobs[j].attempts
    ensures var s' := Run(lease, s, steps);
      && j in s'.jobs && RowKept(s.jobs[j], s'.jobs[j])
      && b * ClaimCalls(lease, s, steps, b, j, s.jobs[j]) + Ahead(s', j, s.jobs[j])
         <= Ahead(s, j, s.jobs[j]) + TotalJumped(lease, s, steps, s.jobs[j])
  {
    PlacesBounded(lease, s, steps, b, j);
    PlacesPerCall(lease, s, steps, b, j, s.jobs[j]);
  }

  lemma {:induction false} PlacesBounded(lease: nat, s: State, steps: seq<Step>, b: nat, j: Uuid)
    requires Inv(lease, s) && j in s.jobs && Waiting(s.jobs[j])
    requires var s' := Run(lease, s, steps); j in s'.jobs ==> s'.jobs[j].attempts == s.jobs[j].attempts
    ensures var s' := Run(lease, s, steps);
      && j in s'.jobs && RowKept(s.jobs[j], s'.jobs[j])
      && Places(lease, s, steps, b, j, s.jobs[j]) + Ahead(s', j, s.jobs[j])
         <= Ahead(s, j, s.jobs[j]) + TotalJumped(lease, s, steps, s.jobs[j])
  {
    if steps != [] {
      var before, step := steps[..|steps| - 1], steps[|steps| - 1];
      AttemptsStay(lease, s, before, step, j);
      PlacesBounded(lease, s, before, b, j);
      OvertakingStep(lease, Run(lease, s, before), step, b, j, s.jobs[j]);
    }
  }

  /** A row with the same attempts at the end of a run has had them all along. */
  lemma AttemptsStay(lease: nat, s: State, before: seq<Step>, step: Step, j: Uuid)
    requires Inv(lease, s) && j in s.jobs
    ensures var mid := Run(lease, s, before); var end := Do(lease, mid, step);
      && Inv(lease, mid) && j in mid.jobs && j in end.jobs
      && s.jobs[j].attempts <= mid.jobs[j].attempts <= end.jobs[j].attempts
  {
    RunKeepsInv(lease, s, before);
    RunEvolves(lease, s, before, j);
    StepEvolves(lease, Run(lease, s, before), step, j);
  }

  lemma OvertakingStep(lease: nat, s: State, step: Step, b: nat, j: Uuid, target: Job)
    requires Inv(lease, s) && j in s.jobs && Waiting(target) && RowKept(target, s.jobs[j])
    requires var s' := Do(lease, s, step); j in s'.jobs ==> s'.jobs[j].attempts == s.jobs[j].attempts
    ensures j in Do(lease, s, step).jobs && RowKept(target, Do(lease, s, step).jobs[j])
    ensures Ahead(Do(lease, s, step), j, target) + (if FairCall(lease, s, step, b, j, target) then b else 0)
            <= Ahead(s, j, target) + Jumped(lease, s, step, target)
  {
    StepMovesTable(lease, s, step);
    UnclaimedStays(s.jobs[j], Do(lease, s, step).jobs[j], j in Moved(lease, s, step));
    StepAddsRow(lease, s, step);
    var fair := FairCall(lease, s, step, b, j, target);
    if fair { ClaimTakesFromAhead(lease, s, step, b, j, target); }
    AheadDrops(s.jobs, Do(lease, s, step).jobs, Moved(lease, s, step), step, b, j, target, fair);
  }

  /** Hence j is claimed within (attempts ahead) / b + 1 such calls. */
  lemma ClaimedInTime(lease: nat, s: State, steps: seq<Step>, b: nat, j: Uuid)
    requires Inv(lease, s) && j in s.jobs && Waiting(s.jobs[j]) && b > 0
    requires ClaimCalls(lease, s, steps, b, j, s.jobs[j])
             >= (Ahead(s, j, s.jobs[j]) + TotalJumped(lease, s, steps, s.jobs[j])) / b + 1
    ensures j in Run(lease, s, steps).jobs && Run(lease, s, steps).jobs[j].attempts > s.jobs[j].attempts
  {
    RunEvolves(lease, s, steps, j);
    if Run(lease, s, steps).jobs[j].attempts == s.jobs[j].attempts {
      OvertakingIsBounded(lease, s, steps, b, j);
      DivAtLeast(ClaimCalls(lease, s, steps, b, j, s.jobs[j]),
                 Ahead(s, j, s.jobs[j]) + TotalJumped(lease, s, steps, s.jobs[j]), b);
    }
  }
}
