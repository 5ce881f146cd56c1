/** What every run of the queue keeps: fencing by owner, the shape of a row, exclusivity within the
    lease, and the spacing of claims. */
module QueueSafety {
  import opened Wrappers
  import opened Jobs
  import opened Queue

  /** Every state the queue can be in. */
  lemma ReachableInv(lease: nat, steps: seq<Step>)
    ensures Inv(lease, Run(lease, INIT, steps))
  {
    RunKeepsInv(lease, INIT, steps);
  }

  // ----- Fencing -----

  lemma HandleAt(lease: nat, s: State, w: WorkerId, i: nat)
    requires Inv(lease, s) && i < |Batch(s, w)|
    ensures HandleIn(lease, s, w, Batch(s, w)[i])
    ensures JobOk(lease, s.jobs[Batch(s, w)[i].id], Log(s, Batch(s, w)[i].id), s.clock)
  {
    assert BatchOk(lease, s, w, s.batches[w]);
  }

  /** For every unmarked handle of every worker, in every reachable state: the row never has fewer
      attempts than the handle, and it is processing under that worker exactly when it has as many. */
  lemma OwnerFencesAttempt(lease: nat, steps: seq<Step>, w: WorkerId, i: nat)
    requires i < |Batch(Run(lease, INIT, steps), w)|
    ensures var s := Run(lease, INIT, steps); var h := Batch(s, w)[i];
      && h.id in s.jobs
      && h.attempts <= s.jobs[h.id].attempts
      && (OwnedBy(s.jobs[h.id], w) <==> s.jobs[h.id].attempts == h.attempts)
  {
    ReachableInv(lease, steps);
    HandleAt(lease, Run(lease, INIT, steps), w, i);
  }

  /** A mark whose handle carries the row's attempt releases that row and settles, in the history, the
      very claim that issued the handle; nothing else changes. */
  lemma MarkSettlesIssuingClaim(lease: nat, s: State, mark: Step)
    requires Inv(lease, s) && Enabled(lease, s, mark)
    requires (mark.MarkCompleted? || mark.MarkFailed?) && mark.outcome != Refused
    requires var h := Batch(s, mark.worker)[0]; h.id in s.jobs ==> s.jobs[h.id].attempts == h.attempts
    ensures var s' := Do(lease, s, mark); var h := Batch(s, mark.worker)[0];
      && h.id in s.jobs && 1 <= h.attempts == |Log(s, h.id)| && h.lockedAt.Some?
      && Log(s, h.id)[h.attempts - 1] == ClaimRecord(mark.worker, h.lockedAt.value, Open)
      && s'.claims == s.claims[h.id := Settle(Log(s, h.id), if mark.MarkCompleted? then Succeeded else FailedAt(mark.readAt))]
      && s'.jobs == s.jobs[h.id := if mark.MarkCompleted? then SuccessRow(s, mark.worker)
                                   else FailureRow(s, mark.worker, mark.readAt)]
  {
    HandleAt(lease, s, mark.worker, 0);
    MarkHitSettlesOwnClaim(lease, s, mark.worker);
  }

  /** A mark whose handle was overtaken by another claim changes no row and no history, and ends the batch. */
  lemma OvertakenMarkIsNoOp(lease: nat, s: State, mark: Step)
    requires Inv(lease, s) && Enabled(lease, s, mark)
    requires mark.MarkCompleted? || mark.MarkFailed?
    requires var h := Batch(s, mark.worker)[0]; h.id in s.jobs ==> s.jobs[h.id].attempts != h.attempts
    ensures Do(lease, s, mark) == s.(batches := s.batches[mark.worker := []])
  {
    HandleAt(lease, s, mark.worker, 0);
  }

  // ----- Exclusivity within the lease -----

  /** Until the lease of a claim has run out, every handle of the batch still owns its row: no other
      worker has claimed it, and a mark of the head cannot report a state conflict. */
  lemma ExclusiveWithinLease(lease: nat, steps: seq<Step>, w: WorkerId, i: nat)
    requires i < |Batch(Run(lease, INIT, steps), w)|
    requires var s := Run(lease, INIT, steps);
             Batch(s, w)[i].lockedAt.Some? ==> s.clock <= Batch(s, w)[i].lockedAt.value + lease
    ensures var s := Run(lease, INIT, steps); var h := Batch(s, w)[i];
      && h.id in s.jobs && OwnedBy(s.jobs[h.id], w) && s.jobs[h.id].attempts == h.attempts
      && (i == 0 ==> MarkHits(s, w))
      && forall v, g :: v != w && g in Batch(s, v) && g.id == h.id ==> g.attempts < h.attempts
  {
    var s := Run(lease, INIT, steps);
    ReachableInv(lease, steps);
    HandleAt(lease, s, w, i);
    forall v, g | v != w && g in Batch(s, v) && g.id == Batch(s, w)[i].id
      ensures g.attempts < Batch(s, w)[i].attempts
    {
      assert BatchOk(lease, s, v, s.batches[v]);
    }
  }

  // ----- The shape of a row -----

  /** The locked_at and owner columns and the attempt counter say no more than the status does. */
  lemma RowShape(lease: nat, steps: seq<Step>, id: Uuid)
    requires id in Run(lease, INIT, steps).jobs
    ensures var r := Run(lease, INIT, steps).jobs[id];
      && (r.status == Processing <==> r.lockedAt.Some?)
      && (r.status == Processing <==> r.lockOwner.Some?)
      && (r.status == Pending <==> r.attempts == 0)
      && r.attempts <= r.maxAttempts
      && r.jobType == ServiceEvaluation
      && |Log(Run(lease, INIT, steps), id)| == r.attempts
  {
    ReachableInv(lease, steps);
  }

  /** Hence the locked_at IS NOT NULL conjunct of the claim is redundant on every stored row. */
  lemma {:induction false} LockedGuardRedundant(lease: nat, steps: seq<Step>, id: Uuid, now: Time, expiredBefore: int)
    requires id in Run(lease, INIT, steps).jobs
    ensures var r := Run(lease, INIT, steps).jobs[id];
      && (r.status == Processing ==> r.lockedAt.Some?)
      && (Eligible(r, now, expiredBefore) <==>
            && r.attempts < r.maxAttempts
            && (|| (r.status in {Pending, JobStatus.Failed} && r.availableAt <= now)
                || (r.status == Processing && r.lockedAt.value < expiredBefore)))
  {
    RowShape(lease, steps, id);
  }

  /** What one row may become: its identity is fixed, attempts only grow, pending is never re-entered
      and a completed row changes no more than its updated_at. */
  predicate Evolves(r: Job, r': Job) {
    && r'.id == r.id && r'.jobType == r.jobType && r'.key == r.key && r'.resourceId == r.resourceId
    && r'.maxAttempts == r.maxAttempts && r'.createdAt == r.createdAt
    && r.attempts <= r'.attempts
    && r.availableAt <= r'.availableAt
    && (r.status != Pending ==> r'.status != Pending)
    && (r.status == JobStatus.Completed ==> r' == r.(updatedAt := r'.updatedAt))
  }

  /** A step claims or settles the rows in Moved, and leaves every other stored row alone but for updated_at. */
  predicate RowMoved(r: Job, r': Job) {
    && r'.id == r.id && r'.jobType == r.jobType && r'.key == r.key && r'.resourceId == r.resourceId
    && r'.maxAttempts == r.maxAttempts && r'.createdAt == r.createdAt
    && r.availableAt <= r'.availableAt
    && r.status != JobStatus.Completed
    && (|| (r'.status == Processing && r'.attempts == r.attempts + 1 <= r.maxAttempts)
        || (r.status == Processing && (r'.status == JobStatus.Completed || r'.status == JobStatus.Failed)
            && r'.attempts == r.attempts))
  }

  predicate RowKept(r: Job, r': Job) { r' == r.(updatedAt := r'.updatedAt) }

  function Moved(lease: nat, s: State, step: Step): seq<Uuid> {
    if !Enabled(lease, s, step) then []
    else match step
      case Claim(_, _, _, _, _, picked, outcome) => if outcome == Refused then [] else picked
      case MarkCompleted(w, outcome) => MarkedBy(s, w, outcome)
      case MarkFailed(w, _, outcome) => MarkedBy(s, w, outcome)
      case _ => []
  }

  function MarkedBy(s: State, w: WorkerId, outcome: Outcome): seq<Uuid> {
    if outcome != Refused && MarkHits(s, w) then [Batch(s, w)[0].id] else []
  }

  /** What a step does to the table, row by row. */
  predicate TableMoves(t: Table, t': Table, moved: seq<Uuid>) {
    && Distinct(moved) && (forall id <- moved :: id in t)
    && (forall id <- t :: id in t' && (if id in moved then RowMoved(t[id], t'[id]) else RowKept(t[id], t'[id])))
  }

  lemma MarkMovesTable(lease: nat, s: State, w: WorkerId, row: Job, o: ClaimOutcome, outcome: Outcome)
    requires Inv(lease, s) && Batch(s, w) != []
    requires MarkHits(s, w) ==> RowMoved(s.jobs[Batch(s, w)[0].id], row)
    ensures TableMoves(s.jobs, AfterMark(s, w, row, o, outcome).jobs, MarkedBy(s, w, outcome))
  {}

  lemma MarkedRowMoves(lease: nat, s: State, w: WorkerId, readAt: Time)
    requires Inv(lease, s) && MarkHits(s, w)
    ensures var r := s.jobs[Batch(s, w)[0].id];
      && RowMoved(r, SuccessRow(s, w))
      && (Batch(s, w)[0].lockedAt.Some? && Batch(s, w)[0].lockedAt.value <= readAt ==> RowMoved(r, FailureRow(s, w, readAt)))
  {
    HeadOk(lease, s, w);
  }

  lemma EnqueueMovesNothing(t: Table, row: Job)
    ensures TableMoves(t, EnqueueRow(t, row), [])
    ensures EnqueueRow(t, row).Keys == t.Keys || (row.id !in t && EnqueueRow(t, row) == t[row.id := row])
  {}

  lemma ClaimMovesTable(lease: nat, s: State, w: WorkerId, picked: seq<Uuid>, batchSize: nat, now: Time, expiredBefore: int)
    requires Inv(lease, s) && now <= s.clock && Claimable(s.jobs, picked, batchSize, now, expiredBefore)
    ensures TableMoves(s.jobs, ClaimRows(s.jobs, picked, w, now), picked)
  {
    forall id | id in picked ensures RowMoved(s.jobs[id], ClaimRows(s.jobs, picked, w, now)[id]) {
      assert JobOk(lease, s.jobs[id], Log(s, id), s.clock);
    }
  }

  lemma StepMovesTable(lease: nat, s: State, step: Step)
    requires Inv(lease, s)
    ensures TableMoves(s.jobs, Do(lease, s, step).jobs, Moved(lease, s, step))
  {
    if Enabled(lease, s, step) {
      match step
      case Tick(_) =>
      case Enqueue(id, jobType, resource, key, maxAttempts, readAt) =>
        EnqueueMovesNothing(s.jobs, NewRow(id, jobType, resource, key, maxAttempts, readAt));
      case Claim(w, batchSize, l, readAt, now, picked, outcome) =>
        ClaimMovesTable(lease, s, w, picked, batchSize, now, readAt - l);
      case MarkCompleted(w, outcome) =>
        if MarkHits(s, w) { MarkedRowMoves(lease, s, w, s.clock); }
        MarkMovesTable(lease, s, w, SuccessRow(s, w), Succeeded, outcome);
      case MarkFailed(w, readAt, outcome) =>
        if MarkHits(s, w) { MarkedRowMoves(lease, s, w, readAt); }
        MarkMovesTable(lease, s, w, FailureRow(s, w, readAt), FailedAt(readAt), outcome);
      case Abandon(_) =>
    }
  }

  /** What a mark writes to a row of the job at the head of w's batch: nothing, unless w owns it. */
  predicate MarkedAs(s: State, w: WorkerId, outcome: Outcome, r: Job, written: Job, r': Job)
    requires Batch(s, w) != []
  {
    r' == if outcome != Refused && Batch(s, w)[0].id == r.id && r.status == Processing && r.lockOwner == Some(w)
          then written else r
  }

  /** Column by column, what every statement writes to a stored row, and that it writes nothing else. */
  lemma StepWrites(lease: nat, s: State, step: Step, id: Uuid)
    requires Inv(lease, s) && Enabled(lease, s, step) && id in s.jobs
    ensures id in Do(lease, s, step).jobs
    ensures var r, r' := s.jobs[id], Do(lease, s, step).jobs[id];
      match step
      case Claim(w, _, _, _, now, picked, outcome) =>
        r' == if outcome == Refused || id !in picked then r
              else r.(status := Processing, lockedAt := Some(now), lockOwner := Some(w), attempts := r.attempts + 1,
                      updatedAt := now)
      case MarkCompleted(w, outcome) =>
        MarkedAs(s, w, outcome, r, r.(status := JobStatus.Completed, lockedAt := None, lockOwner := None,
                                        updatedAt := s.clock), r')
      case MarkFailed(w, readAt, outcome) =>
        MarkedAs(s, w, outcome, r, r.(status := JobStatus.Failed, lockedAt := None, lockOwner := None,
                                        availableAt := readAt + Min(Pow2(r.attempts) * 1_000_000, 60_000_000),
                                        updatedAt := readAt), r')
      case Enqueue(_, jobType, _, key, _, readAt) =>
        r' == if r.jobType == jobType && r.key == key then r.(updatedAt := readAt) else r
      case Tick(_) => r' == r
      case Abandon(_) => r' == r
  {
    if (step.MarkCompleted? || step.MarkFailed?) && MarkHits(s, step.worker) {
      MarkHitSettlesOwnClaim(lease, s, step.worker);
      BackoffIsCappedPower(s.jobs[Batch(s, step.worker)[0].id].attempts);
    } else if step.Enqueue? {
      RowsHaveTheType(lease, s, id);
    }
  }

  lemma RowsHaveTheType(lease: nat, s: State, id: Uuid)
    requires Inv(lease, s) && id in s.jobs
    ensures s.jobs[id].jobType == ServiceEvaluation && s.jobs[id].id == id
  {
    assert JobOk(lease, s.jobs[id], Log(s, id), s.clock);
  }

  /** The row an enqueue stores if it stores one, and that it stores no other. */
  lemma EnqueueWrites(lease: nat, s: State, step: Step, id: Uuid)
    requires Inv(lease, s) && Enabled(lease, s, step) && id !in s.jobs
    ensures id in Do(lease, s, step).jobs <==>
              && step.Enqueue? && step.id == id && step.jobType == ServiceEvaluation
              && forall other <- s.jobs :: s.jobs[other].key != step.key
    ensures id in Do(lease, s, step).jobs ==>
              var r := Do(lease, s, step).jobs[id];
              && r.id == id && r.jobType == ServiceEvaluation && r.resourceId == step.resource && r.key == step.key
              && r.status == Pending && r.attempts == 0 && r.maxAttempts == step.maxAttempts
              && r.availableAt == step.readAt && r.createdAt == step.readAt && r.updatedAt == step.readAt
              && r.lockedAt.None? && r.lockOwner.None?
  {
    forall other | other in s.jobs ensures s.jobs[other].jobType == ServiceEvaluation { RowsHaveTheType(lease, s, other); }
    if step.Enqueue? {
      assert KeyTaken(s.jobs, ServiceEvaluation, step.key) <==> exists other <- s.jobs :: s.jobs[other].key == step.key by {
        forall other | other in s.jobs
          ensures HasKey(s.jobs[other], ServiceEvaluation, step.key) <==> s.jobs[other].key == step.key
        {}
      }
    } else if (step.MarkCompleted? || step.MarkFailed?) && MarkHits(s, step.worker) {
      assert Batch(s, step.worker)[0].id in s.jobs;
    }
  }

  /** Only an enqueue adds a row, and it adds the one it was given. */
  predicate AddsRow(t: Table, t': Table, step: Step) {
    || t'.Keys == t.Keys
    || (step.Enqueue? && step.id !in t
        && t' == t[step.id := NewRow(step.id, step.jobType, step.resource, step.key, step.maxAttempts, step.readAt)])
  }

  lemma StepAddsRow(lease: nat, s: State, step: Step)
    requires Inv(lease, s)
    ensures AddsRow(s.jobs, Do(lease, s, step).jobs, step)
  {
    if Enabled(lease, s, step) && step.Enqueue? {
      EnqueueMovesNothing(s.jobs, NewRow(step.id, step.jobType, step.resource, step.key, step.maxAttempts, step.readAt));
    } else if Enabled(lease, s, step) && (step.MarkCompleted? || step.MarkFailed?) {
      assert MarkHits(s, step.worker) ==> Batch(s, step.worker)[0].id in s.jobs;
    }
  }

  lemma StepEvolves(lease: nat, s: State, step: Step, id: Uuid)
    requires Inv(lease, s) && id in s.jobs
    ensures id in Do(lease, s, step).jobs && Evolves(s.jobs[id], Do(lease, s, step).jobs[id])
  {
    StepMovesTable(lease, s, step);
    MovesEvolve(lease, s, Do(lease, s, step).jobs, Moved(lease, s, step), id);
  }

  lemma MovesEvolve(lease: nat, s: State, t': Table, moved: seq<Uuid>, id: Uuid)
    requires Inv(lease, s) && TableMoves(s.jobs, t', moved) && id in s.jobs
    ensures Evolves(s.jobs[id], t'[id])
  {
    assert JobOk(lease, s.jobs[id], Log(s, id), s.clock);
  }

  lemma {:induction false} RunEvolves(lease: nat, s: State, steps: seq<Step>, id: Uuid)
    requires Inv(lease, s) && id in s.jobs
    ensures id in Run(lease, s, steps).jobs && Evolves(s.jobs[id], Run(lease, s, steps).jobs[id])
  {
    if steps != [] {
      var before := steps[..|steps| - 1];
      RunEvolves(lease, s, before, id);
      RunKeepsInv(lease, s, before);
      StepEvolves(lease, Run(lease, s, before), steps[|steps| - 1], id);
    }
  }

  // ----- The history of claims -----

  /** A record once made keeps its worker and its time, and once settled never changes. */
  predicate LogGrows(log: seq<ClaimRecord>, log': seq<ClaimRecord>) {
    && |log| <= |log'|
    && forall i :: 0 <= i < |log| ==>
         && log'[i].worker == log[i].worker && log'[i].at == log[i].at
         && (log[i].outcome != Open ==> log'[i] == log[i])
  }

  lemma MarkGrowsLog(lease: nat, s: State, w: WorkerId, row: Job, o: ClaimOutcome, outcome: Outcome, id: Uuid)
    requires Inv(lease, s) && Batch(s, w) != []
    ensures LogGrows(Log(s, id), Log(AfterMark(s, w, row, o, outcome), id))
  {
    if MarkHits(s, w) { MarkHitSettlesOwnClaim(lease, s, w); }
  }

  lemma StepGrowsLog(lease: nat, s: State, step: Step, id: Uuid)
    requires Inv(lease, s)
    ensures LogGrows(Log(s, id), Log(Do(lease, s, step), id))
  {
    if Enabled(lease, s, step) {
      match step
      case MarkCompleted(w, outcome) => MarkGrowsLog(lease, s, w, SuccessRow(s, w), Succeeded, outcome, id);
      case MarkFailed(w, readAt, outcome) =>
        MarkGrowsLog(lease, s, w, FailureRow(s, w, readAt), FailedAt(readAt), outcome, id);
      case _ =>
    }
  }

  lemma {:induction false} RunGrowsLog(lease: nat, s: State, steps: seq<Step>, id: Uuid)
    requires Inv(lease, s)
    ensures LogGrows(Log(s, id), Log(Run(lease, s, steps), id))
  {
    if steps != [] {
      var before := steps[..|steps| - 1];
      RunGrowsLog(lease, s, before, id);
      RunKeepsInv(lease, s, before);
      StepGrowsLog(lease, Run(lease, s, before), steps[|steps| - 1], id);
    }
  }

  // ----- Spacing of claims -----

  /** Over the whole history of a job, a claim follows the previous one only after its lease or its backoff. */
  lemma ClaimsAreSpaced(lease: nat, steps: seq<Step>, id: Uuid, i: nat)
    requires 1 <= i < |Log(Run(lease, INIT, steps), id)|
    ensures var log := Log(Run(lease, INIT, steps), id);
      Spaced(lease, log[i - 1], log[i], i)
  {
    ReachableInv(lease, steps);
  }

  function Gap(lease: nat): nat { if lease < 2 * SECOND then lease else 2 * SECOND }

  lemma {:induction false} ClaimsApart(lease: nat, log: seq<ClaimRecord>, i: nat, k: nat)
    requires LogOk(lease, log) && i <= k < |log|
    ensures (k - i) * Gap(lease) <= log[k].at - log[i].at
    decreases k
  {
    if i < k {
      ClaimsApart(lease, log, i, k - 1);
      BackoffValues(k);
      assert Spaced(lease, log[k - 1], log[k], k);
      assert (k - i) * Gap(lease) == (k - 1 - i) * Gap(lease) + Gap(lease);
    }
  }

  /** A window of length D holds at most 1 + D / min(lease, 2 s) claims of one job. */
  lemma ClaimsPerWindow(lease: nat, steps: seq<Step>, id: Uuid, i: nat, k: nat, d: nat)
    requires lease > 0
    requires i <= k < |Log(Run(lease, INIT, steps), id)|
    requires var log := Log(Run(lease, INIT, steps), id); log[k].at <= log[i].at + d
    ensures k - i + 1 <= 1 + d / Gap(lease)
  {
    var log := Log(Run(lease, INIT, steps), id);
    ReachableInv(lease, steps);
    assert LogOk(lease, log);
    ClaimsApart(lease, log, i, k);
    DivAtLeast(k - i, d, Gap(lease));
  }

  lemma DivAtLeast(n: nat, d: nat, m: nat)
    requires m > 0 && n * m <= d
    ensures n <= d / m
  {
    if n > d / m { QuotientExceeded(n, d, m); }
  }

  lemma QuotientExceeded(n: nat, d: nat, m: nat)
    requires m > 0 && n > d / m
    ensures n * m > d
  {
    var q := d / m;
    assert d == m * q + d % m;
    assert n * m == (n - q - 1) * m + m * q + m;
    assert (n - q - 1) * m >= 0;
  }

  function Failures(log: seq<ClaimRecord>, n: nat): nat
    requires n <= |log|
  {
    if n == 0 then 0 else Failures(log, n - 1) + if log[n - 1].outcome.FailedAt? then 1 else 0
  }

  function TotalBackoff(k: nat): nat {
    if k == 0 then 0 else TotalBackoff(k - 1) + Backoff(k)
  }

  lemma {:induction false} BackoffGrows(a: nat, b: nat)
    requires 1 <= a <= b
    ensures Backoff(a) <= Backoff(b)
  {
    BackoffIsCappedPower(a);
    BackoffIsCappedPower(b);
    Pow2Grows(a, b);
  }

  lemma {:induction false} FailuresBackOff(lease: nat, log: seq<ClaimRecord>, n: nat)
    requires LogOk(lease, log) && n < |log|
    ensures Failures(log, n) <= n
    ensures TotalBackoff(Failures(log, n)) <= log[n].at - log[0].at
  {
    if n > 0 {
      FailuresBackOff(lease, log, n - 1);
      assert Spaced(lease, log[n - 1], log[n], n);
      if log[n - 1].outcome.FailedAt? { BackoffGrows(Failures(log, n), n); }
    }
  }

  lemma {:induction false} TotalBackoffValue(k: nat)
    requires k >= 5
    ensures TotalBackoff(k) == (62 + 60 * (k - 5)) * SECOND
  {
    BackoffValues(k);
    if k == 5 {
      assert TotalBackoff(2) == 6 * SECOND;
      assert TotalBackoff(4) == 30 * SECOND;
    } else {
      TotalBackoffValue(k - 1);
    }
  }

  /** After k >= 5 recorded failures at least 62 + 60 (k - 5) seconds separate the first claim from the next one. */
  lemma BackoffElapsed(lease: nat, steps: seq<Step>, id: Uuid, n: nat)
    requires n < |Log(Run(lease, INIT, steps), id)|
    requires Failures(Log(Run(lease, INIT, steps), id), n) >= 5
    ensures var log := Log(Run(lease, INIT, steps), id);
      log[n].at - log[0].at >= (62 + 60 * (Failures(log, n) - 5)) * SECOND
  {
    var log := Log(Run(lease, INIT, steps), id);
    ReachableInv(lease, steps);
    assert LogOk(lease, log);
    FailuresBackOff(lease, log, n);
    TotalBackoffValue(Failures(log, n));
  }

  // ----- Working off a batch -----

  /** The history shows that w settled the claim that issued h, as a success or as a failure. */
  predicate SettledAs(s: State, w: WorkerId, h: Job, succeeded: bool) {
    && h.lockedAt.Some? && 1 <= h.attempts <= |Log(s, h.id)|
    && var c := Log(s, h.id)[h.attempts - 1];
       c.worker == w && c.at == h.lockedAt.value && if succeeded then c.outcome == Succeeded else c.outcome.FailedAt?
  }

  lemma {:induction false} ClockGrows(lease: nat, s: State, steps: seq<Step>)
    ensures s.clock <= Run(lease, s, steps).clock
  {
    if steps != [] { ClockGrows(lease, s, steps[..|steps| - 1]); }
  }

  /** The state after the mark of the head of w's batch. */
  function Marked(s: State, w: WorkerId, readAt: Time, processed: bool, outcome: Outcome): State
    requires Batch(s, w) != []
  {
    if processed then AfterMark(s, w, SuccessRow(s, w), Succeeded, outcome)
    else AfterMark(s, w, FailureRow(s, w, readAt), FailedAt(readAt), outcome)
  }

  function MarkOf(w: WorkerId, readAt: Time, processed: bool, outcome: Outcome): Step {
    if processed then MarkCompleted(w, outcome) else MarkFailed(w, readAt, outcome)
  }

  /** What a mark makes of the head of the batch; within the lease it cannot miss. */
  lemma MarkEndsHandle(lease: nat, s: State, w: WorkerId, readAt: Time, processed: bool, outcome: Outcome)
    requires Inv(lease, s) && Enabled(lease, s, MarkOf(w, readAt, processed, outcome))
    ensures var h := Batch(s, w)[0]; var s' := Do(lease, s, MarkOf(w, readAt, processed, outcome));
      && Inv(lease, s')
      && (if outcome == Acked && MarkHits(s, w)
          then Batch(s', w) == Batch(s, w)[1..] && SettledAs(s', w, h, processed)
          else Batch(s', w) == [])
      && (h.lockedAt.Some? && s.clock <= h.lockedAt.value + lease ==> MarkHits(s, w))
      && s'.clock == s.clock
  {
    StepKeepsInv(lease, s, MarkOf(w, readAt, processed, outcome));
    HeadOk(lease, s, w);
    if MarkHits(s, w) { MarkHitSettlesOwnClaim(lease, s, w); }
  }

  /** The head of w's batch was claimed before the present. */
  lemma LockedInPast(lease: nat, s: State, w: WorkerId)
    requires Inv(lease, s) && Batch(s, w) != []
    ensures Batch(s, w)[0].lockedAt.Some? && Batch(s, w)[0].lockedAt.value <= s.clock
  {
    HeadOk(lease, s, w);
    LogInPast(lease, s, Batch(s, w)[0].id, Batch(s, w)[0].attempts - 1);
  }

  lemma LogInPast(lease: nat, s: State, id: Uuid, i: nat)
    requires Inv(lease, s) && id in s.jobs && i < |Log(s, id)|
    ensures Log(s, id)[i].at <= s.clock
  {
    LogEndsInPast(lease, s, id);
    LogInOrder(lease, Log(s, id), i, |Log(s, id)| - 1);
  }

  lemma LogEndsInPast(lease: nat, s: State, id: Uuid)
    requires TableOk(lease, s) && id in s.jobs && Log(s, id) != []
    ensures LogOk(lease, Log(s, id)) && Log(s, id)[|Log(s, id)| - 1].at <= s.clock
  {
    assert JobOk(lease, s.jobs[id], Log(s, id), s.clock);
  }

  lemma {:induction false} LogInOrder(lease: nat, log: seq<ClaimRecord>, i: nat, k: nat)
    requires LogOk(lease, log) && i <= k < |log|
    ensures log[i].at <= log[k].at
    decreases k
  {
    if i < k {
      LogInOrder(lease, log, i, k - 1);
      assert Spaced(lease, log[k - 1], log[k], k);
    }
  }
}
