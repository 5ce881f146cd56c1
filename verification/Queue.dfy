/** The leased job queue as a state machine: any number of workers, each running the batch loop of
    internal/jobs/worker.go, over one jobs table. A step is one SQL statement or one clock tick. */
module Queue {
  import opened Wrappers
  import opened Jobs

  /** History of one claim of a job; not a column of the table. */
  datatype ClaimOutcome = Open | Succeeded | FailedAt(at: Time)
  datatype ClaimRecord = ClaimRecord(worker: WorkerId, at: Time, outcome: ClaimOutcome)

  /** batches holds, per worker, the claimed rows its runOnce loop has not marked yet, the one being
      processed first. claims is history: the k-th record of a job is its attempt k+1. */
  datatype State = State(
    clock: Time, jobs: Table, batches: map<WorkerId, seq<Job>>, claims: map<Uuid, seq<ClaimRecord>>)

  /** How a statement ended for its caller: done and acknowledged, done but the reply was lost, not done. */
  datatype Outcome = Acked | ReplyLost | Refused

  /** readAt is what time.Now() returned to the caller before its statement, now is NOW() inside it. */
  datatype Step =
    | Tick(elapsed: nat)
    | Enqueue(id: Uuid, jobType: JobType, resource: Uuid, key: string, maxAttempts: nat, readAt: Time)
    | Claim(worker: WorkerId, batchSize: nat, lease: nat, readAt: Time, now: Time, picked: seq<Uuid>, outcome: Outcome)
    | MarkCompleted(worker: WorkerId, outcome: Outcome)
    | MarkFailed(worker: WorkerId, readAt: Time, outcome: Outcome)
    | Abandon(worker: WorkerId)

  const INIT := State(0, map[], map[], map[])

  function Batch(s: State, w: WorkerId): seq<Job> {
    if w in s.batches then s.batches[w] else []
  }

  /** lease is a lower bound on the lease duration of every worker. */
  predicate Enabled(lease: nat, s: State, step: Step) {
    match step
    case Tick(_) => true
    case Enqueue(_, _, _, _, maxAttempts, readAt) => maxAttempts >= 1 && readAt <= s.clock
    case Claim(w, batchSize, l, readAt, now, picked, _) =>
      && Batch(s, w) == [] && batchSize >= 1 && l >= lease
      && readAt <= now <= s.clock
      && Claimable(s.jobs, picked, batchSize, now, readAt - l)
    case MarkCompleted(w, _) => Batch(s, w) != []
    case MarkFailed(w, readAt, _) =>
      && Batch(s, w) != []
      && Batch(s, w)[0].lockedAt.Some?
      && Batch(s, w)[0].lockedAt.value <= readAt <= s.clock
    case Abandon(_) => true
  }

  /** The mark's UPDATE affects one row. */
  predicate MarkHits(s: State, w: WorkerId) {
    && Batch(s, w) != []
    && Batch(s, w)[0].id in s.jobs
    && OwnedBy(s.jobs[Batch(s, w)[0].id], w)
  }

  /** The record of the claim a row is currently under is the last one. */
  function Settle(log: seq<ClaimRecord>, o: ClaimOutcome): seq<ClaimRecord> {
    if log == [] then log else log[|log| - 1 := log[|log| - 1].(outcome := o)]
  }

  function LogOf(claims: map<Uuid, seq<ClaimRecord>>, id: Uuid): seq<ClaimRecord> {
    if id in claims then claims[id] else []
  }

  function Log(s: State, id: Uuid): seq<ClaimRecord> { LogOf(s.claims, id) }

  function RecordClaims(claims: map<Uuid, seq<ClaimRecord>>, t: Table, picked: seq<Uuid>, c: ClaimRecord)
    : map<Uuid, seq<ClaimRecord>>
  {
    map id | id in t :: if id in picked then LogOf(claims, id) + [c] else LogOf(claims, id)
  }

  function AfterEnqueue(s: State, row: Job): State {
    var jobs := EnqueueRow(s.jobs, row);
    s.(jobs := jobs, claims := if row.id in s.jobs || row.id !in jobs then s.claims else s.claims[row.id := []])
  }

  /** The rows RETURNING hands to the worker. */
  function Returned(t: Table, picked: seq<Uuid>): (b: seq<Job>)
    requires forall id <- picked :: id in t
    ensures |b| == |picked| && forall i :: 0 <= i < |b| ==> b[i] == t[picked[i]]
  {
    seq(|picked|, i requires 0 <= i < |picked| => t[picked[i]])
  }

  function AfterClaim(s: State, w: WorkerId, picked: seq<Uuid>, now: Time, acked: bool): State
    requires forall id <- picked :: id in s.jobs
  {
    var jobs := ClaimRows(s.jobs, picked, w, now);
    s.(jobs := jobs,
       batches := s.batches[w := if acked then Returned(jobs, picked) else []],
       claims := RecordClaims(s.claims, s.jobs, picked, ClaimRecord(w, now, Open)))
  }

  /** MarkJobCompleted and MarkJobFailed: row is the new row, o the outcome recorded in the history.
      The batch advances only on an acknowledged mark of exactly one row; otherwise runOnce returns. */
  function AfterMark(s: State, w: WorkerId, row: Job, o: ClaimOutcome, outcome: Outcome): State
    requires Batch(s, w) != []
  {
    var id := Batch(s, w)[0].id;
    var hit := outcome != Refused && MarkHits(s, w);
    s.(jobs := if hit then s.jobs[id := row] else s.jobs,
       claims := if hit then s.claims[id := Settle(Log(s, id), o)] else s.claims,
       batches := s.batches[w := if hit && outcome == Acked then Batch(s, w)[1..] else []])
  }

  /** The new row each mark would write for the handle at the head of w's batch. */
  function SuccessRow(s: State, w: WorkerId): Job
    requires Batch(s, w) != []
  {
    var h := Batch(s, w)[0];
    if h.id in s.jobs then CompletedRow(s.jobs[h.id], s.clock) else h
  }

  function FailureRow(s: State, w: WorkerId, readAt: Time): Job
    requires Batch(s, w) != []
  {
    var h := Batch(s, w)[0];
    if h.id in s.jobs then FailedRow(s.jobs[h.id], readAt + Backoff(h.attempts), readAt) else h
  }

  function Next(lease: nat, s: State, step: Step): State
    requires Enabled(lease, s, step)
  {
    match step
    case Tick(elapsed) => s.(clock := s.clock + elapsed)
    case Enqueue(id, jobType, resource, key, maxAttempts, readAt) =>
      AfterEnqueue(s, NewRow(id, jobType, resource, key, maxAttempts, readAt))
    case Claim(w, _, _, _, now, picked, outcome) =>
      if outcome == Refused then s else AfterClaim(s, w, picked, now, outcome == Acked)
    case MarkCompleted(w, outcome) => AfterMark(s, w, SuccessRow(s, w), Succeeded, outcome)
    case MarkFailed(w, readAt, outcome) => AfterMark(s, w, FailureRow(s, w, readAt), FailedAt(readAt), outcome)
    case Abandon(w) => s.(batches := s.batches[w := []])
  }

  /** A step that is not enabled is skipped, so every sequence of steps is a run. */
  function Do(lease: nat, s: State, step: Step): State {
    if Enabled(lease, s, step) then Next(lease, s, step) else s
  }

  function Run(lease: nat, s: State, steps: seq<Step>): State {
    if steps == [] then s else Do(lease, Run(lease, s, steps[..|steps| - 1]), steps[|steps| - 1])
  }

  lemma {:induction false} RunConcat(lease: nat, s: State, a: seq<Step>, b: seq<Step>)
    ensures Run(lease, s, a + b) == Run(lease, Run(lease, s, a), b)
  {
    if b == [] {
      assert a + b == a;
    } else {
      assert (a + b)[..|a + b| - 1] == a + b[..|b| - 1];
      RunConcat(lease, s, a, b[..|b| - 1]);
    }
  }

  lemma RunOne(lease: nat, s: State, a: seq<Step>, step: Step)
    ensures Run(lease, s, a + [step]) == Do(lease, Run(lease, s, a), step)
  {
    assert (a + [step])[..|a|] == a;
  }

  // ----- The invariant -----

  /** Two consecutive claims, the first being attempt a: it was never settled and its lease ran out, or
      its recorded failure was backed off. A claim that succeeded is the last one. */
  predicate Spaced(lease: nat, x: ClaimRecord, y: ClaimRecord, a: nat) {
    match x.outcome
    case Open => x.at + lease < y.at
    case FailedAt(t) => x.at <= t && t + Backoff(a) <= y.at
    case Succeeded => false
  }

  predicate LogOk(lease: nat, log: seq<ClaimRecord>) {
    forall i :: 1 <= i < |log| ==> Spaced(lease, log[i - 1], log[i], i)
  }

  /** The shape of a stored row, tied to the history of its claims. */
  predicate RowOk(r: Job, log: seq<ClaimRecord>, clock: Time) {
    && r.jobType == ServiceEvaluation
    && 1 <= r.maxAttempts
    && |log| == r.attempts <= r.maxAttempts
    && (r.status == Pending <==> r.attempts == 0)
    && (r.status == Processing <==> r.lockedAt.Some?)
    && (r.status == Processing <==> r.lockOwner.Some?)
    && (r.attempts > 0 ==>
          var last := log[|log| - 1];
          && last.at <= clock
          && (r.status == Processing ==>
                last == ClaimRecord(r.lockOwner.value, r.lockedAt.value, Open) && r.availableAt <= last.at)
          && (r.status == JobStatus.Completed ==> last.outcome == Succeeded)
          && (r.status == JobStatus.Failed ==>
                && last.outcome.FailedAt? && last.at <= last.outcome.at <= clock
                && r.availableAt == last.outcome.at + Backoff(r.attempts)))
  }

  predicate JobOk(lease: nat, r: Job, log: seq<ClaimRecord>, clock: Time) {
    RowOk(r, log, clock) && LogOk(lease, log)
  }

  /** A claimed row h still in worker w's batch, against the stored row r of the same job. */
  predicate HandleOk(lease: nat, r: Job, log: seq<ClaimRecord>, clock: Time, w: WorkerId, h: Job) {
    && h.lockOwner == Some(w) && h.lockedAt.Some?
    && h.jobType == r.jobType && h.resourceId == r.resourceId
    && 1 <= h.attempts <= r.attempts
    && h.attempts <= |log| && log[h.attempts - 1] == ClaimRecord(w, h.lockedAt.value, Open)
    && (h.attempts == r.attempts <==> OwnedBy(r, w))
    && (h.attempts < r.attempts ==> h.lockedAt.value + lease < clock)
  }

  predicate HandleIn(lease: nat, s: State, w: WorkerId, h: Job) {
    h.id in s.jobs && HandleOk(lease, s.jobs[h.id], Log(s, h.id), s.clock, w, h)
  }

  predicate DistinctIds(b: seq<Job>) {
    forall i, j :: 0 <= i < j < |b| ==> b[i].id != b[j].id
  }

  predicate BatchOk(lease: nat, s: State, w: WorkerId, b: seq<Job>) {
    DistinctIds(b) && forall h <- b :: HandleIn(lease, s, w, h)
  }

  predicate TableOk(lease: nat, s: State) {
    && s.claims.Keys == s.jobs.Keys
    && forall id <- s.jobs :: s.jobs[id].id == id && JobOk(lease, s.jobs[id], Log(s, id), s.clock)
  }

  predicate BatchesOk(lease: nat, s: State) {
    forall w <- s.batches :: BatchOk(lease, s, w, s.batches[w])
  }

  predicate Inv(lease: nat, s: State) {
    TableOk(lease, s) && BatchesOk(lease, s) && UniqueKeys(s.jobs)
  }

  // ----- What the statements do to one row and to one handle -----

  lemma ClaimedRowOk(lease: nat, r: Job, log: seq<ClaimRecord>, clock: Time, w: WorkerId, l: nat, readAt: Time, now: Time)
    requires JobOk(lease, r, log, clock)
    requires l >= lease && readAt <= now <= clock && Eligible(r, now, readAt - l)
    ensures JobOk(lease, ClaimedRow(r, w, now), log + [ClaimRecord(w, now, Open)], clock)
  {
    var log' := log + [ClaimRecord(w, now, Open)];
    forall i | 1 <= i < |log'| ensures Spaced(lease, log'[i - 1], log'[i], i) {
      if i < |log| { assert Spaced(lease, log[i - 1], log[i], i); }
    }
  }

  lemma ClaimedHandleOk(lease: nat, r: Job, log: seq<ClaimRecord>, clock: Time, w: WorkerId, now: Time)
    requires JobOk(lease, r, log, clock)
    ensures HandleOk(lease, ClaimedRow(r, w, now), log + [ClaimRecord(w, now, Open)], clock, w, ClaimedRow(r, w, now))
  {}

  /** Another worker's claim takes the row away from a handle only after the handle's lease is over. */
  lemma OvertakenHandleOk(lease: nat, r: Job, log: seq<ClaimRecord>, clock: Time, w: WorkerId, l: nat, readAt: Time, now: Time,
                          v: WorkerId, h: Job)
    requires JobOk(lease, r, log, clock) && HandleOk(lease, r, log, clock, v, h) && v != w
    requires l >= lease && readAt <= now <= clock && Eligible(r, now, readAt - l)
    ensures HandleOk(lease, ClaimedRow(r, w, now), log + [ClaimRecord(w, now, Open)], clock, v, h)
  {}

  lemma MarkedRowOk(lease: nat, r: Job, log: seq<ClaimRecord>, clock: Time, row: Job, o: ClaimOutcome)
    requires JobOk(lease, r, log, clock) && r.status == Processing
    requires o == Succeeded || (o.FailedAt? && r.lockedAt.value <= o.at <= clock)
    requires o == Succeeded ==> row == CompletedRow(r, clock)
    requires o.FailedAt? ==> row == FailedRow(r, o.at + Backoff(r.attempts), o.at)
    ensures JobOk(lease, row, Settle(log, o), clock)
  {
    forall i | 1 <= i < |log| ensures Spaced(lease, Settle(log, o)[i - 1], Settle(log, o)[i], i) {
      assert Spaced(lease, log[i - 1], log[i], i);
    }
  }

  lemma BystanderHandleOk(lease: nat, r: Job, log: seq<ClaimRecord>, clock: Time, row: Job, o: ClaimOutcome,
                          w: WorkerId, v: WorkerId, h: Job)
    requires JobOk(lease, r, log, clock) && HandleOk(lease, r, log, clock, v, h) && OwnedBy(r, w) && v != w
    requires row.status != Processing && row.attempts == r.attempts && row.jobType == r.jobType && row.resourceId == r.resourceId
    ensures HandleOk(lease, row, Settle(log, o), clock, v, h)
  {}

  // ----- What a step does to the whole state -----

  lemma EnqueueKeepsTable(lease: nat, s: State, row: Job)
    requires TableOk(lease, s) && row.maxAttempts >= 1
    requires row == NewRow(row.id, row.jobType, row.resourceId, row.key, row.maxAttempts, row.createdAt)
    ensures TableOk(lease, AfterEnqueue(s, row))
  {
    var s' := AfterEnqueue(s, row);
    forall id | id in s'.jobs ensures s'.jobs[id].id == id && JobOk(lease, s'.jobs[id], Log(s', id), s'.clock) {
      if id in s.jobs { assert JobOk(lease, s.jobs[id], Log(s, id), s.clock); }
    }
  }

  /** An enqueue leaves every stored row alone but for updated_at. */
  lemma EnqueueKeepsRows(t: Table, row: Job, id: Uuid)
    requires id in t
    ensures id in EnqueueRow(t, row) && EnqueueRow(t, row)[id] == t[id].(updatedAt := EnqueueRow(t, row)[id].updatedAt)
  {}

  lemma EnqueueKeepsUniqueKeys(t: Table, row: Job)
    requires UniqueKeys(t)
    ensures UniqueKeys(EnqueueRow(t, row))
  {
    var t' := EnqueueRow(t, row);
    forall a, b | a in t' && b in t' && HasKey(t'[a], t'[b].jobType, t'[b].key) ensures a == b {
      if a in t && b in t {
        EnqueueKeepsRows(t, row, a);
        EnqueueKeepsRows(t, row, b);
        assert HasKey(t[a], t[b].jobType, t[b].key);
      }
    }
  }

  lemma EnqueueKeepsInv(lease: nat, s: State, row: Job)
    requires Inv(lease, s) && row.maxAttempts >= 1
    requires row == NewRow(row.id, row.jobType, row.resourceId, row.key, row.maxAttempts, row.createdAt)
    ensures Inv(lease, AfterEnqueue(s, row))
  {
    var s' := AfterEnqueue(s, row);
    EnqueueKeepsTable(lease, s, row);
    EnqueueKeepsUniqueKeys(s.jobs, row);
    forall w, h | w in s'.batches && h in s'.batches[w] ensures HandleIn(lease, s', w, h) {
      assert HandleIn(lease, s, w, h);
      EnqueueKeepsRows(s.jobs, row, h.id);
    }
  }

  lemma ClaimKeepsTable(lease: nat, s: State, step: Step)
    requires TableOk(lease, s) && step.Claim? && Enabled(lease, s, step)
    ensures TableOk(lease, AfterClaim(s, step.worker, step.picked, step.now, step.outcome == Acked))
  {
    var s' := AfterClaim(s, step.worker, step.picked, step.now, step.outcome == Acked);
    forall id | id in s'.jobs ensures s'.jobs[id].id == id && JobOk(lease, s'.jobs[id], Log(s', id), s'.clock) {
      if id in step.picked {
        ClaimedRowOk(lease, s.jobs[id], Log(s, id), s.clock, step.worker, step.lease, step.readAt, step.now);
      }
    }
  }

  lemma ClaimKeepsHandle(lease: nat, s: State, step: Step, v: WorkerId, h: Job)
    requires TableOk(lease, s) && step.Claim? && Enabled(lease, s, step)
    requires v != step.worker && HandleIn(lease, s, v, h)
    ensures HandleIn(lease, AfterClaim(s, step.worker, step.picked, step.now, step.outcome == Acked), v, h)
  {
    if h.id in step.picked {
      OvertakenHandleOk(lease, s.jobs[h.id], Log(s, h.id), s.clock, step.worker, step.lease, step.readAt, step.now, v, h);
    }
  }

  lemma ClaimFillsBatch(lease: nat, s: State, step: Step)
    requires TableOk(lease, s) && step.Claim? && Enabled(lease, s, step)
    ensures var s' := AfterClaim(s, step.worker, step.picked, step.now, step.outcome == Acked);
            BatchOk(lease, s', step.worker, s'.batches[step.worker])
  {
    var s' := AfterClaim(s, step.worker, step.picked, step.now, step.outcome == Acked);
    var b := s'.batches[step.worker];
    forall i | 0 <= i < |b|
      ensures b[i].id == step.picked[i] && HandleIn(lease, s', step.worker, b[i])
    {
      var id := step.picked[i];
      ClaimedHandleOk(lease, s.jobs[id], Log(s, id), s.clock, step.worker, step.now);
    }
  }

  lemma ClaimKeepsInv(lease: nat, s: State, step: Step)
    requires Inv(lease, s) && step.Claim? && Enabled(lease, s, step)
    ensures Inv(lease, AfterClaim(s, step.worker, step.picked, step.now, step.outcome == Acked))
  {
    var s' := AfterClaim(s, step.worker, step.picked, step.now, step.outcome == Acked);
    ClaimKeepsTable(lease, s, step);
    forall v | v in s'.batches ensures BatchOk(lease, s', v, s'.batches[v]) {
      if v == step.worker {
        ClaimFillsBatch(lease, s, step);
      } else {
        assert BatchOk(lease, s, v, s.batches[v]);
        forall h | h in s.batches[v] ensures HandleIn(lease, s', v, h) { ClaimKeepsHandle(lease, s, step, v, h); }
      }
    }
  }

  /** row and o are what a mark by w writes over the row of its handle h. */
  predicate MarkWrites(s: State, h: Job, row: Job, o: ClaimOutcome)
    requires h.id in s.jobs
  {
    var r := s.jobs[h.id];
    || (o == Succeeded && row == CompletedRow(r, s.clock))
    || (o.FailedAt? && r.lockedAt.Some? && r.lockedAt.value <= o.at <= s.clock
        && row == FailedRow(r, o.at + Backoff(r.attempts), o.at))
  }

  lemma MarkKeepsTable(lease: nat, s: State, w: WorkerId, row: Job, o: ClaimOutcome, outcome: Outcome)
    requires TableOk(lease, s) && Batch(s, w) != []
    requires MarkHits(s, w) ==> MarkWrites(s, Batch(s, w)[0], row, o)
    ensures TableOk(lease, AfterMark(s, w, row, o, outcome))
  {
    var h := Batch(s, w)[0];
    if MarkHits(s, w) { MarkedRowOk(lease, s.jobs[h.id], Log(s, h.id), s.clock, row, o); }
  }

  lemma MarkKeepsHandle(lease: nat, s: State, w: WorkerId, row: Job, o: ClaimOutcome, outcome: Outcome, v: WorkerId, h: Job)
    requires TableOk(lease, s) && Batch(s, w) != [] && HandleIn(lease, s, v, h)
    requires MarkHits(s, w) ==> MarkWrites(s, Batch(s, w)[0], row, o)
    requires v != w || h.id != Batch(s, w)[0].id
    ensures HandleIn(lease, AfterMark(s, w, row, o, outcome), v, h)
  {
    if h.id == Batch(s, w)[0].id && MarkHits(s, w) {
      BystanderHandleOk(lease, s.jobs[h.id], Log(s, h.id), s.clock, row, o, w, v, h);
    }
  }

  lemma MarkKeepsInv(lease: nat, s: State, w: WorkerId, row: Job, o: ClaimOutcome, outcome: Outcome)
    requires Inv(lease, s) && Batch(s, w) != []
    requires MarkHits(s, w) ==> MarkWrites(s, Batch(s, w)[0], row, o)
    ensures Inv(lease, AfterMark(s, w, row, o, outcome))
  {
    var s' := AfterMark(s, w, row, o, outcome);
    MarkKeepsTable(lease, s, w, row, o, outcome);
    forall v | v in s'.batches ensures BatchOk(lease, s', v, s'.batches[v]) {
      assert BatchOk(lease, s, v, s.batches[v]);
      forall h | h in s'.batches[v] ensures HandleIn(lease, s', v, h) {
        MarkKeepsHandle(lease, s, w, row, o, outcome, v, h);
      }
    }
  }

  lemma TickKeepsInv(lease: nat, s: State, elapsed: nat)
    requires Inv(lease, s)
    ensures Inv(lease, s.(clock := s.clock + elapsed))
  {
    var s' := s.(clock := s.clock + elapsed);
    forall w, h | w in s'.batches && h in s'.batches[w] ensures HandleIn(lease, s', w, h) {
      assert HandleIn(lease, s, w, h);
    }
  }

  lemma AbandonKeepsInv(lease: nat, s: State, w: WorkerId)
    requires Inv(lease, s)
    ensures Inv(lease, s.(batches := s.batches[w := []]))
  {
    var s' := s.(batches := s.batches[w := []]);
    forall v, h | v in s'.batches && h in s'.batches[v] ensures HandleIn(lease, s', v, h) {
      assert v in s.batches && HandleIn(lease, s, v, h);
    }
  }

  /** The handle being processed, and the row it was issued for. */
  lemma HeadOk(lease: nat, s: State, w: WorkerId)
    requires TableOk(lease, s) && BatchesOk(lease, s) && Batch(s, w) != []
    ensures HandleIn(lease, s, w, Batch(s, w)[0])
    ensures JobOk(lease, s.jobs[Batch(s, w)[0].id], Log(s, Batch(s, w)[0].id), s.clock)
  {
    assert BatchOk(lease, s, w, s.batches[w]);
  }

  /** Owner-only fencing: whenever the guard lets a mark through, the row is still under the very claim
      that issued the handle, and its history record is that claim, not yet settled. The guard never
      looks at the attempt. */
  lemma MarkHitSettlesOwnClaim(lease: nat, s: State, w: WorkerId)
    requires Inv(lease, s) && MarkHits(s, w)
    ensures var h := Batch(s, w)[0];
      && s.jobs[h.id].attempts == h.attempts == |Log(s, h.id)|
      && s.jobs[h.id].lockedAt == h.lockedAt && h.lockedAt.Some?
      && Log(s, h.id)[h.attempts - 1] == ClaimRecord(w, h.lockedAt.value, Open)
  {
    HeadOk(lease, s, w);
  }

  lemma FailureWrites(lease: nat, s: State, w: WorkerId, readAt: Time)
    requires Inv(lease, s) && MarkHits(s, w)
    requires Batch(s, w)[0].lockedAt.Some? && Batch(s, w)[0].lockedAt.value <= readAt <= s.clock
    ensures MarkWrites(s, Batch(s, w)[0], FailureRow(s, w, readAt), FailedAt(readAt))
  {
    MarkHitSettlesOwnClaim(lease, s, w);
  }

  lemma StepKeepsInv(lease: nat, s: State, step: Step)
    requires Inv(lease, s)
    ensures Inv(lease, Do(lease, s, step))
  {
    if Enabled(lease, s, step) {
      match step
      case Tick(elapsed) => TickKeepsInv(lease, s, elapsed);
      case Enqueue(id, jobType, resource, key, maxAttempts, readAt) =>
        EnqueueKeepsInv(lease, s, NewRow(id, jobType, resource, key, maxAttempts, readAt));
      case Claim(_, _, _, _, _, _, outcome) =>
        if outcome != Refused { ClaimKeepsInv(lease, s, step); }
      case MarkCompleted(w, outcome) => MarkKeepsInv(lease, s, w, SuccessRow(s, w), Succeeded, outcome);
      case MarkFailed(w, readAt, outcome) =>
        if MarkHits(s, w) { FailureWrites(lease, s, w, readAt); }
        MarkKeepsInv(lease, s, w, FailureRow(s, w, readAt), FailedAt(readAt), outcome);
      case Abandon(w) => AbandonKeepsInv(lease, s, w);
    }
  }

  lemma {:induction false} RunKeepsInv(lease: nat, s: State, steps: seq<Step>)
    requires Inv(lease, s)
    ensures Inv(lease, Run(lease, s, steps))
  {
    if steps != [] {
      RunKeepsInv(lease, s, steps[..|steps| - 1]);
      StepKeepsInv(lease, Run(lease, s, steps[..|steps| - 1]), steps[|steps| - 1]);
    }
  }
}
