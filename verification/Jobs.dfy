/** One row of the jobs table, and what each SQL statement of internal/postgres/jobs.go
    and of EnqueueJob does to the table, as functions on its value. */
module Jobs {
  import opened Wrappers

  type Uuid = nat
  type WorkerId = nat

  /** Microseconds on one monotone clock. */
  type Time = nat

  const SECOND: nat := 1_000_000
  const MINUTE: nat := 60 * SECOND

  datatype JobStatus = Pending | Processing | Completed | Failed

  /** The schema admits one type only; the worker still has a branch for the others. */
  datatype JobType = ServiceEvaluation | UnsupportedType(name: string)

  /** lockOwner is None for both NULL (fresh row) and '' (released row): neither equals a worker id. */
  datatype Job = Job(
    id: Uuid, jobType: JobType, resourceId: Uuid, status: JobStatus, key: string,
    attempts: nat, maxAttempts: nat, availableAt: Time,
    lockedAt: Option<Time>, lockOwner: Option<WorkerId>, createdAt: Time, updatedAt: Time)

  type Table = map<Uuid, Job>

  // ----- ClaimJobs -----

  /** The WHERE clause of the claim. expiredBefore may precede the epoch. */
  predicate Eligible(r: Job, now: Time, expiredBefore: int) {
    && r.attempts < r.maxAttempts
    && (|| ((r.status == Pending || r.status == Failed) && r.availableAt <= now)
        || (r.status == Processing && r.lockedAt.Some? && r.lockedAt.value < expiredBefore))
  }

  /** ORDER BY available_at ASC, created_at ASC: a does not sort after b. */
  predicate NotAfter(a: Job, b: Job) {
    a.availableAt < b.availableAt || (a.availableAt == b.availableAt && a.createdAt <= b.createdAt)
  }

  function ClaimedRow(r: Job, w: WorkerId, now: Time): Job {
    r.(status := Processing, lockedAt := Some(now), lockOwner := Some(w), attempts := r.attempts + 1, updatedAt := now)
  }

  function ClaimRows(t: Table, picked: seq<Uuid>, w: WorkerId, now: Time): Table {
    map id | id in t :: if id in picked then ClaimedRow(t[id], w, now) else t[id]
  }

  predicate Distinct<T(==)>(s: seq<T>) {
    forall i, j :: 0 <= i < j < |s| ==> s[i] != s[j]
  }

  /** A set of rows the claim may take, in whatever order RETURNING lists them. With other claims
      holding row locks SKIP LOCKED may leave out any of the eligible rows. */
  predicate Claimable(t: Table, picked: seq<Uuid>, batchSize: nat, now: Time, expiredBefore: int) {
    && Distinct(picked)
    && |picked| <= batchSize
    && forall id <- picked :: id in t && Eligible(t[id], now, expiredBefore)
  }

  /** What the claim takes when no row is locked: an eligible row is left out only if the batch
      is full and no row taken sorts after it. */
  predicate InOrder(t: Table, picked: seq<Uuid>, batchSize: nat, now: Time, expiredBefore: int) {
    && Claimable(t, picked, batchSize, now, expiredBefore)
    && forall id <- t :: Eligible(t[id], now, expiredBefore) && id !in picked ==>
         |picked| == batchSize && forall p <- picked :: NotAfter(t[p], t[id])
  }

  /** The same among the rows no other claim has locked: SKIP LOCKED does not see the others. */
  predicate InOrderAmong(t: Table, locked: set<Uuid>, picked: seq<Uuid>, batchSize: nat, now: Time, expiredBefore: int) {
    InOrder(t - locked, picked, batchSize, now, expiredBefore)
  }

  function EligibleIds(t: Table, now: Time, expiredBefore: int): set<Uuid> {
    set id | id in t && Eligible(t[id], now, expiredBefore)
  }

  function Elements(s: seq<Uuid>): set<Uuid> { set x | x in s }

  lemma {:induction false} DistinctSize(s: seq<Uuid>)
    requires Distinct(s)
    ensures |Elements(s)| == |s|
  {
    if s != [] {
      var rest := s[..|s| - 1];
      DistinctSize(rest);
      assert Elements(s) == Elements(rest) + {s[|s| - 1]};
    }
  }

  /** A claim in order takes min(batchSize, number of eligible rows that are not locked) rows. */
  lemma InOrderSize(t: Table, locked: set<Uuid>, picked: seq<Uuid>, batchSize: nat, now: Time, expiredBefore: int)
    requires InOrderAmong(t, locked, picked, batchSize, now, expiredBefore)
    ensures |picked| == Min(batchSize, |EligibleIds(t, now, expiredBefore) - locked|)
  {
    var eligible := EligibleIds(t - locked, now, expiredBefore);
    assert eligible == EligibleIds(t, now, expiredBefore) - locked;
    DistinctSize(picked);
    assert Elements(picked) <= eligible;
    SubsetSize(Elements(picked), eligible);
    if |picked| < batchSize { assert Elements(picked) == eligible; }
  }

  lemma SubsetSize(a: set<Uuid>, b: set<Uuid>)
    requires a <= b
    ensures |a| <= |b|
  {
    assert b == a + (b - a);
  }

  /** What a claim in order leaves out: an eligible row that is not locked only if the batch is full, and
      none of its rows became available later, or at the same time and was created later. */
  lemma InOrderSkips(t: Table, locked: set<Uuid>, picked: seq<Uuid>, batchSize: nat, now: Time, expiredBefore: int, p: Uuid,
                     id: Uuid)
    requires InOrderAmong(t, locked, picked, batchSize, now, expiredBefore)
    requires id in t && id !in locked && id !in picked && Eligible(t[id], now, expiredBefore)
    ensures |picked| == batchSize
    ensures p in picked ==>
              && p in t && t[p].availableAt <= t[id].availableAt
              && (t[p].availableAt == t[id].availableAt ==> t[p].createdAt <= t[id].createdAt)
  {
    assert id in t - locked;
  }

  // ----- MarkJobCompleted, MarkJobFailed -----

  /** The guard of both marks: it names the owner and never the attempt. */
  predicate OwnedBy(r: Job, w: WorkerId) {
    r.status == Processing && r.lockOwner == Some(w)
  }

  function CompletedRow(r: Job, now: Time): Job {
    r.(status := Completed, lockedAt := None, lockOwner := None, updatedAt := now)
  }

  function FailedRow(r: Job, availableAt: Time, now: Time): Job {
    r.(status := Failed, lockedAt := None, lockOwner := None, availableAt := availableAt, updatedAt := now)
  }

  function Min(left: int, right: int): int { if left < right then left else right }

  function Pow2(n: nat): nat { if n == 0 then 1 else 2 * Pow2(n - 1) }

  /** min(2^attempts, 60) seconds; the shift itself is capped at 6. */
  function Backoff(attempts: nat): nat {
    Min(Pow2(Min(attempts, 6)) * SECOND, MINUTE)
  }

  lemma BackoffValues(a: nat)
    ensures Backoff(1) == 2 * SECOND && Backoff(2) == 4 * SECOND && Backoff(3) == 8 * SECOND
    ensures Backoff(4) == 16 * SECOND && Backoff(5) == 32 * SECOND
    ensures a >= 6 ==> Backoff(a) == 60 * SECOND
    ensures a >= 1 ==> 2 * SECOND <= Backoff(a) <= MINUTE
  {
    assert Pow2(1) == 2 && Pow2(2) == 4;
    assert Pow2(3) == 8 && Pow2(4) == 16;
    assert Pow2(5) == 32 && Pow2(6) == 64;
  }

  /** The cap on the shift never changes the delay: it is min(2^a, 60) seconds for every attempt. */
  lemma {:induction false} BackoffIsCappedPower(a: nat)
    ensures Backoff(a) == Min(Pow2(a) * SECOND, MINUTE)
  {
    if a > 6 {
      BackoffValues(a);
      Pow2Grows(6, a);
      assert Pow2(6) == 64 by { BackoffPow(); }
    }
  }

  lemma BackoffPow()
    ensures Pow2(6) == 64
  {
    assert Pow2(2) == 4;
    assert Pow2(4) == 16;
  }

  lemma {:induction false} Pow2Grows(a: nat, b: nat)
    requires a <= b
    ensures Pow2(a) <= Pow2(b)
    decreases b
  {
    if a < b { Pow2Grows(a, b - 1); }
  }

  // ----- EnqueueJob -----

  function NewRow(id: Uuid, jobType: JobType, resource: Uuid, key: string, maxAttempts: nat, readAt: Time): Job {
    Job(id, jobType, resource, Pending, key, 0, maxAttempts, readAt, None, None, readAt, readAt)
  }

  predicate HasKey(r: Job, jobType: JobType, key: string) {
    r.jobType == jobType && r.key == key
  }

  predicate KeyTaken(t: Table, jobType: JobType, key: string) {
    exists id :: id in t && HasKey(t[id], jobType, key)
  }

  /** The unique index on (type, idempotency_key). */
  predicate UniqueKeys(t: Table) {
    forall a, b :: a in t && b in t && HasKey(t[a], t[b].jobType, t[b].key) ==> a == b
  }

  /** ON CONFLICT (type, idempotency_key) DO UPDATE SET updated_at. */
  function TouchKey(t: Table, jobType: JobType, key: string, now: Time): Table {
    map id | id in t :: if HasKey(t[id], jobType, key) then t[id].(updatedAt := now) else t[id]
  }

  /** The insert, with the type CHECK and the primary key refusing it before anything changes. */
  function EnqueueRow(t: Table, row: Job): Table {
    if row.jobType != ServiceEvaluation then t
    else if KeyTaken(t, row.jobType, row.key) then TouchKey(t, row.jobType, row.key, row.updatedAt)
    else if row.id in t then t
    else t[row.id := row]
  }
}
