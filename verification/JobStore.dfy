/** The jobs half of the store as an object whose methods are the SQL statements of jobs.go and EnqueueJob. */
module JobStore {
  import opened Wrappers
  import opened Jobs
  import opened Queue
  import opened QueueSafety

  class Store {
    var clock: Time
    var jobs: Table
    /** The claimed rows each worker process still holds in memory. */
    var batches: map<WorkerId, seq<Job>>
    /** History. */
    ghost var claims: map<Uuid, seq<ClaimRecord>>

    ghost function St(): State
      reads this
    {
      State(clock, jobs, batches, claims)
    }

    constructor ()
      ensures St() == INIT
    {
      clock, jobs, batches, claims := 0, map[], map[], map[];
    }

    /** What another process leaves. */
    method Become(s: State, ghost history: map<Uuid, seq<ClaimRecord>>)
      modifies this
      ensures St() == s.(claims := history)
    {
      clock, jobs, batches, claims := s.clock, s.jobs, s.batches, history;
    }

    // ----- jobs.go -----

    /** ORDER BY available_at ASC, created_at ASC: the first of ids, any of them on a tie. */
    method First(ids: set<Uuid>) returns (first: Uuid)
      requires ids != {} && forall id <- ids :: id in jobs
      ensures first in ids && forall id <- ids :: NotAfter(jobs[first], jobs[id])
    {
      first :| first in ids;
      var rest := ids - {first};
      while rest != {}
        invariant first in ids && rest <= ids
        invariant forall id <- ids - rest :: NotAfter(jobs[first], jobs[id])
      {
        var id :| id in rest;
        if !NotAfter(jobs[first], jobs[id]) { first := id; }
        rest := rest - {id};
      }
    }

    /** The candidate rows: WHERE, ORDER BY, LIMIT and SKIP LOCKED, which does not see the rows other claims
        hold. */
    method SelectCandidates(batchSize: nat, expiredBefore: int, locked: set<Uuid>) returns (picked: seq<Uuid>)
      ensures InOrderAmong(jobs, locked, picked, batchSize, clock, expiredBefore)
    {
      var visible := jobs - locked;
      var remaining := EligibleIds(visible, clock, expiredBefore);
      picked := [];
      while |picked| < batchSize && remaining != {}
        invariant Distinct(picked) && |picked| <= batchSize
        invariant Elements(picked) !! remaining
        invariant Elements(picked) + remaining == EligibleIds(visible, clock, expiredBefore)
        invariant forall p <- picked :: p in Elements(picked) && p in visible
        invariant forall p <- picked, id <- remaining :: NotAfter(visible[p], visible[id])
        decreases remaining
      {
        var next := First(remaining);
        assert next !in Elements(picked);
        assert Elements(picked + [next]) == Elements(picked) + {next};
        picked := picked + [next];
        remaining := remaining - {next};
      }
      assert forall p <- picked :: p in Elements(picked);
      forall id | id in visible && Eligible(visible[id], clock, expiredBefore) && id !in picked
        ensures id in remaining
      {
        assert id in EligibleIds(visible, clock, expiredBefore) && id !in Elements(picked);
      }
    }

    /** Claims up to batchSize rows for w. Ok carries the rows in the order RETURNING lists them, which
        SQL leaves open. */
    method ClaimJobs(w: WorkerId, batchSize: nat, lease: nat, readAt: Time, locked: set<Uuid>, outcome: Outcome)
      returns (r: Result<seq<Job>, StoreError>, ghost picked: seq<Uuid>)
      modifies this`jobs, this`claims
      ensures InOrderAmong(old(jobs), locked, picked, batchSize, clock, readAt - lease)
      ensures if outcome == Refused then St() == old(St())
              else St() == AfterClaim(old(St()), w, picked, clock, true).(batches := batches)
      ensures r == if outcome == Acked then Ok(Returned(jobs, picked)) else Err(Unavailable)
      // Column by column, what the rows taken and what all other rows become.
      ensures outcome != Refused ==> jobs.Keys == old(jobs).Keys && forall id <- old(jobs) ::
                jobs[id] == if id !in picked then old(jobs)[id]
                            else old(jobs)[id].(status := Processing, lockedAt := Some(clock), lockOwner := Some(w),
                                                attempts := old(jobs)[id].attempts + 1, updatedAt := clock)
    {
      var expiredBefore := readAt - lease;
      var candidates := SelectCandidates(batchSize, expiredBefore, locked);
      picked := candidates;
      if outcome == Refused { return Err(Unavailable), picked; }
      ghost var before := jobs;
      var order, rows := UpdateRows(candidates, w);
      claims := RecordClaims(claims, before, order, ClaimRecord(w, clock, Open));
      picked := order;
      return if outcome == Acked then Ok(rows) else Err(Unavailable), order;
    }

    /** UPDATE ... RETURNING: visits the selected rows in some order. */
    method UpdateRows(candidates: seq<Uuid>, w: WorkerId) returns (order: seq<Uuid>, rows: seq<Job>)
      requires Distinct(candidates) && forall id <- candidates :: id in jobs
      modifies this`jobs
      ensures Distinct(order) && |order| == |candidates| && forall id :: id in order <==> id in candidates
      ensures jobs == ClaimRows(old(jobs), order, w, clock)
      ensures rows == Returned(jobs, order)
    {
      order, rows := [], [];
      var todo := Elements(candidates);
      while todo != {}
        invariant Distinct(order) && Elements(order) !! todo && Elements(order) + todo == Elements(candidates)
        invariant forall id <- order :: id in old(jobs)
        invariant jobs == ClaimRows(old(jobs), order, w, clock)
        invariant rows == Returned(jobs, order)
        decreases todo
      {
        var id :| id in todo;
        assert id !in order by { assert id !in Elements(order); }
        assert id in candidates by { assert id in Elements(candidates); }
        jobs := jobs[id := ClaimedRow(jobs[id], w, clock)];
        assert jobs == ClaimRows(old(jobs), order + [id], w, clock);
        assert Elements(order + [id]) == Elements(order) + {id};
        rows := rows + [jobs[id]];
        order := order + [id];
        todo := todo - {id};
      }
      SameElements(order, candidates);
    }

    method MarkJobCompleted(id: Uuid, w: WorkerId, outcome: Outcome) returns (r: Result<(), StoreError>)
      modifies this`jobs, this`claims
      ensures var hit := outcome != Refused && id in old(jobs) && OwnedBy(old(jobs)[id], w);
        && jobs == (if hit then old(jobs)[id := CompletedRow(old(jobs)[id], clock)] else old(jobs))
        && claims == (if hit then old(claims)[id := Settle(Log(old(St()), id), Succeeded)] else old(claims))
        && r == (if outcome != Acked then Err(Unavailable) else if hit then Ok(()) else Err(StateConflict))
    {
      if outcome == Refused { return Err(Unavailable); }
      var affected := 0;
      if id in jobs && OwnedBy(jobs[id], w) {
        claims := claims[id := Settle(Log(St(), id), Succeeded)];
        jobs := jobs[id := CompletedRow(jobs[id], clock)];
        affected := 1;
      }
      if outcome == ReplyLost { return Err(Unavailable); }
      if affected != 1 { return Err(StateConflict); }
      return Ok(());
    }

    /** The guard names the owner recorded in the handle. */
    method MarkJobFailed(job: Job, readAt: Time, outcome: Outcome) returns (r: Result<(), StoreError>)
      modifies this`jobs, this`claims
      ensures var hit := outcome != Refused && job.id in old(jobs) && job.lockOwner.Some?
                         && OwnedBy(old(jobs)[job.id], job.lockOwner.value);
        && jobs == (if hit then old(jobs)[job.id := FailedRow(old(jobs)[job.id], readAt + Backoff(job.attempts), readAt)]
                    else old(jobs))
        && claims == (if hit then old(claims)[job.id := Settle(Log(old(St()), job.id), FailedAt(readAt))] else old(claims))
        && r == (if outcome != Acked then Err(Unavailable) else if hit then Ok(()) else Err(StateConflict))
    {
      var backoff := Pow2(Min(job.attempts, 6)) * SECOND;
      if backoff > MINUTE { backoff := MINUTE; }
      if outcome == Refused { return Err(Unavailable); }
      var affected := 0;
      if job.id in jobs && job.lockOwner.Some? && OwnedBy(jobs[job.id], job.lockOwner.value) {
        claims := claims[job.id := Settle(Log(St(), job.id), FailedAt(readAt))];
        jobs := jobs[job.id := FailedRow(jobs[job.id], readAt + backoff, readAt)];
        affected := 1;
      }
      if outcome == ReplyLost { return Err(Unavailable); }
      if affected != 1 { return Err(StateConflict); }
      return Ok(());
    }

    // ----- services.go -----

    /** Inserts the job, or touches the one that holds its key, and answers with the stored row. */
    method EnqueueJob(row: Job) returns (r: Result<Job, StoreError>)
      modifies this`jobs, this`claims
      ensures St() == AfterEnqueue(old(St()), row)
      ensures r.Err? <==> row.jobType != ServiceEvaluation
                          || (row.id in old(jobs) && !KeyTaken(old(jobs), row.jobType, row.key))
      ensures r.Err? ==> jobs == old(jobs) && r.error == ConstraintViolation
      ensures r.Ok? ==> HasKey(r.value, row.jobType, row.key) && exists id <- jobs :: jobs[id] == r.value
    {
      if row.jobType != ServiceEvaluation { return Err(ConstraintViolation); }
      var conflicts := set id | id in jobs && HasKey(jobs[id], row.jobType, row.key);
      if conflicts == {} {
        assert forall id :: id in jobs && HasKey(jobs[id], row.jobType, row.key) ==> id in conflicts;
        if row.id in jobs { return Err(ConstraintViolation); }
        jobs, claims := jobs[row.id := row], claims[row.id := []];
        return Ok(jobs[row.id]);
      }
      var holder :| holder in conflicts;
      assert KeyTaken(old(jobs), row.jobType, row.key);
      var todo := conflicts;
      while todo != {}
        invariant todo <= conflicts && claims == old(claims)
        invariant jobs == map id | id in old(jobs) ::
                    if id in conflicts && id !in todo then old(jobs)[id].(updatedAt := row.updatedAt) else old(jobs)[id]
        decreases todo
      {
        var id :| id in todo;
        jobs := jobs[id := jobs[id].(updatedAt := row.updatedAt)];
        todo := todo - {id};
      }
      assert jobs == TouchKey(old(jobs), row.jobType, row.key, row.updatedAt);
      return Ok(jobs[holder]);
    }

    // ----- What the worker makes of the answers -----

    /** The claim of runOnce: the rows returned become the worker's batch. */
    method ClaimBatch(w: WorkerId, batchSize: nat, lease: nat, fleetLease: nat, readAt: Time, locked: set<Uuid>, outcome: Outcome)
      returns (r: Result<seq<Job>, StoreError>, ghost step: Step)
      requires Batch(St(), w) == [] && batchSize >= 1 && lease >= fleetLease && readAt <= clock
      modifies this
      ensures step.Claim? && step == Step.Claim(w, batchSize, lease, readAt, clock, step.picked, outcome)
      ensures InOrderAmong(old(jobs), locked, step.picked, batchSize, clock, readAt - lease)
      ensures Enabled(fleetLease, old(St()), step) && St() == Do(fleetLease, old(St()), step)
      ensures r.Ok? <==> outcome == Acked
      ensures r.Err? ==> r.error == Unavailable
      ensures Batch(St(), w) == if r.Ok? then r.value else []
    {
      ghost var picked;
      r, picked := ClaimJobs(w, batchSize, lease, readAt, locked, outcome);
      step := Step.Claim(w, batchSize, lease, readAt, clock, picked, outcome);
      if outcome != Refused {
        batches := batches[w := if r.Ok? then r.value else []];
      }
    }

    /** The mark of the handle at the head of the batch, after which the loop moves on or returns. */
    method MarkHead(w: WorkerId, h: Job, readAt: Time, succeeded: bool, outcome: Outcome)
      returns (failure: Option<StoreError>)
      requires Batch(St(), w) != [] && h == Batch(St(), w)[0] && h.id in jobs && h.lockOwner == Some(w)
      modifies this
      ensures St() == Marked(old(St()), w, readAt, succeeded, outcome)
      ensures failure == if outcome != Acked then Some(Unavailable)
                         else if MarkHits(old(St()), w) then None
                         else Some(StateConflict)
    {
      var r;
      if succeeded {
        r := MarkJobCompleted(h.id, w, outcome);
      } else {
        r := MarkJobFailed(h, readAt, outcome);
      }
      batches := batches[w := if r.Ok? then batches[w][1..] else []];
      failure := if r.Ok? then None else Some(r.error);
    }
  }

  lemma SameElements(a: seq<Uuid>, b: seq<Uuid>)
    requires Distinct(a) && Distinct(b) && Elements(a) == Elements(b)
    ensures |a| == |b| && forall x :: x in a <==> x in b
  {
    DistinctSize(a);
    DistinctSize(b);
    forall x ensures x in a <==> x in b {
      assert x in a <==> x in Elements(a);
      assert x in b <==> x in Elements(b);
    }
  }
}
