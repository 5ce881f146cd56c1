/** The worker of internal/jobs/worker.go: runOnce over the store, with every other process free to act between
    any two statements. */
module WorkerLoop {
  import opened Wrappers
  import opened Jobs
  import Q = Queue
  import opened QueueSafety
  import opened ControlPlane
  import opened Processes
  import Evidence
  import opened Audits
  import JobStore
  import PlaneStore

  /** What happens around a claim or a mark: the actions of others before the caller reads its clock, those
      between that and the statement, the rows other claims hold locked, and how the statement ends. */
  datatype Moment = Moment(before: seq<Action>, during: seq<Action>, locked: set<Uuid>, outcome: Q.Outcome)

  /** What happens around one job of a batch: around the calls of processJob, the id its snapshot gets, and
      around the mark. */
  datatype Turn = Turn(process: nat -> PlaneStore.Pause, snapshotId: Uuid, mark: Moment)

  predicate Others(m: Moment, w: WorkerId) {
    AllForeign(m.before, Caller.Worker(w)) && AllForeign(m.during, Caller.Worker(w))
  }

  ghost predicate OthersInTurn(t: Turn, w: WorkerId) {
    Others(t.mark, w) && forall k :: AllForeign(t.process(k).others, Caller.Worker(w))
  }

  class Worker {
    const id: WorkerId
    const store: PlaneStore.Store
    const batchSize: nat
    const lease: nat

    constructor (id: WorkerId, store: PlaneStore.Store, batchSize: nat, lease: nat)
      ensures this.id == id && this.store == store && this.batchSize == batchSize && this.lease == lease
    {
      this.id, this.store, this.batchSize, this.lease := id, store, batchSize, lease;
    }

    /** Time passes: others act, the worker reads its clock, others act again. */
    method Elapse(c: Config, m: Moment) returns (readAt: Time)
      requires Others(m, id) && Q.Inv(c.lease, store.St().q)
      modifies store, store.queue
      ensures store.St() == Run(c, old(store.St()), m.before + m.during) && Q.Inv(c.lease, store.St().q)
      ensures MemoryOf(store.St(), Caller.Worker(id)) == old(MemoryOf(store.St(), Caller.Worker(id)))
      ensures old(store.queue.clock) <= readAt <= store.queue.clock && readAt == Run(c, old(store.St()), m.before).q.clock
    {
      ghost var s0 := store.St();
      store.Interleave(c, m.before, Caller.Worker(id));
      readAt := store.queue.clock;
      QueueRuns(c, s0, m.before);
      QueueRuns(c, store.St(), m.during);
      store.Interleave(c, m.during, Caller.Worker(id));
      RunConcat(c, s0, m.before, m.during);
    }

    /** The claim: the rows returned become the batch. */
    method Claim(c: Config, readAt: Time, m: Moment) returns (r: Result<seq<Job>, StoreError>, ghost step: Q.Step)
      requires Q.Inv(c.lease, store.St().q) && Batch(store.St(), id) == []
      requires batchSize >= 1 && lease >= c.lease && readAt <= store.queue.clock
      modifies store, store.queue
      ensures ClaimsFor(c, old(store.St()), step, this, m)
      ensures store.St() == Do(c, old(store.St()), Queue(step))
      ensures r.Ok? <==> m.outcome == Q.Acked
      ensures r.Err? ==> r.error == Unavailable
      ensures Batch(store.St(), id) == if r.Ok? then r.value else []
      ensures ProgressOf(store.St(), id).Start?
    {
      ghost var s0 := store.St();
      r, step := store.queue.ClaimBatch(id, batchSize, lease, c.lease, readAt, m.locked, m.outcome);
      DoesQueue(c, s0, step);
      store.Advance(id, Start);
    }

    /** The mark of the handle at the head of the batch, after which the loop moves on or returns. */
    method Mark(c: Config, h: Job, readAt: Time, succeeded: bool, outcome: Q.Outcome) returns (failure: Option<StoreError>)
      requires AtJob(store.St(), id, h) && h.id in store.queue.jobs && h.lockOwner == Some(id)
      requires Q.Enabled(c.lease, store.St().q, MarkOf(id, readAt, succeeded, outcome))
      requires if succeeded then ProgressOf(store.St(), id).ReturnedNil? else ProgressOf(store.St(), id).ReturnedError?
      modifies store, store.queue
      ensures store.St() == Do(c, old(store.St()), Queue(MarkOf(id, readAt, succeeded, outcome)))
      ensures failure == if outcome != Q.Acked then Some(Unavailable)
                         else if Q.MarkHits(old(store.St()).q, id) then None
                         else Some(StateConflict)
    {
      ghost var s0, mark := store.St(), MarkOf(id, readAt, succeeded, outcome);
      failure := store.queue.MarkHead(id, h, readAt, succeeded, outcome);
      DoesQueue(c, s0, mark);
      store.Advance(id, Start);
    }

    /** processJob, with what it leaves as evidence. */
    method Process(c: Config, h: Job, t: Turn) returns (succeeded: bool, ghost trace: seq<Action>)
      requires Reachable(c, store.St())
      requires AtJob(store.St(), id, h) && ProgressOf(store.St(), id).Start? && OthersInTurn(t, id)
      modifies store, store.queue
      ensures store.St() == Run(c, old(store.St()), trace) && AtJob(store.St(), id, h)
      ensures Batch(store.St(), id) == old(Batch(store.St(), id))
      ensures if succeeded then ProgressOf(store.St(), id).ReturnedNil? else ProgressOf(store.St(), id).ReturnedError?
      ensures if succeeded then EvidenceOf(store.St(), h, t.snapshotId) else Excused(store.St(), h, t)
      ensures PlaneStore.Follows(trace, PlaneStore.ProcessCourse(id, t.snapshotId, t.process), succeeded)
    {
      var r;
      ghost var s0, made := store.St(), None;
      r, trace, made := store.ProcessJob(c, id, h, t.snapshotId, t.process);
      if r.Err? { RefusedMeans(c, s0, id, h, t, r.error, store.St()); }
      succeeded := r.Ok?;
    }

    /** Time passes, then the mark. */
    method ElapseAndMark(c: Config, h: Job, succeeded: bool, m: Moment)
      returns (failure: Option<StoreError>, ghost trace: seq<Action>)
      requires Q.Inv(c.lease, store.St().q) && AtJob(store.St(), id, h) && Others(m, id)
      requires if succeeded then ProgressOf(store.St(), id).ReturnedNil? else ProgressOf(store.St(), id).ReturnedError?
      modifies store, store.queue
      ensures store.St() == Run(c, old(store.St()), trace) && Q.Inv(c.lease, store.St().q)
      ensures ProgressOf(store.St(), id).Start?
      ensures failure.None? ==> Batch(store.St(), id) == old(Batch(store.St(), id))[1..]
                                && SettledAs(store.St().q, id, h, succeeded)
      ensures failure.Some? ==> Batch(store.St(), id) == []
      ensures failure.Some? ==> MarkFails(store.St(), h, m, failure.value)
      ensures trace == MarkCourse(c, old(store.St()), id, succeeded, m)
      ensures m.outcome == Q.Acked && WithinLease(c, store.St(), h) ==> failure.None?
    {
      ghost var s0 := store.St();
      LockedInPast(c.lease, s0.q, id);
      var readAt := Elapse(c, m);
      ghost var s1, mark := store.St(), MarkOf(id, readAt, succeeded, m.outcome);
      Q.HeadOk(c.lease, s1.q, id);
      MarkEndsHandle(c.lease, s1.q, id, readAt, succeeded, m.outcome);
      failure := Mark(c, h, readAt, succeeded, m.outcome);
      RunOne(c, s0, m.before + m.during, Queue(mark));
      trace := m.before + m.during + [Queue(mark)];
      DoesQueue(c, s1, mark);
    }

    /** One pass of the batch loop over the handle h at its head: processJob, then the mark. */
    method ProcessAndMark(c: Config, h: Job, t: Turn)
      returns (failure: Option<StoreError>, succeeded: bool, ghost trace: seq<Action>)
      requires Reachable(c, store.St()) && AtJob(store.St(), id, h)
      requires ProgressOf(store.St(), id).Start? && OthersInTurn(t, id)
      modifies store, store.queue
      ensures store.St() == Run(c, old(store.St()), trace) && Reachable(c, store.St())
      ensures ProgressOf(store.St(), id).Start?
      ensures failure.None? ==> Batch(store.St(), id) == old(Batch(store.St(), id))[1..]
                                && Done(store.St(), id, h, succeeded, t)
      ensures failure.Some? ==> Batch(store.St(), id) == [] && MarkFails(store.St(), h, t.mark, failure.value)
      ensures TakesTurn(c, old(store.St()), id, t, succeeded, trace)
      ensures t.mark.outcome == Q.Acked && WithinLease(c, store.St(), h) ==> failure.None?
    {
      ghost var s0 := store.St();
      succeeded, trace := Process(c, h, t);
      ghost var s1 := store.St();
      ReachableOn(c, s0, trace);
      ReachableFacts(c, s1);
      ghost var more;
      failure, more := ElapseAndMark(c, h, succeeded, t.mark);
      RunConcat(c, s0, trace, more);
      ReachableOn(c, s1, more);
      assert TurnInParts(c, s0, id, t, succeeded, trace, more);
      trace := trace + more;
      OutcomeStays(c, s1, more, h, succeeded, t);
    }

    /** One pass of the batch loop, added to what earlier passes have settled. */
    method TakeTurn(c: Config, claimed: seq<Job>, results: seq<bool>, turns: nat -> Turn)
      returns (failure: Option<StoreError>, settled: seq<bool>, ghost turned: bool, ghost trace: seq<Action>)
      requires |results| < |claimed| && AllDone(store.St(), id, claimed, results, turns)
      requires Reachable(c, store.St()) && Batch(store.St(), id) == claimed[|results|..]
      requires ProgressOf(store.St(), id).Start? && OthersInTurn(turns(|results|), id)
      modifies store, store.queue
      ensures store.St() == Run(c, old(store.St()), trace) && Reachable(c, store.St())
      ensures ProgressOf(store.St(), id).Start?
      ensures AllDone(store.St(), id, claimed, settled, turns)
      ensures TakesTurn(c, old(store.St()), id, turns(|results|), turned, trace)
      ensures if failure.None? then settled == results + [turned] && Batch(store.St(), id) == claimed[|settled|..]
              else settled == results && Batch(store.St(), id) == []
                   && MarkFails(store.St(), claimed[|results|], turns(|results|).mark, failure.value)
      ensures turns(|results|).mark.outcome == Q.Acked && WithinLease(c, store.St(), claimed[|results|]) ==> failure.None?
    {
      ghost var s0 := store.St();
      var succeeded;
      failure, succeeded, trace := ProcessAndMark(c, claimed[|results|], turns(|results|));
      turned := succeeded;
      settled := if failure.None? then results + [succeeded] else results;
      SettledOn(c, s0, trace, id, claimed, results, settled, turns);
    }

    /** The loop over a claimed batch; it returns at the first mark that fails. */
    method RunBatch(c: Config, claimed: seq<Job>, turns: nat -> Turn)
      returns (err: Option<StoreError>, results: seq<bool>, ghost turned: seq<bool>, ghost trace: seq<Action>)
      requires Reachable(c, store.St()) && Batch(store.St(), id) == claimed && ProgressOf(store.St(), id).Start?
      requires forall k :: OthersInTurn(turns(k), id)
      modifies store, store.queue
      ensures store.St() == Run(c, old(store.St()), trace) && Batch(store.St(), id) == []
      ensures |results| <= |claimed| && AllDone(store.St(), id, claimed, results, turns)
      ensures if err.None? then |results| == |claimed| else StoppedAt(store.St(), claimed, |results|, turns, err.value)
      ensures TakesTurns(c, old(store.St()), id, turns, turned, trace)
      ensures results <= turned && |turned| == |results| + if err.None? then 0 else 1
      ensures (forall k :: turns(k).mark.outcome == Q.Acked) && (forall h <- claimed :: WithinLease(c, store.St(), h))
              ==> err.None?
    {
      results, turned, trace := [], [], [];
      while |results| < |claimed|
        invariant |results| <= |claimed| && Reachable(c, store.St())
        invariant Batch(store.St(), id) == claimed[|results|..] && ProgressOf(store.St(), id).Start?
        invariant store.St() == Run(c, old(store.St()), trace)
        invariant AllDone(store.St(), id, claimed, results, turns)
        invariant turned == results && TakesTurns(c, old(store.St()), id, turns, turned, trace)
        decreases |claimed| - |results|
      {
        var failure, settled;
        ghost var succeeded, more;
        failure, settled, succeeded, more := TakeTurn(c, claimed, results, turns);
        RunConcat(c, old(store.St()), trace, more);
        OneTurnMore(c, old(store.St()), id, turns, turned, trace, succeeded, more);
        turned := turned + [succeeded];
        trace := trace + more;
        results := settled;
        if failure.Some? { return failure, results, turned, trace; }
      }
      return None, results, turned, trace;
    }

    /** Time passes, then the claim. */
    method ElapseAndClaim(c: Config, m: Moment) returns (r: Result<seq<Job>, StoreError>, ghost trace: seq<Action>)
      requires Reachable(c, store.St()) && Batch(store.St(), id) == []
      requires batchSize >= 1 && lease >= c.lease && Others(m, id)
      modifies store, store.queue
      ensures store.St() == Run(c, old(store.St()), trace) && Reachable(c, store.St())
      ensures ProgressOf(store.St(), id).Start? && Batch(store.St(), id) == if r.Ok? then r.value else []
      ensures |trace| == |m.before + m.during| + 1
      ensures StartsWithClaim(c, old(store.St()), trace, this, m, Batch(store.St(), id))
      ensures if m.outcome == Q.Acked then r.Ok? else r == Err(Unavailable)
    {
      ghost var s0 := store.St();
      ReachableFacts(c, s0);
      var readAt := Elapse(c, m);
      ghost var step;
      r, step := Claim(c, readAt, m);
      trace := m.before + m.during + [Queue(step)];
      ClaimComesFirst(c, s0, m, step, this);
      RunOne(c, s0, m.before + m.during, Queue(step));
      ReachableOn(c, s0, trace);
    }

    /** One iteration of the worker, in any reachable state: claim a batch, process and mark its rows in turn,
        return at the first store error. m and turns say what happens around the claim and around each job;
        trace is the run of the system this amounts to, claimed the batch, results how processJob turned out. */
    method RunOnce(c: Config, m: Moment, turns: nat -> Turn, ghost before: seq<Action>)
      returns (err: Option<StoreError>, ghost trace: seq<Action>, ghost claimed: seq<Job>, ghost results: seq<bool>,
               ghost turned: seq<bool>)
      requires store.St() == Run(c, INIT, before) && Batch(store.St(), id) == []
      requires batchSize >= 1 && lease >= c.lease
      requires Others(m, id) && forall k :: OthersInTurn(turns(k), id)
      modifies store, store.queue
      ensures store.St() == Run(c, INIT, before + trace) && Batch(store.St(), id) == []
      // The first statement is one claim of this worker among the rows not locked; what it got is the batch.
      ensures StartsWithClaim(c, old(store.St()), trace, this, m, claimed)
      // Then come its turns, each processJob and then the mark of how that ended, and nothing else of its own.
      ensures TurnsFrom(c, old(store.St()), |m.before + m.during| + 1, id, turns, turned, trace)
      ensures results <= turned && |turned| <= |results| + 1 && (err.None? ==> turned == results)
      // The rows in results are settled, each as processJob turned out, and every success has left exactly one
      // snapshot, made under that very claim, and one event about it.
      ensures |results| <= |claimed| && AllDone(store.St(), id, claimed, results, turns)
      ensures forall i :: 0 <= i < |results| && results[i] ==>
                OnlyEvidence(store.St(), claimed[i], turns(i).snapshotId)
      // Processing fails for no other reason than a failed call, a refused check row, or a snapshot id that
      // another claim has used.
      ensures forall i :: 0 <= i < |results| && !results[i] ==> Excused(store.St(), claimed[i], turns(i))
      // Without an error the whole batch is settled; an error is that of the claim, or of the first mark that
      // failed: a failed call, or a row that was claimed again.
      ensures if err.None? then |results| == |claimed|
              else (err.value == Unavailable && m.outcome != Q.Acked)
                   || StoppedAt(store.St(), claimed, |results|, turns, err.value)
      // With no store failure at the claim and the marks, a batch finished within the lease of its claim runs through.
      ensures m.outcome == Q.Acked && (forall k :: turns(k).mark.outcome == Q.Acked)
              && (forall h <- claimed :: WithinLease(c, store.St(), h))
              ==> err.None?
    {
      ghost var s0 := store.St();
      ReachableFrom(c, before);
      var r;
      r, trace := ElapseAndClaim(c, m);
      claimed, results, turned := if r.Ok? then r.value else [], [], [];
      RunConcat(c, INIT, before, trace);
      TurnsAppended(c, s0, trace, id, turns, [], []);
      assert trace + [] == trace;
      if r.Err? { return Some(r.error), trace, claimed, results, turned; }
      ghost var more;
      var outcomes;
      err, outcomes, turned, more := RunBatch(c, r.value, turns);
      results := outcomes;
      ClaimStaysFirst(c, s0, trace, more, this, m, claimed);
      TurnsAppended(c, s0, trace, id, turns, turned, more);
      RunConcat(c, s0, trace, more);
      trace := trace + more;
      RunConcat(c, INIT, before, trace);
      AllEvidenceIsOnly(c, before + trace, id, claimed, results, turns);
      AllExcused(store.St(), id, claimed, results, turns);
    }
  }

  predicate StartsWithClaim(c: Config, s0: Sys, trace: seq<Action>, worker: Worker, m: Moment, claimed: seq<Job>) {
    var k := |m.before + m.during|;
    && k < |trace| && trace[..k] == m.before + m.during && trace[k].Queue?
    && var s := Run(c, s0, trace[..k]);
       ClaimsFor(c, s, trace[k].step, worker, m) && claimed == Batch(Do(c, s, trace[k]), worker.id)
  }

  lemma ClaimComesFirst(c: Config, s0: Sys, m: Moment, step: Q.Step, worker: Worker)
    requires ClaimsFor(c, Run(c, s0, m.before + m.during), step, worker, m)
    ensures StartsWithClaim(c, s0, m.before + m.during + [Queue(step)], worker, m,
                            Batch(Do(c, Run(c, s0, m.before + m.during), Queue(step)), worker.id))
  {
    assert (m.before + m.during + [Queue(step)])[..|m.before + m.during|] == m.before + m.during;
  }

  lemma ClaimStaysFirst(c: Config, s0: Sys, trace: seq<Action>, more: seq<Action>, worker: Worker, m: Moment,
                        claimed: seq<Job>)
    requires StartsWithClaim(c, s0, trace, worker, m, claimed)
    ensures StartsWithClaim(c, s0, trace + more, worker, m, claimed)
  {
    assert (trace + more)[..|m.before + m.during|] == trace[..|m.before + m.during|];
  }

  lemma AllExcused(s: Sys, w: WorkerId, claimed: seq<Job>, results: seq<bool>, turns: nat -> Turn)
    requires |results| <= |claimed| && AllDone(s, w, claimed, results, turns)
    ensures forall i :: 0 <= i < |results| && !results[i] ==> Excused(s, claimed[i], turns(i))
  {
    forall i | 0 <= i < |results| && !results[i] ensures Excused(s, claimed[i], turns(i)) {
      assert Done(s, w, claimed[i], results[i], turns(i));
    }
  }

  lemma AllEvidenceIsOnly(c: Config, actions: seq<Action>, w: WorkerId, claimed: seq<Job>, results: seq<bool>, turns: nat -> Turn)
    requires |results| <= |claimed| && AllDone(Run(c, INIT, actions), w, claimed, results, turns)
    ensures forall i :: 0 <= i < |results| && results[i] ==>
              OnlyEvidence(Run(c, INIT, actions), claimed[i], turns(i).snapshotId)
  {
    forall i | 0 <= i < |results| && results[i] ensures OnlyEvidence(Run(c, INIT, actions), claimed[i], turns(i).snapshotId) {
      assert Done(Run(c, INIT, actions), w, claimed[i], results[i], turns(i));
      EvidenceIsOnly(c, actions, claimed[i], turns(i).snapshotId);
    }
  }

  /** The step is a claim of this worker that is enabled, and that takes rows in order among those not locked. */
  predicate ClaimsFor(c: Config, s: Sys, step: Q.Step, worker: Worker, m: Moment) {
    && step.Claim? && step.worker == worker.id && step.batchSize == worker.batchSize && step.lease == worker.lease
    && step.outcome == m.outcome && step.now == s.q.clock
    && Q.Enabled(c.lease, s.q, step)
    && InOrderAmong(s.q.jobs, m.locked, step.picked, step.batchSize, step.now, step.readAt - step.lease)
  }

  /** Why processJob failed: a call failed, a check row was refused, or the snapshot id is another claim's. */
  ghost predicate Excused(s: Sys, h: Job, t: Turn) {
    || !PlaneStore.ThreeAcked(t.process)
    || PlaneStore.Fails(t.process(2).badRow, 10)
    || (t.snapshotId in s.origins && (s.origins[t.snapshotId].job != h.id || s.origins[t.snapshotId].attempt != h.attempts))
  }

  /** The claim that issued h is settled as processJob turned out; a success left its evidence, a failure had a
      reason. */
  ghost predicate Done(s: Sys, w: WorkerId, h: Job, succeeded: bool, t: Turn) {
    SettledAs(s.q, w, h, succeeded) && if succeeded then EvidenceOf(s, h, t.snapshotId) else Excused(s, h, t)
  }

  ghost predicate AllDone(s: Sys, w: WorkerId, claimed: seq<Job>, results: seq<bool>, turns: nat -> Turn) {
    forall i :: 0 <= i < |claimed| && i < |results| ==> Done(s, w, claimed[i], results[i], turns(i))
  }

  /** Time passes, and the mark of how processing ended is issued. */
  function MarkCourse(c: Config, s: Sys, w: WorkerId, succeeded: bool, m: Moment): seq<Action> {
    m.before + m.during + [Queue(MarkOf(w, Run(c, s, m.before).q.clock, succeeded, m.outcome))]
  }

  /** A turn is processJob, as far as it gets, and then the mark. */
  ghost predicate TurnInParts(c: Config, s: Sys, w: WorkerId, t: Turn, succeeded: bool, process: seq<Action>, mark: seq<Action>) {
    && PlaneStore.Follows(process, PlaneStore.ProcessCourse(w, t.snapshotId, t.process), succeeded)
    && mark == MarkCourse(c, Run(c, s, process), w, succeeded, t.mark)
  }

  ghost predicate TakesTurn(c: Config, s: Sys, w: WorkerId, t: Turn, succeeded: bool, trace: seq<Action>) {
    exists process, mark :: trace == process + mark && TurnInParts(c, s, w, t, succeeded, process, mark)
  }

  /** The trace is the turns one after the other. */
  ghost predicate TakesTurns(c: Config, s: Sys, w: WorkerId, turns: nat -> Turn, turned: seq<bool>, trace: seq<Action>) {
    if turned == [] then trace == []
    else
      var n := |turned| - 1;
      exists k :: 0 <= k <= |trace| && TakesTurns(c, s, w, turns, turned[..n], trace[..k])
                  && TakesTurn(c, Run(c, s, trace[..k]), w, turns(n), turned[n], trace[k..])
  }

  /** The trace from its k-th action on is the turns. */
  ghost predicate TurnsFrom(c: Config, s: Sys, k: nat, w: WorkerId, turns: nat -> Turn, turned: seq<bool>, trace: seq<Action>) {
    k <= |trace| && TakesTurns(c, Run(c, s, trace[..k]), w, turns, turned, trace[k..])
  }

  lemma TurnsAppended(c: Config, s: Sys, front: seq<Action>, w: WorkerId, turns: nat -> Turn, turned: seq<bool>,
                      more: seq<Action>)
    requires TakesTurns(c, Run(c, s, front), w, turns, turned, more)
    ensures TurnsFrom(c, s, |front|, w, turns, turned, front + more)
  {
    assert (front + more)[..|front|] == front && (front + more)[|front|..] == more;
  }

  lemma OneTurnMore(c: Config, s: Sys, w: WorkerId, turns: nat -> Turn, turned: seq<bool>, front: seq<Action>, succeeded: bool,
                    last: seq<Action>)
    requires TakesTurns(c, s, w, turns, turned, front)
    requires TakesTurn(c, Run(c, s, front), w, turns(|turned|), succeeded, last)
    ensures TakesTurns(c, s, w, turns, turned + [succeeded], front + last)
  {
    assert (turned + [succeeded])[..|turned|] == turned;
    assert (front + last)[..|front|] == front && (front + last)[|front|..] == last;
  }

  /** Why a mark of h failed: the call failed, or h was claimed again. */
  predicate MarkFails(s: Sys, h: Job, m: Moment, error: StoreError) {
    match error
    case Unavailable => m.outcome != Q.Acked
    case StateConflict => h.id in s.q.jobs && s.q.jobs[h.id].attempts > h.attempts
    case _ => false
  }

  predicate StoppedAt(s: Sys, claimed: seq<Job>, k: nat, turns: nat -> Turn, error: StoreError) {
    k < |claimed| && MarkFails(s, claimed[k], turns(k).mark, error)
  }

  /** What was settled stays so, and one row may be added. */
  lemma SettledOn(c: Config, s: Sys, actions: seq<Action>, w: WorkerId, claimed: seq<Job>, results: seq<bool>,
                  settled: seq<bool>, turns: nat -> Turn)
    requires Reachable(c, s) && |results| < |claimed| && AllDone(s, w, claimed, results, turns)
    requires results <= settled && |settled| <= |results| + 1
    requires settled != results ==>
               Done(Run(c, s, actions), w, claimed[|results|], settled[|results|], turns(|results|))
    ensures AllDone(Run(c, s, actions), w, claimed, settled, turns)
  {
    ReachableFacts(c, s);
    DoneStays(c, s, actions, w, claimed, results, turns);
    if settled != results {
      assert settled == results + [settled[|results|]];
      OneMoreDone(Run(c, s, actions), w, claimed, results, settled[|results|], turns);
    } else {
      assert settled == results;
    }
  }

  lemma OneMoreDone(s: Sys, w: WorkerId, claimed: seq<Job>, results: seq<bool>, succeeded: bool, turns: nat -> Turn)
    requires |results| < |claimed| && AllDone(s, w, claimed, results, turns)
    requires Done(s, w, claimed[|results|], succeeded, turns(|results|))
    ensures AllDone(s, w, claimed, results + [succeeded], turns)
  {}

  lemma OutcomeStays(c: Config, s: Sys, actions: seq<Action>, h: Job, succeeded: bool, t: Turn)
    requires s.origins.Keys <= s.snapshots.Keys
    requires if succeeded then EvidenceOf(s, h, t.snapshotId) else Excused(s, h, t)
    ensures if succeeded then EvidenceOf(Run(c, s, actions), h, t.snapshotId) else Excused(Run(c, s, actions), h, t)
  {
    if succeeded {
      EvidenceStays(c, s, actions, h, t.snapshotId);
    } else if t.snapshotId in s.origins {
      OriginStays(c, s, actions, t.snapshotId);
    }
  }

  lemma {:induction false} OriginStays(c: Config, s: Sys, actions: seq<Action>, id: Uuid)
    requires id in s.origins && s.origins.Keys <= s.snapshots.Keys
    ensures var s' := Run(c, s, actions); id in s'.origins && s'.origins[id] == s.origins[id]
    ensures Run(c, s, actions).origins.Keys <= Run(c, s, actions).snapshots.Keys
  {
    if actions != [] {
      OriginStays(c, s, actions[..|actions| - 1], id);
      OriginStep(c, Run(c, s, actions[..|actions| - 1]), actions[|actions| - 1], id);
    }
  }

  lemma OriginStep(c: Config, s: Sys, a: Action, id: Uuid)
    requires id in s.origins && s.origins.Keys <= s.snapshots.Keys
    ensures var s' := Do(c, s, a); id in s'.origins && s'.origins[id] == s.origins[id] && s'.origins.Keys <= s'.snapshots.Keys
  {
    if Enabled(c, s, a) && a.SaveEvaluation? {
      assert Do(c, s, a) == AfterSave(s, a.worker, a.outcome);
    } else {
      Evidence.OthersKeepSnapshots(c, s, a);
    }
  }

  lemma DoneStays(c: Config, s: Sys, actions: seq<Action>, w: WorkerId, claimed: seq<Job>, results: seq<bool>,
                  turns: nat -> Turn)
    requires Q.Inv(c.lease, s.q) && s.origins.Keys <= s.snapshots.Keys && AllDone(s, w, claimed, results, turns)
    ensures AllDone(Run(c, s, actions), w, claimed, results, turns)
  {
    QueueRuns(c, s, actions);
    forall i | 0 <= i < |claimed| && i < |results|
      ensures Done(Run(c, s, actions), w, claimed[i], results[i], turns(i))
    {
      assert Done(s, w, claimed[i], results[i], turns(i));
      OutcomeStays(c, s, actions, claimed[i], results[i], turns(i));
    }
  }

  predicate WithinLease(c: Config, s: Sys, h: Job) {
    h.lockedAt.Some? && s.q.clock <= h.lockedAt.value + c.lease
  }

  lemma DoesQueue(c: Config, s: Sys, step: Q.Step)
    requires Q.Enabled(c.lease, s.q, step) && QueueAllowed(s, step)
    ensures Do(c, s, Queue(step)) == AfterQueue(c, s, step)
  {}

  /** What a run of the system does to the queue in it. */
  lemma QueueRuns(c: Config, s: Sys, actions: seq<Action>)
    requires Q.Inv(c.lease, s.q)
    ensures var q := Run(c, s, actions).q;
      && Q.Inv(c.lease, q) && s.q.clock <= q.clock
      && forall id :: LogGrows(Q.Log(s.q, id), Q.Log(q, id))
  {
    var steps := QueueRunIn(c, s, actions);
    Q.RunKeepsInv(c.lease, s.q, steps);
    ClockGrows(c.lease, s.q, steps);
    forall id ensures LogGrows(Q.Log(s.q, id), Q.Log(Run(c, s, actions).q, id)) {
      RunGrowsLog(c.lease, s.q, steps, id);
    }
  }

  // ----- Reachable states -----

  ghost predicate Reachable(c: Config, s: Sys) { exists actions :: s == Run(c, INIT, actions) }

  lemma ReachableFrom(c: Config, actions: seq<Action>)
    ensures Reachable(c, Run(c, INIT, actions))
  {}

  lemma ReachableOn(c: Config, s: Sys, more: seq<Action>)
    requires Reachable(c, s)
    ensures Reachable(c, Run(c, s, more))
  {
    var actions :| s == Run(c, INIT, actions);
    RunConcat(c, INIT, actions, more);
  }

  lemma ReachableFacts(c: Config, s: Sys)
    requires Reachable(c, s)
    ensures Q.Inv(c.lease, s.q) && Evidence.SnapshotsInv(c, s) && ResourcesStored(s)
  {
    var actions :| s == Run(c, INIT, actions);
    ReachableQueueInv(c, actions);
    Evidence.SnapshotsHold(c, actions);
    ResourcesHold(c, actions);
  }

  /** Every job is for a stored service. */
  predicate ResourcesStored(s: Sys) { forall id <- s.q.jobs :: s.q.jobs[id].resourceId in s.services }

  lemma QueueKeepsResources(c: Config, s: Sys, step: Q.Step)
    requires ResourcesStored(s) && Q.Inv(c.lease, s.q) && Q.Enabled(c.lease, s.q, step) && QueueAllowed(s, step)
    ensures ResourcesStored(AfterQueue(c, s, step))
  {
    StepMovesTable(c.lease, s.q, step);
    StepAddsRow(c.lease, s.q, step);
  }

  lemma {:induction false} ResourcesHold(c: Config, actions: seq<Action>)
    ensures ResourcesStored(Run(c, INIT, actions))
  {
    if actions != [] {
      var before, a := actions[..|actions| - 1], actions[|actions| - 1];
      var s := Run(c, INIT, before);
      ResourcesHold(c, before);
      ReachableQueueInv(c, before);
      if a.Queue? && Enabled(c, s, a) {
        QueueKeepsResources(c, s, a.step);
      } else {
        OthersKeepQueue(c, s, a);
        forall id | id in s.q.jobs ensures s.q.jobs[id].resourceId in Do(c, s, a).services {
          ServiceStays(c, s, a, s.q.jobs[id].resourceId);
        }
      }
    }
  }

  /** In a reachable state a job is of the one type there is and its service is stored, and a claim that is
      about to save has no snapshot yet: a snapshot id in use is another claim's. */
  lemma RefusedMeans(c: Config, s: Sys, w: WorkerId, h: Job, t: Turn, error: PlaneStore.ProcessError, s': Sys)
    requires Reachable(c, s) && AtJob(s, w, h)
    requires PlaneStore.ProcessRefused(c, s, w, h, t.snapshotId, t.process, error)
    requires error == PlaneStore.FromStore(ConstraintViolation) ==>
               PlaneStore.SaveUndone(c, s, w, h, t.snapshotId, t.process, s')
    ensures Excused(s', h, t)
  {
    ReachableFacts(c, s);
    Q.HeadOk(c.lease, s.q, w);
    match error
    case FromStore(ConstraintViolation) =>
      var path := PlaneStore.BeforeSaving(w, t.snapshotId, t.process) + t.process(2).others;
      ReachableOn(c, s, path);
      IdIsAnothers(c, Run(c, s, path), w, h, t.snapshotId);
    case FromStore(NotFound) => NameStays(c, s, t.process(0).others, h.resourceId);
    case _ =>
  }

  lemma IdIsAnothers(c: Config, s: Sys, w: WorkerId, h: Job, id: Uuid)
    requires Reachable(c, s) && PlaneStore.HasResultAt(s, w, h)
    ensures id in s.snapshots ==> id in s.origins && (s.origins[id].job != h.id || s.origins[id].attempt != h.attempts)
  {
    ReachableFacts(c, s);
    assert Evidence.BatchUnsaved(s.origins, Q.Batch(s.q, w), ProgressIn(s.progress, w));
    assert Evidence.Unsaved(s.origins, Q.Batch(s.q, w)[0]);
  }
}
