/** The store as an object, the queue and all other tables, whose methods are the SQL statements and
    transactions, and the use cases of internal/app/controlplane.go over it, with every other process free to
    act between any two statements. Each use case is a run of the machine in ControlPlane. */
module PlaneStore {
  import opened Wrappers
  import opened Jobs
  import Q = Queue
  import opened Domain
  import opened PlatformChecks
  import opened ControlPlane
  import JobStore
  import opened Processes
  import Evidence
  import Gate

  /** What happens around one database call of a use case: the actions of other processes before it, how the
      call ends, and, for the save of an evaluation, the check row whose insert fails, if one does. */
  datatype Pause = Pause(others: seq<Action>, outcome: Q.Outcome, badRow: Option<nat>)

  class Store {
    const queue: JobStore.Store
    var services: map<Uuid, Service>
    var snapshots: map<Uuid, Snapshot>
    var checks: map<Uuid, seq<CheckResult>>
    var audits: seq<AuditEvent>
    var candidates: map<Uuid, Candidate>
    var decisions: map<Uuid, Decision>
    /** What the processes keep in memory. */
    var progress: map<WorkerId, Progress>
    var writes: map<ClientId, Service>
    var evaluations: map<ClientId, Evaluation>
    var tick: nat
    /** History. */
    ghost var origins: map<Uuid, Origin>
    ghost var trails: map<Uuid, Trail>

    ghost function St(): Sys
      reads this, queue
    {
      Sys(queue.St(), services, snapshots, checks, audits, candidates, decisions,
          progress, writes, evaluations, origins, trails, tick)
    }

    /** The state without its history. */
    function Plain(): Sys
      reads this, queue
    {
      Sys(Q.State(queue.clock, queue.jobs, queue.batches, map[]), services, snapshots, checks, audits, candidates, decisions,
          progress, writes, evaluations, map[], map[], tick)
    }

    constructor ()
      ensures St() == INIT && fresh(queue)
    {
      queue := new JobStore.Store();
      services, snapshots, checks, audits := map[], map[], map[], [];
      candidates, decisions, progress, writes, evaluations := map[], map[], map[], map[], map[];
      origins, trails, tick := map[], map[], 0;
    }

    // ----- candidates.go -----

    /** ORDER BY evaluated_at DESC LIMIT 1; latest is the key of the row, any of them on a tie. */
    method GetLatestSnapshot(service: Uuid) returns (found: Option<Snapshot>, latest: Option<Uuid>)
      ensures Answers(snapshots, latest, service) && found == Found(snapshots, latest)
    {
      latest := None;
      var rest := snapshots.Keys;
      while rest != {}
        invariant rest <= snapshots.Keys
        invariant latest.Some? ==> latest.value in snapshots && snapshots[latest.value].serviceId == service
        invariant forall id <- snapshots.Keys - rest :: snapshots[id].serviceId == service ==>
                    latest.Some? && snapshots[id].evaluatedAt <= snapshots[latest.value].evaluatedAt
        decreases rest
      {
        var id :| id in rest;
        if snapshots[id].serviceId == service
           && (latest.None? || snapshots[latest.value].evaluatedAt < snapshots[id].evaluatedAt) {
          latest := Some(id);
        }
        rest := rest - {id};
      }
      found := if latest.Some? then Some(snapshots[latest.value]) else None;
    }

    /** One transaction: a guarded update of the candidate, then the upsert of the decision. What fails
        before the commit is rolled back. */
    method SavePromotionDecision(id: Uuid, d: Decision, at: Time, outcome: Q.Outcome) returns (r: Result<(), StoreError>)
      requires d.candidateId == id
      modifies this`candidates, this`decisions
      ensures var done := outcome != Q.Refused && Commits(old(St()), id, d);
        && candidates == (if done then old(candidates)[id := DecidedCandidate(old(candidates)[id], d, at)] else old(candidates))
        && decisions == (if done then Upsert(old(decisions), d) else old(decisions))
      ensures var pending := id in old(candidates) && old(candidates)[id].status == CandidatePending;
        r == if outcome == Q.Refused then Err(Unavailable)
             else if !pending then Err(StateConflict)
             else if exists o <- old(decisions) :: o != id && old(decisions)[o].id == d.id then Err(ConstraintViolation)
             else if outcome == Q.Acked then Ok(())
             else Err(Unavailable)
      ensures r.Ok? ==> id in candidates && candidates[id] == old(candidates)[id].(status := d.decision, reason := d.summary,
                          lastSnapshotId := d.snapshotId, evaluatedAt := Some(at))
    {
      if outcome == Q.Refused { return Err(Unavailable); }
      var beginCandidates := candidates;
      var affected := 0;
      if id in candidates && candidates[id].status == CandidatePending {
        candidates := candidates[id := DecidedCandidate(candidates[id], d, at)];
        affected := 1;
      }
      if affected != 1 { return Err(StateConflict); }
      var taken := exists o <- decisions :: o != d.candidateId && decisions[o].id == d.id;
      if taken {
        candidates := beginCandidates;
        return Err(ConstraintViolation);
      }
      if id in decisions {
        decisions := decisions[id := d.(id := decisions[id].id)];
      } else {
        decisions := decisions[id := d];
      }
      return if outcome == Q.Acked then Ok(()) else Err(Unavailable);
    }

    // ----- services.go -----

    /** One transaction for a snapshot and its check rows: an insert that fails, of whatever row, rolls all of
        it back. */
    method SaveReadinessEvaluation(snapshot: Snapshot, rows: seq<CheckResult>, badRow: Option<nat>, outcome: Q.Outcome)
      returns (r: Result<(), StoreError>)
      modifies this`snapshots, this`checks
      ensures var done := outcome != Q.Refused && snapshot.id !in old(snapshots) && !Fails(badRow, |rows|);
        && snapshots == (if done then old(snapshots)[snapshot.id := snapshot] else old(snapshots))
        && checks == (if done then old(checks)[snapshot.id := rows] else old(checks))
        && r == (if outcome == Q.Refused then Err(Unavailable) else if !done then Err(ConstraintViolation)
                 else if outcome == Q.Acked then Ok(()) else Err(Unavailable))
    {
      if outcome == Q.Refused { return Err(Unavailable); }
      if snapshot.id in snapshots { return Err(ConstraintViolation); }
      var beginSnapshots, beginChecks := snapshots, checks;
      snapshots := snapshots[snapshot.id := snapshot];
      checks := checks[snapshot.id := []];
      for i := 0 to |rows|
        invariant snapshots == old(snapshots)[snapshot.id := snapshot] && checks == old(checks)[snapshot.id := rows[..i]]
        invariant !Fails(badRow, i)
      {
        if badRow == Some(i) {
          snapshots, checks := beginSnapshots, beginChecks;
          return Err(ConstraintViolation);
        }
        assert rows[..i + 1] == rows[..i] + [rows[i]];
        checks := checks[snapshot.id := checks[snapshot.id] + [rows[i]]];
      }
      assert rows[..|rows|] == rows;
      return if outcome == Q.Acked then Ok(()) else Err(Unavailable);
    }

    method InsertAuditEvent(e: AuditEvent, outcome: Q.Outcome) returns (r: Result<(), StoreError>)
      modifies this`audits
      ensures audits == if outcome == Q.Refused then old(audits) else old(audits) + [e]
      ensures r == if outcome == Q.Acked then Ok(()) else Err(Unavailable)
    {
      if outcome == Q.Refused { return Err(Unavailable); }
      audits := audits + [e];
      return if outcome == Q.Acked then Ok(()) else Err(Unavailable);
    }

    // ----- Other processes -----

    /** Any sequence of actions of other processes. */
    method Interleave(c: Config, actions: seq<Action>, caller: Caller)
      requires AllForeign(actions, caller)
      modifies this, queue
      ensures St() == Run(c, old(St()), actions)
      ensures MemoryOf(St(), caller) == old(MemoryOf(St(), caller))
    {
      assert actions[..0] == [];
      for i := 0 to |actions|
        invariant St() == Run(c, old(St()), actions[..i])
        invariant MemoryOf(St(), caller) == old(MemoryOf(St(), caller))
      {
        assert actions[..i + 1] == actions[..i] + [actions[i]];
        RunOne(c, old(St()), actions[..i], actions[i]);
        if caller.Client? {
          ForeignKeepsClient(c, St(), actions[i], caller);
        } else {
          ForeignKeepsWorker(c, St(), actions[i], caller);
        }
        Perform(c, actions[i]);
      }
      assert actions[..|actions|] == actions;
    }

    /** One action of another process. */
    method Perform(c: Config, a: Action)
      modifies this, queue
      ensures St() == Do(c, old(St()), a)
    {
      HistoryUnread(c, St(), a);
      assert Plain() == Forgotten(St());
      Become(Do(c, Plain(), a), Do(c, St(), a));
    }

    /** The state s, with the history of whole. */
    method Become(s: Sys, ghost whole: Sys)
      requires Forgotten(s) == Forgotten(whole)
      modifies this, queue
      ensures St() == whole
    {
      queue.Become(s.q, whole.q.claims);
      services, snapshots, checks := s.services, s.snapshots, s.checks;
      audits, candidates, decisions := s.audits, s.candidates, s.decisions;
      progress, writes, evaluations, tick := s.progress, s.writes, s.evaluations, s.tick;
      origins, trails := whole.origins, whole.trails;
    }

    /** An audit event of any kind but 'service.evaluated'. */
    method InsertEvent(c: Config, e: AuditEvent, outcome: Q.Outcome) returns (r: Result<(), StoreError>)
      requires e.eventType != ServiceEvaluated
      modifies this`audits, this`tick
      ensures St() == if outcome == Q.Refused then old(St()) else Do(c, old(St()), AuditOther(e))
      ensures r == if outcome == Q.Acked then Ok(()) else Err(Unavailable)
    {
      DoesAuditOther(c, St(), e);
      r := InsertAuditEvent(e, outcome);
      if outcome != Q.Refused { tick := tick + 1; }
    }

    /** Others act, then an audit event is written. */
    method PauseAndLog(c: Config, client: ClientId, e: AuditEvent, pause: Pause)
      returns (r: Result<(), StoreError>, ghost trace: seq<Action>)
      requires AllForeign(pause.others, Client(client)) && e.eventType != ServiceEvaluated
      modifies this, queue
      ensures St() == Run(c, old(St()), trace)
      ensures r.Ok? ==> e in audits
      ensures r.Err? ==> r.error == Unavailable && pause.outcome != Q.Acked
      ensures Follows(trace, pause.others + [AuditOther(e)], r.Ok?)
    {
      ghost var s0 := St();
      Interleave(c, pause.others, Client(client));
      r := InsertEvent(c, e, pause.outcome);
      RunOne(c, s0, pause.others, AuditOther(e));
      trace := if pause.outcome == Q.Refused then pause.others else pause.others + [AuditOther(e)];
      if r.Ok? { DoesAuditOther(c, Run(c, s0, pause.others), e); }
    }

    // ----- EvaluateDeploymentCandidate -----

    /** The candidate joined with its decision. While the gate's invariant holds the answer is never torn: it
        carries a decision exactly if the candidate is decided, and the two agree. */
    method GetDeploymentCandidate(id: Uuid, outcome: Q.Outcome) returns (r: Result<Detail, StoreError>)
      ensures r.Ok? <==> outcome == Q.Acked && id in candidates
      ensures r.Ok? ==> r.value == DetailOf(St(), id)
      ensures r.Ok? && Gate.GateInv(St()) ==> TellsOneStory(r.value, id)
      ensures r.Err? ==> if outcome != Q.Acked then r.error == Unavailable else r.error == NotFound
    {
      if outcome != Q.Acked { return Err(Unavailable); }
      if id !in candidates { return Err(NotFound); }
      assert Gate.GateInv(St()) ==> Gate.CandidateOk(candidates, decisions, id);
      return Ok(Detail(candidates[id], if id in decisions then Some(decisions[id]) else None));
    }

    /** The first read: only a pending candidate is evaluated. */
    method FetchPending(c: Config, client: ClientId, id: Uuid, outcome: Q.Outcome) returns (r: Result<Candidate, StoreError>)
      requires client !in evaluations
      modifies this`evaluations, this`tick
      ensures r.Ok? ==> id in candidates && r.value == candidates[id] && client in evaluations
                        && evaluations[client] == HasCandidate(r.value, old(tick))
                        && St() == Do(c, old(St()), FetchCandidate(client, id))
      ensures r.Err? ==> St() == old(St()) && Refusal(St(), id, r.error, outcome)
    {
      var detail := GetDeploymentCandidate(id, outcome);
      if detail.Err? { return Err(detail.error); }
      var candidate := detail.value.candidate;
      if candidate.status != CandidatePending { return Err(StateConflict); }
      DoesFetchCandidate(c, St(), client, id);
      evaluations, tick := evaluations[client := HasCandidate(candidate, tick)], tick + 1;
      return Ok(candidate);
    }

    /** The second read, and the verdict on what it found. */
    method ReadVerdict(c: Config, client: ClientId, candidate: Candidate, started: nat)
      returns (snapshot: Option<Snapshot>, status: CandidateStatus, reason: Reason, latest: Option<Uuid>)
      requires client in evaluations && evaluations[client] == HasCandidate(candidate, started)
      modifies this`evaluations, this`tick
      ensures Answers(snapshots, latest, candidate.serviceId) && snapshot == Found(snapshots, latest)
      ensures (status, reason) == Verdict(snapshot)
      ensures client in evaluations && evaluations[client] == HasVerdict(candidate, snapshot, status, reason, started, old(tick))
      ensures St() == Do(c, old(St()), FetchLatest(client, latest))
    {
      snapshot, latest := GetLatestSnapshot(candidate.serviceId);
      if snapshot.None? {
        status, reason := CandidateRejected, NoSnapshotYet;
      } else if snapshot.value.state == Ready {
        status, reason := CandidateApproved, LatestIsReady;
      } else {
        status, reason := CandidateRejected, LatestIs(snapshot.value.state);
      }
      DoesFetchLatest(c, St(), client, latest);
      evaluations, tick := evaluations[client := HasVerdict(candidate, snapshot, status, reason, started, tick)], tick + 1;
    }

    /** The decision is saved, if it goes through. */
    method Decide(client: ClientId, e: Evaluation, decisionId: Uuid, createdAt: Time, outcome: Q.Outcome)
      returns (r: Result<(), StoreError>)
      requires client in evaluations && evaluations[client] == e && e.HasVerdict? && e.candidate.id in candidates
      modifies this`candidates, this`decisions, this`evaluations, this`trails, this`tick
      ensures St() == AfterDecision(old(St()), client, decisionId, createdAt, outcome)
      ensures r.Ok? ==> Commits(old(St()), e.candidate.id, DecisionOf(e, decisionId, createdAt)) && outcome == Q.Acked
      ensures r.Err? ==> DecisionRefused(old(St()), e.candidate.id, decisionId, r.error, outcome)
    {
      var d := Decision(decisionId, e.candidate.id, SnapshotId(e.snapshot), e.status, e.reason, createdAt);
      ghost var done := outcome != Q.Refused && Commits(St(), e.candidate.id, d);
      r := SavePromotionDecision(e.candidate.id, d, queue.clock, outcome);
      Settle(client, e, done);
    }

    /** The evaluation is over; history keeps its course if it decided. */
    method Settle(client: ClientId, e: Evaluation, ghost done: bool)
      requires e.HasVerdict?
      modifies this`evaluations, this`trails, this`tick
      ensures tick == old(tick) + 1 && evaluations == old(evaluations)[client := Finished]
      ensures trails == if done then old(trails)[e.candidate.id := Trail(e.started, e.read, old(tick))] else old(trails)
    {
      if done { trails := trails[e.candidate.id := Trail(e.started, e.read, tick)]; }
      evaluations, tick := evaluations[client := Finished], tick + 1;
    }

    /** Others act, then the first read. */
    method PauseAndFetch(c: Config, client: ClientId, id: Uuid, pause: Pause)
      returns (r: Result<Candidate, StoreError>, ghost trace: seq<Action>)
      requires Gate.GateInv(St()) && client !in evaluations && AllForeign(pause.others, Client(client))
      modifies this, queue
      ensures St() == Run(c, old(St()), trace) && Gate.GateInv(St())
      ensures r.Ok? ==> r.value.id == id && client in evaluations && evaluations[client].HasCandidate?
                        && evaluations[client].candidate == r.value
      ensures r.Ok? ==> trace == pause.others + [FetchCandidate(client, id)]
      ensures r.Err? ==> trace == pause.others && Refusal(St(), id, r.error, pause.outcome)
    {
      ghost var s0 := St();
      Interleave(c, pause.others, Client(client));
      ghost var s1 := St();
      r := FetchPending(c, client, id, pause.outcome);
      trace := pause.others;
      KeepsCandidate(c, s0, pause.others, id);
      if r.Ok? {
        Gate.StepKeepsGate(c, s1, FetchCandidate(client, id));
        assert Gate.CandidateOk(s1.candidates, s1.decisions, id);
        RunOne(c, s0, pause.others, FetchCandidate(client, id));
        trace := pause.others + [FetchCandidate(client, id)];
      }
    }

    /** Others act, then the second read. */
    method PauseAndJudge(c: Config, client: ClientId, candidate: Candidate, pause: Pause)
      returns (r: Result<Evaluation, StoreError>, ghost trace: seq<Action>, ghost latest: Option<Uuid>)
      requires client in evaluations && evaluations[client].HasCandidate? && evaluations[client].candidate == candidate
      requires Gate.GateInv(St()) && AllForeign(pause.others, Client(client))
      modifies this, queue
      ensures St() == Run(c, old(St()), trace) && Gate.GateInv(St())
      ensures r.Ok? ==> client in evaluations && evaluations[client] == r.value
                        && JudgedOn(r.value, candidate, Run(c, old(St()), pause.others).snapshots, latest)
                        && trace == pause.others + [FetchLatest(client, latest)]
      ensures r.Err? ==> trace == pause.others && r.error == Unavailable && pause.outcome != Q.Acked
    {
      latest := None;
      ghost var s0 := St();
      var started := evaluations[client].started;
      Interleave(c, pause.others, Client(client));
      trace := pause.others;
      KeepsCandidate(c, s0, pause.others, candidate.id);
      ghost var s1 := St();
      if pause.outcome != Q.Acked { return Err(Unavailable), trace, latest; }
      var read := tick;
      var snapshot, status, reason, key := ReadVerdict(c, client, candidate, started);
      latest := key;
      Gate.StepKeepsGate(c, s1, FetchLatest(client, latest));
      RunOne(c, s0, pause.others, FetchLatest(client, latest));
      trace := pause.others + [FetchLatest(client, latest)];
      r := Ok(HasVerdict(candidate, snapshot, status, reason, started, read));
    }

    /** The two reads of EvaluateDeploymentCandidate. */
    method Judge(c: Config, client: ClientId, id: Uuid, sched: nat -> Pause)
      returns (r: Result<Evaluation, StoreError>, ghost trace: seq<Action>, ghost read: nat, ghost latest: Option<Uuid>)
      requires Gate.GateInv(St()) && client !in evaluations
      requires forall k :: AllForeign(sched(k).others, Client(client))
      modifies this, queue
      ensures St() == Run(c, old(St()), trace)
      ensures Gate.GateInv(St())
      ensures r.Ok? ==> client in evaluations && evaluations[client] == r.value
                        && r.value.HasVerdict? && r.value.candidate.id == id
                        && read <= |trace|
                        && JudgedOn(r.value, r.value.candidate, Run(c, old(St()), trace[..read]).snapshots, latest)
                        && trace == ReadsAndVerdict(client, id, latest, sched)
      ensures r.Err? ==> (trace == sched(0).others && Refusal(St(), id, r.error, sched(0).outcome))
                         || (r.error == Unavailable && sched(1).outcome != Q.Acked)
      ensures trace <= ReadsAndVerdict(client, id, latest, sched)
    {
      var fetched;
      fetched, trace := PauseAndFetch(c, client, id, sched(0));
      read, latest := 0, None;
      if fetched.Err? { return Err(fetched.error), trace, read, latest; }
      ghost var s1 := St();
      ghost var more;
      r, more, latest := PauseAndJudge(c, client, fetched.value, sched(1));
      Connect(c, old(St()), trace, s1, more, St());
      read := |trace + sched(1).others|;
      if r.Ok? { RunUpTo(c, old(St()), trace, sched(1).others, FetchLatest(client, latest)); }
      trace := trace + more;
    }

    /** Others act, then the decision is saved. */
    method PauseAndDecide(c: Config, client: ClientId, e: Evaluation, decisionId: Uuid, pause: Pause)
      returns (r: Result<(), StoreError>, ghost trace: seq<Action>)
      requires Gate.GateInv(St()) && client in evaluations && evaluations[client] == e && e.HasVerdict?
      requires AllForeign(pause.others, Client(client))
      modifies this, queue
      ensures St() == Run(c, old(St()), trace) && Gate.GateInv(St())
      ensures r.Ok? ==> DecidedAs(St(), e, decisionId)
      ensures r.Err? ==> DecisionRefused(St(), e.candidate.id, decisionId, r.error, pause.outcome)
                         && DecisionRefused(Run(c, old(St()), pause.others), e.candidate.id, decisionId, r.error, pause.outcome)
      ensures trace == pause.others
                       + [SaveDecision(client, decisionId, Run(c, old(St()), pause.others).q.clock, pause.outcome)]
    {
      ghost var s0 := St();
      Interleave(c, pause.others, Client(client));
      ghost var s1 := St();
      KeepsCandidate(c, s0, pause.others, e.candidate.id);
      assert Gate.EvaluationOk(s1.candidates, e);
      var createdAt := queue.clock;
      r := Decide(client, e, decisionId, createdAt, pause.outcome);
      ghost var a := SaveDecision(client, decisionId, createdAt, pause.outcome);
      DoesSaveDecision(c, s1, client, decisionId, createdAt, pause.outcome);
      RunOne(c, s0, pause.others, a);
      trace := pause.others + [a];
      DecisionTaken(c, s1, client, e, decisionId, createdAt, pause.outcome);
    }

    /** What follows the commit: the candidate is read back, and an audit event written. */
    method Report(c: Config, client: ClientId, id: Uuid, sched: nat -> Pause)
      returns (r: Result<Detail, StoreError>, ghost trace: seq<Action>)
      requires Gate.GateInv(St()) && id in candidates && candidates[id].status != CandidatePending
      requires forall k :: AllForeign(sched(k).others, Client(client))
      modifies this, queue
      ensures St() == Run(c, old(St()), trace) && Gate.GateInv(St()) && Gate.SameVerdict(old(St()), St(), id)
      ensures r.Ok? ==> r.value == DetailOf(St(), id) && TellsOneStory(r.value, id)
                        && AuditEvent(CandidateEvaluated, id, client, None) in audits
      ensures r.Err? ==> r.error == Unavailable && (sched(3).outcome != Q.Acked || sched(4).outcome != Q.Acked)
      ensures Follows(trace, ReportCourse(client, id, sched), r.Ok?)
    {
      ghost var s0 := St();
      Interleave(c, sched(3).others, Client(client));
      KeepsCandidate(c, s0, sched(3).others, id);
      ghost var s1 := St();
      r := GetDeploymentCandidate(id, sched(3).outcome);
      if r.Err? { return r, sched(3).others; }
      var logged;
      logged, trace := PauseAndLog(c, client, AuditEvent(CandidateEvaluated, id, client, None), sched(4));
      KeepsCandidate(c, s1, trace, id);
      Connect(c, s0, sched(3).others, s1, trace, St());
      Onward(sched(3).others, trace, sched(4).others + [AuditOther(AuditEvent(CandidateEvaluated, id, client, None))], logged.Ok?);
      trace := sched(3).others + trace;
      if logged.Err? { r := Err(logged.error); }
    }

    /** The rest of EvaluateDeploymentCandidate once the verdict e is reached. */
    method DecideAndReport(c: Config, client: ClientId, e: Evaluation, decisionId: Uuid, sched: nat -> Pause)
      returns (r: Result<Detail, StoreError>, ghost trace: seq<Action>)
      requires Gate.GateInv(St()) && client in evaluations && evaluations[client] == e && e.HasVerdict?
      requires forall k :: AllForeign(sched(k).others, Client(client))
      modifies this, queue
      ensures St() == Run(c, old(St()), trace)
      ensures r.Ok? ==> DecidedAs(St(), e, decisionId) && r.value == DetailOf(St(), e.candidate.id)
                        && TellsOneStory(r.value, e.candidate.id)
                        && AuditEvent(CandidateEvaluated, e.candidate.id, client, None) in audits
      ensures r.Err? ==> Explained(St(), e.candidate.id, decisionId, r.error, sched)
      ensures Follows(trace, DecisionCourse(c, old(St()), client, e.candidate.id, decisionId, sched), r.Ok?)
      ensures r.Err? && FiveAcked(sched) ==>
                DecisionRefused(Run(c, old(St()), sched(2).others), e.candidate.id, decisionId, r.error, Q.Acked)
    {
      r, trace := Err(Unavailable), [];
      var decided;
      decided, trace := PauseAndDecide(c, client, e, decisionId, sched(2));
      if decided.Err? { return Err(decided.error), trace; }
      ghost var s1 := St();
      ghost var more;
      r, more := Report(c, client, e.candidate.id, sched);
      Onward(trace, more, ReportCourse(client, e.candidate.id, sched), r.Ok?);
      Connect(c, old(St()), trace, s1, more, St());
      trace := trace + more;
    }

    /** The use case. sched says what others do before its k-th database call and how that call ends.
        trace is the run this amounts to, and read how far into it the latest snapshot was read. */
    method EvaluateDeploymentCandidate(c: Config, client: ClientId, id: Uuid, decisionId: Uuid, sched: nat -> Pause)
      returns (r: Result<Detail, StoreError>, ghost trace: seq<Action>, ghost read: nat, ghost latest: Option<Uuid>)
      requires Gate.GateInv(St()) && client !in evaluations
      requires forall k :: AllForeign(sched(k).others, Client(client))
      modifies this, queue
      ensures St() == Run(c, old(St()), trace)
      // It issues these statements in this order, each once, and no more of them after a failure.
      ensures Follows(trace, Course(c, old(St()), client, id, decisionId, latest, sched), r.Ok?)
      // Success: this call's own decision stands, on what it read, and is what it answers.
      ensures r.Ok? ==> read <= |trace| && StandsOn(St(), id, decisionId, Run(c, old(St()), trace[..read]).snapshots, latest)
                        && r.value == DetailOf(St(), id) && TellsOneStory(r.value, id)
                        && AuditEvent(CandidateEvaluated, id, client, None) in audits
      // A conflict means that another decision stands; other refusals blame the absence of the candidate, a
      // decision of another candidate with the same id, or the database.
      ensures r.Err? ==> Explained(St(), id, decisionId, r.error, sched)
      // If no call fails, a candidate that is pending when the decision is saved is decided.
      ensures CanDecide(c, old(St()), client, id, decisionId, latest, sched) ==> r.Ok?
    {
      var judged;
      judged, trace, read, latest := Judge(c, client, id, sched);
      if judged.Err? {
        NoVerdict(c, old(St()), client, id, decisionId, latest, sched, trace, judged.error);
        return Err(judged.error), trace, read, latest;
      }
      ghost var s1 := St();
      ghost var front := trace;
      ghost var more;
      r, more := DecideAndReport(c, client, judged.value, decisionId, sched);
      Onward(trace, more, DecisionCourse(c, s1, client, id, decisionId, sched), r.Ok?);
      if r.Err? { NoDecision(c, old(St()), client, id, decisionId, latest, sched, r.error); }
      Connect(c, old(St()), trace, s1, more, St());
      trace := trace + more;
      if r.Ok? { Stands(c, old(St()), front, more, read, judged.value, latest, St(), decisionId); }
    }

    // ----- ProcessServiceEvaluationJob -----

    method Advance(w: WorkerId, p: Progress)
      modifies this`progress, this`tick
      ensures progress == old(progress)[w := p] && tick == old(tick) + 1
    {
      progress, tick := progress[w := p], tick + 1;
    }

    /** Others act, then processJob looks at the type of the job, and GetService reads. */
    method PauseAndRead(c: Config, w: WorkerId, h: Job, pause: Pause)
      returns (r: Result<Service, ProcessError>, ghost trace: seq<Action>)
      requires AtJob(St(), w, h) && ProgressOf(St(), w).Start? && AllForeign(pause.others, Worker(w))
      modifies this, queue
      ensures St() == Run(c, old(St()), trace) && AtJob(St(), w, h) && Batch(St(), w) == old(Batch(St(), w))
      ensures r.Ok? ==> ProgressOf(St(), w).HasService? && ProgressOf(St(), w).service == r.value
                        && ServiceRead(Run(c, old(St()), pause.others), h, r.value)
                        && pause.outcome == Q.Acked
      ensures r.Err? ==> ProgressOf(St(), w).ReturnedError?
                         && ReadRefused(Run(c, old(St()), pause.others), h, r.error, pause.outcome)
      ensures trace == pause.others + [ReadService(w, pause.outcome == Q.Acked)]
    {
      ghost var s0 := St();
      Interleave(c, pause.others, Worker(w));
      ghost var s1 := St();
      ghost var a := ReadService(w, pause.outcome == Q.Acked);
      RunOne(c, s0, pause.others, a);
      trace := pause.others + [a];
      DoesRead(c, s1, w, h, pause.outcome == Q.Acked);
      if h.jobType != ServiceEvaluation {
        r := Err(Unsupported);
      } else if pause.outcome != Q.Acked {
        r := Err(FromStore(Unavailable));
      } else if h.resourceId !in services {
        r := Err(FromStore(NotFound));
      } else {
        r := Ok(services[h.resourceId]);
      }
      Advance(w, if r.Ok? then HasService(r.value, tick) else ReturnedError);
    }

    /** Others act, then the checks run on the service read. */
    method PauseAndCheck(c: Config, w: WorkerId, h: Job, service: Service, snapshotId: Uuid, others: seq<Action>)
      returns (snapshot: Snapshot, rows: seq<CheckResult>, at: Time, ghost trace: seq<Action>)
      requires AtJob(St(), w, h) && ProgressOf(St(), w).HasService? && ProgressOf(St(), w).service == service
      requires AllForeign(others, Worker(w))
      modifies this, queue
      ensures St() == Run(c, old(St()), trace) && AtJob(St(), w, h) && Batch(St(), w) == old(Batch(St(), w))
      ensures snapshot == SnapshotOf(service, h.id, at, snapshotId) && rows == ChecksOf(service, at, snapshotId)
      ensures ProgressOf(St(), w).HasResult? && ProgressOf(St(), w).snapshot == snapshot && ProgressOf(St(), w).checks == rows
      ensures trace == others + [RunChecks(w, snapshotId)]
    {
      ghost var s0 := St();
      Interleave(c, others, Worker(w));
      RunOne(c, s0, others, RunChecks(w, snapshotId));
      trace := others + [RunChecks(w, snapshotId)];
      DoesCheck(c, St(), w, h, snapshotId);
      at := queue.clock;
      snapshot, rows := Evaluate(service, h.id, at, snapshotId);
      Advance(w, HasResult(snapshot, rows, service, ProgressIn(progress, w).seen));
    }

    /** Others act, then snapshot and checks are saved. */
    method PauseAndSave(c: Config, w: WorkerId, h: Job, snapshot: Snapshot, rows: seq<CheckResult>, pause: Pause)
      returns (r: Result<(), ProcessError>, ghost trace: seq<Action>)
      requires AtJob(St(), w, h) && AllForeign(pause.others, Worker(w))
      requires ProgressOf(St(), w).HasResult? && ProgressOf(St(), w).snapshot == snapshot && ProgressOf(St(), w).checks == rows
      modifies this, queue
      ensures St() == Run(c, old(St()), trace) && AtJob(St(), w, h) && Batch(St(), w) == old(Batch(St(), w))
      ensures r.Ok? ==> ProgressOf(St(), w) == HasSaved(snapshot.id) && HasRows(St(), snapshot, rows)
                        && MadeUnder(St(), snapshot.id, h)
      ensures r.Err? ==> ProgressOf(St(), w).ReturnedError?
                         && SaveRefused(Run(c, old(St()), pause.others), snapshot.id, |rows|, r.error, pause)
      ensures r == Err(FromStore(ConstraintViolation)) ==>
                origins == Run(c, old(St()), pause.others).origins && HasResultAt(Run(c, old(St()), pause.others), w, h)
      ensures trace == pause.others + [SaveEvaluation(w, SaveOutcome(pause, |rows|))]
    {
      ghost var s0 := St();
      Interleave(c, pause.others, Worker(w));
      ghost var outcome := SaveOutcome(pause, |rows|);
      RunOne(c, s0, pause.others, SaveEvaluation(w, outcome));
      trace := pause.others + [SaveEvaluation(w, outcome)];
      DoesSave(c, St(), w, h, outcome);
      r := Save(w, h, snapshot, rows, pause);
    }

    method Save(w: WorkerId, h: Job, snapshot: Snapshot, rows: seq<CheckResult>, pause: Pause)
      returns (r: Result<(), ProcessError>)
      requires AtJob(St(), w, h)
      requires ProgressOf(St(), w).HasResult? && ProgressOf(St(), w).snapshot == snapshot && ProgressOf(St(), w).checks == rows
      modifies this`snapshots, this`checks, this`origins, this`progress, this`tick
      ensures St() == AfterSave(old(St()), w, SaveOutcome(pause, |rows|))
      ensures r.Ok? ==> ProgressOf(St(), w) == HasSaved(snapshot.id) && HasRows(St(), snapshot, rows)
                        && MadeUnder(St(), snapshot.id, h)
      ensures r.Err? ==> ProgressOf(St(), w).ReturnedError? && SaveRefused(old(St()), snapshot.id, |rows|, r.error, pause)
      ensures r == Err(FromStore(ConstraintViolation)) ==> origins == old(origins)
    {
      ghost var done := SaveOutcome(pause, |rows|) != Q.Refused && snapshot.id !in snapshots;
      var saved := SaveReadinessEvaluation(snapshot, rows, pause.badRow, pause.outcome);
      KeepOrigin(w, h, snapshot.id, done);
      Advance(w, if saved.Ok? then HasSaved(snapshot.id) else ReturnedError);
      r := if saved.Ok? then Ok(()) else Err(FromStore(saved.error));
    }

    /** History: the claim and the service record the snapshot was made from. */
    ghost method KeepOrigin(w: WorkerId, h: Job, id: Uuid, done: bool)
      requires ProgressOf(St(), w).HasResult?
      modifies this`origins
      ensures var p := ProgressOf(St(), w);
        origins == if done then old(origins)[id := Origin(h.id, h.attempts, p.service, p.seen)] else old(origins)
    {
      var p := ProgressOf(St(), w);
      if done { origins := origins[id := Origin(h.id, h.attempts, p.service, p.seen)]; }
    }

    /** Others act, then the audit event is written. */
    method PauseAndAudit(c: Config, w: WorkerId, h: Job, snapshotId: Uuid, pause: Pause)
      returns (r: Result<(), ProcessError>, ghost trace: seq<Action>)
      requires AtJob(St(), w, h) && ProgressOf(St(), w) == HasSaved(snapshotId) && AllForeign(pause.others, Worker(w))
      modifies this, queue
      ensures St() == Run(c, old(St()), trace) && AtJob(St(), w, h) && Batch(St(), w) == old(Batch(St(), w))
      ensures r.Ok? ==> ProgressOf(St(), w).ReturnedNil? && EvaluatedEvent(h, snapshotId) in audits
      ensures r.Err? ==> ProgressOf(St(), w).ReturnedError? && r.error == FromStore(Unavailable) && pause.outcome != Q.Acked
      ensures trace == pause.others + [AuditEvaluation(w, pause.outcome)]
    {
      ghost var s0 := St();
      Interleave(c, pause.others, Worker(w));
      DoesAudit(c, St(), w, h, snapshotId, pause.outcome);
      RunOne(c, s0, pause.others, AuditEvaluation(w, pause.outcome));
      trace := pause.others + [AuditEvaluation(w, pause.outcome)];
      var written := InsertAuditEvent(EvaluatedEvent(h, snapshotId), pause.outcome);
      Advance(w, if written.Ok? then ReturnedNil else ReturnedError);
      r := if written.Ok? then Ok(()) else Err(FromStore(written.error));
    }

    /** The save and the audit event of an evaluation. */
    method SaveAndAudit(c: Config, w: WorkerId, h: Job, snapshot: Snapshot, rows: seq<CheckResult>, sched: nat -> Pause)
      returns (r: Result<(), ProcessError>, ghost trace: seq<Action>)
      requires AtJob(St(), w, h) && forall k :: AllForeign(sched(k).others, Worker(w))
      requires ProgressOf(St(), w).HasResult? && ProgressOf(St(), w).snapshot == snapshot && ProgressOf(St(), w).checks == rows
      modifies this, queue
      ensures St() == Run(c, old(St()), trace) && AtJob(St(), w, h) && Batch(St(), w) == old(Batch(St(), w))
      ensures r.Ok? ==> ProgressOf(St(), w).ReturnedNil? && HasRows(St(), snapshot, rows) && MadeUnder(St(), snapshot.id, h)
                        && EvaluatedEvent(h, snapshot.id) in audits
      ensures r.Err? ==> ProgressOf(St(), w).ReturnedError?
                         && (SaveRefused(Run(c, old(St()), sched(2).others), snapshot.id, |rows|, r.error, sched(2))
                             || (r.error == FromStore(Unavailable) && sched(3).outcome != Q.Acked))
      ensures r == Err(FromStore(ConstraintViolation)) ==>
                origins == Run(c, old(St()), sched(2).others).origins && HasResultAt(Run(c, old(St()), sched(2).others), w, h)
      ensures Follows(trace, SaveCourse(w, |rows|, sched), r.Ok?)
    {
      r, trace := PauseAndSave(c, w, h, snapshot, rows, sched(2));
      if r.Err? { return r, trace; }
      ghost var s1 := St();
      ghost var more;
      r, more := PauseAndAudit(c, w, h, snapshot.id, sched(3));
      Onward(trace, more, more, r.Ok?);
      KeepsRows(c, s1, more, snapshot, rows, h);
      Connect(c, old(St()), trace, s1, more, St());
      trace := trace + more;
    }

    /** processJob for the job h at the head of w's batch. sched says what others do before the k-th step and
        how its database call ends; the second step calls no database. */
    method ProcessJob(c: Config, w: WorkerId, h: Job, snapshotId: Uuid, sched: nat -> Pause)
      returns (r: Result<(), ProcessError>, ghost trace: seq<Action>, ghost made: Option<(Service, Time)>)
      requires AtJob(St(), w, h) && ProgressOf(St(), w).Start? && forall k :: AllForeign(sched(k).others, Worker(w))
      modifies this, queue
      ensures St() == Run(c, old(St()), trace) && AtJob(St(), w, h) && Batch(St(), w) == old(Batch(St(), w))
      // It issues these statements in this order, each once, and no more of them after a failure.
      ensures Follows(trace, ProcessCourse(w, snapshotId, sched), r.Ok?)
      // Success, and only success, lets the worker mark the job completed. By then a snapshot of the service
      // as it was read, its ten checks and an audit event are stored, under the claim that issued h.
      ensures r.Ok? ==> ProgressOf(St(), w).ReturnedNil? && made.Some?
                        && ServiceRead(Run(c, old(St()), sched(0).others), h, made.value.0)
                        && HasRows(St(), SnapshotOf(made.value.0, h.id, made.value.1, snapshotId),
                                   ChecksOf(made.value.0, made.value.1, snapshotId))
                        && MadeUnder(St(), snapshotId, h)
                        && AuditEvent(ServiceEvaluated, h.resourceId, h.id, Some(snapshotId)) in audits
      // A failure has one of five reasons, so that processing succeeds whenever none of them is there.
      ensures r.Err? ==> ProgressOf(St(), w).ReturnedError? && ProcessRefused(c, old(St()), w, h, snapshotId, sched, r.error)
      ensures CanProcess(c, old(St()), w, h, snapshotId, sched) ==> r.Ok?
      ensures r == Err(FromStore(ConstraintViolation)) ==> SaveUndone(c, old(St()), w, h, snapshotId, sched, St())
    {
      made := None;
      var service;
      service, trace := PauseAndRead(c, w, h, sched(0));
      if service.Err? {
        NotRead(c, old(St()), w, h, snapshotId, sched, service.error);
        return Err(service.error), trace, made;
      }
      ghost var s1 := St();
      var snapshot, rows, at;
      ghost var more;
      snapshot, rows, at, more := PauseAndCheck(c, w, h, service.value, snapshotId, sched(1).others);
      made := Some((service.value, at));
      Connect(c, old(St()), trace, s1, more, St());
      trace := trace + more;
      ghost var s2 := St();
      r, more := SaveAndAudit(c, w, h, snapshot, rows, sched);
      Onward(trace, more, SaveCourse(w, 10, sched), r.Ok?);
      if r.Err? { NotSaved(c, old(St()), w, h, snapshotId, sched, r.error, St()); }
      Connect(c, old(St()), trace, s2, more, St());
      trace := trace + more;
    }

    // ----- UpdateService -----

    /** The service is read and the patch applied to the copy in memory. */
    method ReadAndPatch(client: ClientId, id: Uuid, patch: ServicePatch) returns (patched: Service)
      requires id in services
      modifies this`writes, this`tick
      ensures patched == Patched(services[id], patch)
      ensures St() == old(St()).(tick := old(tick) + 1, writes := old(writes)[client := patched])
    {
      var record := new ServiceRecord(services[id]);
      record.ApplyPatch(patch);
      patched := record.Value();
      writes, tick := writes[client := patched], tick + 1;
    }

    /** Others act, then that. */
    method PauseAndPatch(c: Config, client: ClientId, id: Uuid, patch: ServicePatch, pause: Pause)
      returns (r: Result<Service, StoreError>, ghost trace: seq<Action>)
      requires Keyed(services) && client !in writes && ValidatePatch(c.syntax, patch).None?
      requires AllForeign(pause.others, Client(client))
      modifies this, queue
      ensures St() == Run(c, old(St()), trace) && Keyed(services)
      ensures var read := Run(c, old(St()), pause.others).services;
              r.Ok? ==> id in read && r.value == Patched(read[id], patch) && r.value.id == id && id in services
                        && services[id].name == r.value.name && client in writes && writes[client] == r.value
                        && pause.others <= trace
      ensures r.Err? ==> (r.error == Unavailable && pause.outcome != Q.Acked) || (r.error == NotFound && id !in services)
      ensures Follows(trace, pause.others + [FetchForUpdate(client, id, patch)], r.Ok?)
    {
      ghost var s0 := St();
      Interleave(c, pause.others, Client(client));
      KeepsServices(c, s0, pause.others, id);
      trace := pause.others;
      if pause.outcome != Q.Acked { return Err(Unavailable), trace; }
      if id !in services { return Err(NotFound), trace; }
      FetchForUpdateMoves(c, s0, pause.others, client, id, patch);
      var patched := ReadAndPatch(client, id, patch);
      trace := pause.others + [FetchForUpdate(client, id, patch)];
      r := Ok(patched);
    }

    /** The transaction of two updates: every column of the service but its name, then its SLO policy. */
    method WriteRecord(client: ClientId, record: Service, outcome: Q.Outcome) returns (r: Result<(), StoreError>)
      requires client in writes && writes[client] == record && record.id in services
      modifies this`services, this`writes, this`tick
      ensures St() == if outcome == Q.Refused then old(St()) else AfterWrite(old(St()), client)
      ensures r == if outcome == Q.Acked then Ok(()) else Err(Unavailable)
    {
      if outcome == Q.Refused { return Err(Unavailable); }
      var stored := services[record.id];
      services := services[record.id := record.(name := stored.name, sloPolicy := stored.sloPolicy)];
      services := services[record.id := services[record.id].(sloPolicy := record.sloPolicy)];
      assert services == old(services)[record.id := record.(name := stored.name)];
      writes, tick := writes - {client}, tick + 1;
      return if outcome == Q.Acked then Ok(()) else Err(Unavailable);
    }

    /** Others act, then the copy is written. */
    method PauseAndWrite(c: Config, client: ClientId, record: Service, pause: Pause)
      returns (r: Result<(), StoreError>, ghost trace: seq<Action>)
      requires Keyed(services) && record.id in services && services[record.id].name == record.name
      requires client in writes && writes[client] == record && AllForeign(pause.others, Client(client))
      modifies this, queue
      ensures St() == Run(c, old(St()), trace) && Keyed(services) && record.id in services
      ensures r.Ok? ==> ServiceIs(St(), record.id, record)
      ensures r.Err? ==> r.error == Unavailable && pause.outcome != Q.Acked
      ensures Follows(trace, pause.others + [WriteService(client)], r.Ok?)
    {
      ghost var s0 := St();
      Interleave(c, pause.others, Client(client));
      KeepsServices(c, s0, pause.others, record.id);
      NameStays(c, s0, pause.others, record.id);
      WriteMoves(c, s0, pause.others, client);
      r := WriteRecord(client, record, pause.outcome);
      assert pause.others <= pause.others + [WriteService(client)];
      trace := if pause.outcome == Q.Refused then pause.others else pause.others + [WriteService(client)];
    }

    /** UpdateService of the store up to its commit: what is then stored is the patch applied to what was read,
        whatever others wrote in between. */
    method StorePatch(c: Config, client: ClientId, id: Uuid, patch: ServicePatch, sched: nat -> Pause)
      returns (r: Result<(), StoreError>, ghost trace: seq<Action>)
      requires Keyed(services) && client !in writes && ValidatePatch(c.syntax, patch).None?
      requires forall k :: AllForeign(sched(k).others, Client(client))
      modifies this, queue
      ensures St() == Run(c, old(St()), trace) && Keyed(services)
      ensures r.Ok? ==> sched(0).others <= trace && PatchStored(Run(c, old(St()), sched(0).others), St(), id, patch)
      ensures r.Err? ==> (r.error == NotFound && id !in services)
                         || (r.error == Unavailable && (sched(0).outcome != Q.Acked || sched(1).outcome != Q.Acked))
      ensures Follows(trace, StoreCourse(client, id, patch, sched), r.Ok?)
    {
      var patched;
      patched, trace := PauseAndPatch(c, client, id, patch, sched(0));
      if patched.Err? { return Err(patched.error), trace; }
      ghost var s1 := St();
      ghost var more;
      r, more := PauseAndWrite(c, client, patched.value, sched(1));
      Onward(trace, more, sched(1).others + [WriteService(client)], r.Ok?);
      Connect(c, old(St()), trace, s1, more, St());
      trace := trace + more;
    }

    /** Others act, then GetService reads. */
    method PauseAndGetService(c: Config, client: ClientId, id: Uuid, pause: Pause) returns (r: Result<Service, StoreError>)
      requires AllForeign(pause.others, Client(client)) && id in services
      modifies this, queue
      ensures St() == Run(c, old(St()), pause.others) && id in services
      ensures if pause.outcome == Q.Acked then r == Ok(services[id]) else r == Err(Unavailable)
    {
      ghost var s0 := St();
      Interleave(c, pause.others, Client(client));
      NameStays(c, s0, pause.others, id);
      if pause.outcome != Q.Acked { return Err(Unavailable); }
      if id !in services { return Err(NotFound); }
      return Ok(services[id]);
    }

    /** What follows the commit: the service is read back, and an audit event written. */
    method ReportUpdate(c: Config, client: ClientId, id: Uuid, sched: nat -> Pause)
      returns (r: Result<Service, StoreError>, ghost trace: seq<Action>)
      requires id in services && forall k :: AllForeign(sched(k).others, Client(client))
      modifies this, queue
      ensures St() == Run(c, old(St()), trace)
      ensures r.Ok? ==> sched(2).others <= trace && ServiceIs(Run(c, old(St()), sched(2).others), id, r.value)
                        && AuditEvent(ServiceUpdated, id, client, None) in audits
      ensures r.Err? ==> r.error == Unavailable && (sched(2).outcome != Q.Acked || sched(3).outcome != Q.Acked)
      ensures Follows(trace, UpdateReportCourse(client, id, sched), r.Ok?)
    {
      ghost var s0 := St();
      r := PauseAndGetService(c, client, id, sched(2));
      trace := sched(2).others;
      if r.Err? { return; }
      ghost var s1 := St();
      var logged;
      ghost var more;
      logged, more := PauseAndLog(c, client, AuditEvent(ServiceUpdated, id, client, None), sched(3));
      Onward(trace, more, sched(3).others + [AuditOther(AuditEvent(ServiceUpdated, id, client, None))], logged.Ok?);
      Connect(c, s0, trace, s1, more, St());
      trace := trace + more;
      if logged.Err? { r := Err(logged.error); }
    }

    /** UpdateService once the patch is known to be valid. */
    method StoreAndReport(c: Config, client: ClientId, id: Uuid, patch: ServicePatch, sched: nat -> Pause)
      returns (r: Result<Service, StoreError>, ghost trace: seq<Action>, ghost stored: seq<Action>)
      requires Keyed(services) && client !in writes && ValidatePatch(c.syntax, patch).None?
      requires forall k :: AllForeign(sched(k).others, Client(client))
      modifies this, queue
      ensures St() == Run(c, old(St()), trace)
      ensures r.Ok? ==> sched(0).others <= stored <= trace
      ensures r.Ok? ==> PatchStored(Run(c, old(St()), sched(0).others), Run(c, old(St()), stored), id, patch)
      ensures r.Ok? ==> ServiceIs(Run(c, Run(c, old(St()), stored), sched(2).others), id, r.value)
      ensures r.Ok? ==> AuditEvent(ServiceUpdated, id, client, None) in audits
      ensures r.Err? ==> (r.error == NotFound && id !in services)
                         || (r.error == Unavailable && !FourAcked(sched))
      ensures Follows(trace, UpdateCourse(client, id, patch, sched), r.Ok?)
      ensures r.Ok? ==> stored == StoreCourse(client, id, patch, sched)
    {
      var written;
      written, stored := StorePatch(c, client, id, patch, sched);
      if written.Err? { return Err(written.error), stored, stored; }
      ghost var s1 := St();
      ghost var more;
      r, more := ReportUpdate(c, client, id, sched);
      Onward(stored, more, UpdateReportCourse(client, id, sched), r.Ok?);
      Connect(c, old(St()), stored, s1, more, St());
      trace := stored + more;
    }

    /** The use case. stored is the part of the run up to the commit: what was stored then is the patch applied
        to what this call had read, whatever others wrote in between; what the call answers is what it read
        back, which others may have changed since. */
    method UpdateService(c: Config, client: ClientId, id: Uuid, patch: ServicePatch, sched: nat -> Pause)
      returns (r: Result<Service, UpdateError>, ghost trace: seq<Action>, ghost stored: seq<Action>)
      requires Keyed(services) && client !in writes
      requires forall k :: AllForeign(sched(k).others, Client(client))
      modifies this, queue
      ensures St() == Run(c, old(St()), trace)
      // It issues these statements in this order, each once, and no more of them after a failure.
      ensures Follows(trace, UpdateCourse(client, id, patch, sched), r.Ok?)
      ensures r.Ok? ==> stored == StoreCourse(client, id, patch, sched)
      ensures r.Ok? ==> PatchStored(Run(c, old(St()), sched(0).others), Run(c, old(St()), stored), id, patch)
      ensures r.Ok? ==> ServiceIs(Run(c, Run(c, old(St()), stored), sched(2).others), id, r.value)
      ensures r.Ok? ==> AuditEvent(ServiceUpdated, id, client, None) in audits
      ensures ValidatePatch(c.syntax, patch).Some? <==> r.Err? && r.error.Invalid?
      ensures r.Err? ==>
                match r.error
                case Invalid(reason) => St() == old(St()) && ValidatePatch(c.syntax, patch) == Some(reason)
                case NotStored(NotFound) => id !in services
                case NotStored(Unavailable) => !FourAcked(sched)
                case NotStored(_) => false
      ensures ValidatePatch(c.syntax, patch).None? && id in old(services) && FourAcked(sched) ==> r.Ok?
    {
      var invalid := ValidatePatch(c.syntax, patch);
      if invalid.Some? { return Err(Invalid(invalid.value)), [], []; }
      var answer;
      answer, trace, stored := StoreAndReport(c, client, id, patch, sched);
      if id in old(services) { NameStays(c, old(St()), trace, id); }
      r := if answer.Ok? then Ok(answer.value) else Err(NotStored(answer.error));
    }
  }

  predicate ServiceIs(s: Sys, id: Uuid, service: Service) { id in s.services && s.services[id] == service }

  /** The stored service is the patch applied to what it was in the state read. */
  predicate PatchStored(read: Sys, s: Sys, id: Uuid, patch: ServicePatch) {
    id in read.services && ServiceIs(s, id, Patched(read.services[id], patch))
  }

  /** The four database calls of an update were acknowledged. */
  ghost predicate FourAcked(sched: nat -> Pause) {
    sched(0).outcome == sched(1).outcome == sched(2).outcome == sched(3).outcome == Q.Acked
  }

  /** The insert of one of the first n rows fails. */
  predicate Fails(badRow: Option<nat>, n: nat) { badRow.Some? && badRow.value < n }

  /** A transaction rolled back is one not done. */
  function SaveOutcome(pause: Pause, n: nat): Q.Outcome {
    if Fails(pause.badRow, n) then Q.Refused else pause.outcome
  }

  datatype Detail = Detail(candidate: Candidate, decision: Option<Decision>)

  function DetailOf(s: Sys, id: Uuid): Detail
    requires id in s.candidates
  {
    Detail(s.candidates[id], if id in s.decisions then Some(s.decisions[id]) else None)
  }

  predicate TellsOneStory(detail: Detail, id: Uuid) {
    && detail.candidate.id == id
    && (detail.decision.Some? <==> detail.candidate.status != CandidatePending)
    && (detail.decision.Some? ==>
          && detail.decision.value.candidateId == id
          && detail.decision.value.decision == detail.candidate.status
          && detail.decision.value.summary == detail.candidate.reason
          && detail.decision.value.snapshotId == detail.candidate.lastSnapshotId)
  }

  /** The verdict e is the one for what was latest among the snapshots. */
  predicate JudgedOn(e: Evaluation, candidate: Candidate, snapshots: map<Uuid, Snapshot>, latest: Option<Uuid>) {
    && e.HasVerdict? && e.candidate == candidate
    && Answers(snapshots, latest, candidate.serviceId)
    && e.snapshot == Found(snapshots, latest) && (e.status, e.reason) == Verdict(e.snapshot)
  }

  /** e was decided by the decision with that id. */
  predicate DecidedAs(s: Sys, e: Evaluation, decisionId: Uuid)
    requires e.HasVerdict?
  {
    var id := e.candidate.id;
    && id in s.candidates && id in s.decisions && s.decisions[id].id == decisionId && e.status != CandidatePending
    && s.candidates[id].serviceId == e.candidate.serviceId
    && s.candidates[id].status == e.status && s.candidates[id].reason == e.reason
    && s.candidates[id].lastSnapshotId == SnapshotId(e.snapshot)
  }

  /** The candidate was decided by the decision with that id, as the latest of the snapshots demands. */
  predicate StandsOn(s: Sys, id: Uuid, decisionId: Uuid, snapshots: map<Uuid, Snapshot>, latest: Option<Uuid>) {
    && id in s.candidates && id in s.decisions && s.decisions[id].id == decisionId
    && s.candidates[id].status != CandidatePending
    && Answers(snapshots, latest, s.candidates[id].serviceId)
    && (s.candidates[id].status, s.candidates[id].reason) == Verdict(Found(snapshots, latest))
    && s.candidates[id].lastSnapshotId == SnapshotId(Found(snapshots, latest))
  }

  lemma DecisionTaken(c: Config, s: Sys, client: ClientId, e: Evaluation, decisionId: Uuid, createdAt: Time, outcome: Q.Outcome)
    requires Gate.GateInv(s) && client in s.evaluations && s.evaluations[client] == e && e.HasVerdict?
    ensures var s', id := AfterDecision(s, client, decisionId, createdAt, outcome), e.candidate.id;
      && Gate.GateInv(s') && id in s.candidates
      && (outcome != Q.Refused && Commits(s, id, DecisionOf(e, decisionId, createdAt)) ==> DecidedAs(s', e, decisionId))
      && (s.candidates[id].status != CandidatePending ==> s'.candidates == s.candidates)
  {
    Gate.DecisionKeepsGate(s, client, decisionId, createdAt, outcome);
    assert Gate.EvaluationOk(s.candidates, e);
    assert Gate.CandidateOk(s.candidates, s.decisions, e.candidate.id);
  }

  lemma Connect(c: Config, s0: Sys, a: seq<Action>, s1: Sys, b: seq<Action>, s2: Sys)
    requires s1 == Run(c, s0, a) && s2 == Run(c, s1, b)
    ensures s2 == Run(c, s0, a + b)
  {
    RunConcat(c, s0, a, b);
  }

  /** Candidates stay, and so do verdicts. */
  lemma {:induction false} KeepsCandidate(c: Config, s: Sys, actions: seq<Action>, id: Uuid)
    requires Gate.GateInv(s)
    ensures var s' := Run(c, s, actions);
      && Gate.GateInv(s')
      && (id in s.candidates ==> id in s'.candidates)
      && (id in s.candidates && s.candidates[id].status != CandidatePending ==> Gate.SameVerdict(s, s', id))
  {
    if actions == [] {
      if id in s.candidates { assert Gate.CandidateOk(s.candidates, s.decisions, id); }
    } else {
      var before := actions[..|actions| - 1];
      KeepsCandidate(c, s, before, id);
      Gate.StepKeepsGate(c, Run(c, s, before), actions[|actions| - 1]);
      if id in s.candidates { Gate.StatusStep(c, Run(c, s, before), actions[|actions| - 1], id); }
    }
  }

  /** Why the read of a pending candidate is refused. */
  predicate Refusal(s: Sys, id: Uuid, error: StoreError, outcome: Q.Outcome) {
    match error
    case NotFound => id !in s.candidates
    case StateConflict => id in s.candidates && s.candidates[id].status != CandidatePending
    case ConstraintViolation => false
    case Unavailable => outcome != Q.Acked
  }

  /** The decision id belongs to the decision about another candidate. */
  predicate IdTaken(decisions: map<Uuid, Decision>, id: Uuid, decisionId: Uuid) {
    exists o <- decisions :: o != id && decisions[o].id == decisionId
  }

  /** Why the save of a decision about a stored candidate is refused. */
  predicate DecisionRefused(s: Sys, id: Uuid, decisionId: Uuid, error: StoreError, outcome: Q.Outcome) {
    match error
    case NotFound => false
    case StateConflict => id in s.candidates && s.candidates[id].status != CandidatePending
    case ConstraintViolation => IdTaken(s.decisions, id, decisionId)
    case Unavailable => outcome != Q.Acked
  }

  /** All five database calls of the use case were acknowledged. */
  ghost predicate FiveAcked(sched: nat -> Pause) {
    sched(0).outcome == sched(1).outcome == sched(2).outcome == sched(3).outcome == sched(4).outcome == Q.Acked
  }

  /** Why the use case is refused. */
  ghost predicate Explained(s: Sys, id: Uuid, decisionId: Uuid, error: StoreError, sched: nat -> Pause) {
    match error
    case NotFound => id !in s.candidates
    case StateConflict => id in s.candidates && s.candidates[id].status != CandidatePending
    case ConstraintViolation => IdTaken(s.decisions, id, decisionId)
    case Unavailable => !FiveAcked(sched)
  }

  /** The trace is the course, or, unless it is whole, stops somewhere on it. */
  ghost predicate Follows(trace: seq<Action>, course: seq<Action>, whole: bool) {
    trace <= course && (whole ==> trace == course)
  }

  lemma Onward(front: seq<Action>, more: seq<Action>, rest: seq<Action>, whole: bool)
    requires Follows(more, rest, whole)
    ensures Follows(front + more, front + rest, whole)
  {}

  /** What happens until the verdict is reached, if the candidate is pending at the first read. */
  ghost function ReadsAndVerdict(client: ClientId, id: Uuid, latest: Option<Uuid>, sched: nat -> Pause): seq<Action> {
    (sched(0).others + [FetchCandidate(client, id)]) + (sched(1).others + [FetchLatest(client, latest)])
  }

  /** What follows the commit. */
  ghost function ReportCourse(client: ClientId, id: Uuid, sched: nat -> Pause): seq<Action> {
    sched(3).others + (sched(4).others + [AuditOther(AuditEvent(CandidateEvaluated, id, client, None))])
  }

  /** What follows the verdict. */
  ghost function DecisionCourse(c: Config, s: Sys, client: ClientId, id: Uuid, decisionId: Uuid, sched: nat -> Pause): seq<Action> {
    var createdAt := Run(c, s, sched(2).others).q.clock;
    (sched(2).others + [SaveDecision(client, decisionId, createdAt, sched(2).outcome)]) + ReportCourse(client, id, sched)
  }

  /** The statements of the use case, and what others do between them. */
  ghost function Course(c: Config, s: Sys, client: ClientId, id: Uuid, decisionId: Uuid, latest: Option<Uuid>,
                        sched: nat -> Pause): seq<Action>
  {
    var judged := ReadsAndVerdict(client, id, latest, sched);
    judged + DecisionCourse(c, Run(c, s, judged), client, id, decisionId, sched)
  }

  /** A candidate that is pending in the end was pending at every moment since it was there. */
  lemma PendingSince(c: Config, s: Sys, first: seq<Action>, rest: seq<Action>, id: Uuid)
    requires Gate.GateInv(s)
    ensures var s0, s1 := Run(c, s, first), Run(c, s, first + rest);
      && (id in s.candidates ==> id in s0.candidates)
      && (id in s0.candidates && s0.candidates[id].status != CandidatePending ==>
            id in s1.candidates && s1.candidates[id].status != CandidatePending)
  {
    KeepsCandidate(c, s, first, id);
    KeepsCandidate(c, Run(c, s, first), rest, id);
    RunConcat(c, s, first, rest);
  }

  lemma Regroup(a: seq<Action>, x: seq<Action>, b: seq<Action>, d: seq<Action>)
    ensures (a + x) + b + d == a + (x + b + d)
  {}

  /** A candidate that is pending when the decision is saved was pending at the first read. */
  lemma Approach(c: Config, s: Sys, client: ClientId, id: Uuid, latest: Option<Uuid>, sched: nat -> Pause)
    requires Gate.GateInv(s)
    ensures var s0 := Run(c, s, sched(0).others);
      var s1 := Run(c, s, ReadsAndVerdict(client, id, latest, sched) + sched(2).others);
      && (id in s.candidates ==> id in s0.candidates)
      && (id in s0.candidates && s0.candidates[id].status != CandidatePending ==>
            id in s1.candidates && s1.candidates[id].status != CandidatePending)
  {
    var a, x := sched(0).others, [FetchCandidate(client, id)];
    var b, d := sched(1).others + [FetchLatest(client, latest)], sched(2).others;
    Regroup(a, x, b, d);
    PendingSince(c, s, a, x + b + d, id);
  }

  /** No call fails, and the candidate is pending when the decision, under a free id, is saved. */
  ghost predicate CanDecide(c: Config, s: Sys, client: ClientId, id: Uuid, decisionId: Uuid, latest: Option<Uuid>,
                            sched: nat -> Pause)
  {
    var s' := Run(c, s, ReadsAndVerdict(client, id, latest, sched) + sched(2).others);
    && FiveAcked(sched) && id in s.candidates
    && id in s'.candidates && s'.candidates[id].status == CandidatePending && !IdTaken(s'.decisions, id, decisionId)
  }

  lemma RunUpTo(c: Config, s: Sys, a: seq<Action>, b: seq<Action>, last: Action)
    ensures Run(c, s, (a + (b + [last]))[..|a + b|]) == Run(c, Run(c, s, a), b)
  {
    assert (a + (b + [last]))[..|a + b|] == a + b;
    RunConcat(c, s, a, b);
  }

  lemma Stands(c: Config, s0: Sys, front: seq<Action>, more: seq<Action>, read: nat, e: Evaluation, latest: Option<Uuid>, s: Sys,
               decisionId: Uuid)
    requires read <= |front| && e.HasVerdict? && DecidedAs(s, e, decisionId)
    requires JudgedOn(e, e.candidate, Run(c, s0, front[..read]).snapshots, latest)
    ensures StandsOn(s, e.candidate.id, decisionId, Run(c, s0, (front + more)[..read]).snapshots, latest)
  {
    assert (front + more)[..read] == front[..read];
  }

  lemma NoVerdict(c: Config, s: Sys, client: ClientId, id: Uuid, decisionId: Uuid, latest: Option<Uuid>, sched: nat -> Pause,
                  trace: seq<Action>, error: StoreError)
    requires Gate.GateInv(s)
    requires (trace == sched(0).others && Refusal(Run(c, s, trace), id, error, sched(0).outcome))
             || (error == Unavailable && sched(1).outcome != Q.Acked)
    ensures !CanDecide(c, s, client, id, decisionId, latest, sched)
  {
    Approach(c, s, client, id, latest, sched);
  }

  lemma NoDecision(c: Config, s: Sys, client: ClientId, id: Uuid, decisionId: Uuid, latest: Option<Uuid>, sched: nat -> Pause,
                   error: StoreError)
    requires var s1 := Run(c, s, ReadsAndVerdict(client, id, latest, sched));
      FiveAcked(sched) ==> DecisionRefused(Run(c, s1, sched(2).others), id, decisionId, error, Q.Acked)
    ensures !CanDecide(c, s, client, id, decisionId, latest, sched)
  {
    RunConcat(c, s, ReadsAndVerdict(client, id, latest, sched), sched(2).others);
  }

  /** How processing a job fails: its type is not supported, or the store refused. */
  datatype ProcessError = Unsupported | FromStore(error: StoreError)

  /** Why processJob ends at its first step. */
  predicate ReadRefused(s: Sys, h: Job, error: ProcessError, outcome: Q.Outcome) {
    match error
    case Unsupported => h.jobType != ServiceEvaluation
    case FromStore(Unavailable) => outcome != Q.Acked
    case FromStore(NotFound) => h.resourceId !in s.services
    case FromStore(_) => false
  }

  /** Why the save of a snapshot and its n check rows fails. */
  predicate SaveRefused(s: Sys, snapshotId: Uuid, n: nat, error: ProcessError, pause: Pause) {
    match error
    case FromStore(Unavailable) => pause.outcome != Q.Acked
    case FromStore(ConstraintViolation) => snapshotId in s.snapshots || Fails(pause.badRow, n)
    case _ => false
  }

  /** What happens until the snapshot is saved, if the service is read. */
  ghost function BeforeSaving(w: WorkerId, snapshotId: Uuid, sched: nat -> Pause): seq<Action> {
    (sched(0).others + [ReadService(w, true)]) + (sched(1).others + [RunChecks(w, snapshotId)])
  }

  ghost function SaveCourse(w: WorkerId, n: nat, sched: nat -> Pause): seq<Action> {
    (sched(2).others + [SaveEvaluation(w, SaveOutcome(sched(2), n))])
    + (sched(3).others + [AuditEvaluation(w, sched(3).outcome)])
  }

  /** The statements of processJob, and what others do between them. */
  ghost function ProcessCourse(w: WorkerId, snapshotId: Uuid, sched: nat -> Pause): seq<Action> {
    (sched(0).others + [ReadService(w, sched(0).outcome == Q.Acked)])
    + (sched(1).others + [RunChecks(w, snapshotId)]) + SaveCourse(w, 10, sched)
  }

  /** The worker is about to save what it computed for h. */
  predicate HasResultAt(s: Sys, w: WorkerId, h: Job) { AtJob(s, w, h) && ProgressOf(s, w).HasResult? }

  /** The worker got as far as the save, and what was saved before it is all there is in s'. */
  ghost predicate SaveUndone(c: Config, s: Sys, w: WorkerId, h: Job, snapshotId: Uuid, sched: nat -> Pause, s': Sys) {
    var s2 := Run(c, s, BeforeSaving(w, snapshotId, sched) + sched(2).others);
    s'.origins == s2.origins && HasResultAt(s2, w, h)
  }

  /** The three database calls of processing were acknowledged. */
  ghost predicate ThreeAcked(sched: nat -> Pause) {
    sched(0).outcome == sched(2).outcome == sched(3).outcome == Q.Acked
  }

  /** Why processing fails: the type of the job, an unknown service, a failed call, a snapshot id in use or a
      check row that is refused. */
  ghost predicate ProcessRefused(c: Config, s: Sys, w: WorkerId, h: Job, snapshotId: Uuid, sched: nat -> Pause,
                                 error: ProcessError)
  {
    match error
    case Unsupported => h.jobType != ServiceEvaluation
    case FromStore(NotFound) => h.resourceId !in Run(c, s, sched(0).others).services
    case FromStore(Unavailable) => !ThreeAcked(sched)
    case FromStore(ConstraintViolation) =>
      Fails(sched(2).badRow, 10) || snapshotId in Run(c, s, BeforeSaving(w, snapshotId, sched) + sched(2).others).snapshots
    case FromStore(StateConflict) => false
  }

  /** A supported job of a stored service, no failing call, a snapshot id that is free when it is saved. */
  ghost predicate CanProcess(c: Config, s: Sys, w: WorkerId, h: Job, snapshotId: Uuid, sched: nat -> Pause) {
    && h.jobType == ServiceEvaluation && h.resourceId in s.services
    && ThreeAcked(sched) && !Fails(sched(2).badRow, 10)
    && snapshotId !in Run(c, s, BeforeSaving(w, snapshotId, sched) + sched(2).others).snapshots
  }

  lemma NotRead(c: Config, s: Sys, w: WorkerId, h: Job, snapshotId: Uuid, sched: nat -> Pause, error: ProcessError)
    requires ReadRefused(Run(c, s, sched(0).others), h, error, sched(0).outcome)
    ensures ProcessRefused(c, s, w, h, snapshotId, sched, error) && !CanProcess(c, s, w, h, snapshotId, sched)
  {
    if h.resourceId in s.services { NameStays(c, s, sched(0).others, h.resourceId); }
  }

  lemma NotSaved(c: Config, s: Sys, w: WorkerId, h: Job, snapshotId: Uuid, sched: nat -> Pause, error: ProcessError, s': Sys)
    requires var s2 := Run(c, Run(c, s, BeforeSaving(w, snapshotId, sched)), sched(2).others);
      && (SaveRefused(s2, snapshotId, 10, error, sched(2))
          || (error == FromStore(Unavailable) && sched(3).outcome != Q.Acked))
      && (error == FromStore(ConstraintViolation) ==> s'.origins == s2.origins && HasResultAt(s2, w, h))
    ensures ProcessRefused(c, s, w, h, snapshotId, sched, error) && !CanProcess(c, s, w, h, snapshotId, sched)
    ensures error == FromStore(ConstraintViolation) ==> SaveUndone(c, s, w, h, snapshotId, sched, s')
  {
    RunConcat(c, s, BeforeSaving(w, snapshotId, sched), sched(2).others);
  }

  /** The snapshot and its check rows are in the tables. */
  predicate HasRows(s: Sys, snapshot: Snapshot, rows: seq<CheckResult>) {
    && snapshot.id in s.snapshots && s.snapshots[snapshot.id] == snapshot
    && snapshot.id in s.checks && s.checks[snapshot.id] == rows
  }

  /** The snapshot was made under the claim that issued h. */
  predicate MadeUnder(s: Sys, id: Uuid, h: Job) {
    id in s.origins && s.origins[id].job == h.id && s.origins[id].attempt == h.attempts
  }

  /** Snapshots and their checks are never overwritten. */
  lemma {:induction false} KeepsRows(c: Config, s: Sys, actions: seq<Action>, snapshot: Snapshot, rows: seq<CheckResult>, h: Job)
    requires HasRows(s, snapshot, rows) && MadeUnder(s, snapshot.id, h)
    ensures HasRows(Run(c, s, actions), snapshot, rows) && MadeUnder(Run(c, s, actions), snapshot.id, h)
  {
    if actions != [] {
      var before, a := actions[..|actions| - 1], actions[|actions| - 1];
      KeepsRows(c, s, before, snapshot, rows, h);
      var s1 := Run(c, s, before);
      if Enabled(c, s1, a) && a.SaveEvaluation? {
        assert Do(c, s1, a) == AfterSave(s1, a.worker, a.outcome);
      } else {
        Evidence.OthersKeepSnapshots(c, s1, a);
      }
    }
  }

  /** The statements of an update up to its commit, those after it, and all of them. */
  ghost function StoreCourse(client: ClientId, id: Uuid, patch: ServicePatch, sched: nat -> Pause): seq<Action> {
    (sched(0).others + [FetchForUpdate(client, id, patch)]) + (sched(1).others + [WriteService(client)])
  }

  ghost function UpdateReportCourse(client: ClientId, id: Uuid, sched: nat -> Pause): seq<Action> {
    sched(2).others + (sched(3).others + [AuditOther(AuditEvent(ServiceUpdated, id, client, None))])
  }

  ghost function UpdateCourse(client: ClientId, id: Uuid, patch: ServicePatch, sched: nat -> Pause): seq<Action> {
    StoreCourse(client, id, patch, sched) + UpdateReportCourse(client, id, sched)
  }

  datatype UpdateError = Invalid(reason: ValidationError) | NotStored(error: StoreError)

  lemma FetchForUpdateMoves(c: Config, s0: Sys, others: seq<Action>, client: ClientId, id: Uuid, patch: ServicePatch)
    requires Enabled(c, Run(c, s0, others), FetchForUpdate(client, id, patch))
    ensures var s := Run(c, s0, others);
      s.(tick := s.tick + 1, writes := s.writes[client := Patched(s.services[id], patch)])
      == Run(c, s0, others + [FetchForUpdate(client, id, patch)])
  {
    DoesFetchForUpdate(c, Run(c, s0, others), client, id, patch);
    RunOne(c, s0, others, FetchForUpdate(client, id, patch));
  }

  lemma WriteMoves(c: Config, s0: Sys, others: seq<Action>, client: ClientId)
    requires var s := Run(c, s0, others); client in s.writes && s.writes[client].id in s.services
    requires var s := Run(c, s0, others); Keyed(s.services) && s.services[s.writes[client].id].name == s.writes[client].name
    ensures var s := Run(c, s0, others); var s' := AfterWrite(s, client);
      && s' == Run(c, s0, others + [WriteService(client)]) && Keyed(s'.services)
      && ServiceIs(s', s.writes[client].id, s.writes[client])
  {
    DoesWrite(c, Run(c, s0, others), client);
    RunOne(c, s0, others, WriteService(client));
  }
}
