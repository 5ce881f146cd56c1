/** The whole control plane as a state machine over one database: API clients registering and patching
    services, queueing evaluations and deciding on deployment candidates, and workers turning jobs into
    snapshots and audit events. An action is one SQL statement or transaction of one caller. */
module ControlPlane {
  import opened Wrappers
  import opened Jobs
  import Q = Queue
  import opened Domain
  import opened PlatformChecks

  type ClientId = nat

  datatype CandidateStatus = CandidatePending | CandidateApproved | CandidateRejected

  /** The decision messages, as the values candidate and decision must agree on. */
  datatype Reason = AwaitingEvaluation | NoSnapshotYet | LatestIsReady | LatestIs(state: ReadinessState)

  datatype Candidate = Candidate(
    id: Uuid, serviceId: Uuid, status: CandidateStatus, reason: Reason, lastSnapshotId: Option<Uuid>, evaluatedAt: Option<Time>)

  datatype Decision = Decision(
    id: Uuid, candidateId: Uuid, snapshotId: Option<Uuid>, decision: CandidateStatus, summary: Reason, createdAt: Time)

  datatype EventType =
    | ServiceRegistered | ServiceUpdated | EvaluationRequested | ServiceEvaluated | CandidateCreated | CandidateEvaluated

  /** details is the snapshot_id entry of the details column. */
  datatype AuditEvent = AuditEvent(eventType: EventType, resourceId: Uuid, requestId: Uuid, details: Option<Uuid>)

  /** Where a worker stands in ProcessServiceEvaluationJob for the job at the head of its batch; seen is
      the tick at which it read the service. */
  datatype Progress =
    | Start
    | HasService(service: Service, seen: nat)
    | HasResult(snapshot: Snapshot, checks: seq<CheckResult>, service: Service, seen: nat)
    | HasSaved(snapshotId: Uuid)
    | ReturnedNil
    | ReturnedError

  /** Where a client stands in EvaluateDeploymentCandidate. */
  datatype Evaluation =
    | HasCandidate(candidate: Candidate, started: nat)
    | HasVerdict(candidate: Candidate, snapshot: Option<Snapshot>, status: CandidateStatus, reason: Reason,
                 started: nat, read: nat)
    | Finished

  /** History: the claim and the service record a snapshot was made from. */
  datatype Origin = Origin(job: Uuid, attempt: nat, service: Service, seen: nat)

  /** History: the ticks at which the evaluation that decided a candidate started, read and committed. */
  datatype Trail = Trail(started: nat, read: nat, committed: nat)

  datatype Sys = Sys(
    q: Q.State,
    services: map<Uuid, Service>,
    snapshots: map<Uuid, Snapshot>,
    checks: map<Uuid, seq<CheckResult>>,
    audits: seq<AuditEvent>,
    candidates: map<Uuid, Candidate>,
    decisions: map<Uuid, Decision>,
    progress: map<WorkerId, Progress>,
    writes: map<ClientId, Service>,
    evaluations: map<ClientId, Evaluation>,
    origins: map<Uuid, Origin>,
    trails: map<Uuid, Trail>,
    tick: nat)

  const INIT := Sys(Q.INIT, map[], map[], map[], [], map[], map[], map[], map[], map[], map[], map[], 0)

  datatype Action =
    | Queue(step: Q.Step)
    | ReadService(worker: WorkerId, ok: bool)
    | RunChecks(worker: WorkerId, snapshotId: Uuid)
    | SaveEvaluation(worker: WorkerId, outcome: Q.Outcome)
    | AuditEvaluation(worker: WorkerId, outcome: Q.Outcome)
    | Register(id: Uuid, input: ServiceInput)
    | FetchForUpdate(client: ClientId, service: Uuid, patch: ServicePatch)
    | WriteService(client: ClientId)
    | CreateCandidate(id: Uuid, service: Uuid)
    | FetchCandidate(client: ClientId, candidate: Uuid)
    | FetchLatest(client: ClientId, latest: Option<Uuid>)
    | SaveDecision(client: ClientId, decisionId: Uuid, createdAt: Time, outcome: Q.Outcome)
    | AuditOther(event: AuditEvent)

  /** Everything fixed in a run: the syntax of addresses and URLs, and the least lease of the fleet. */
  datatype Config = Config(syntax: Syntax, lease: nat)

  function Batch(s: Sys, w: WorkerId): seq<Job> { Q.Batch(s.q, w) }

  function ProgressIn(progress: map<WorkerId, Progress>, w: WorkerId): Progress {
    if w in progress then progress[w] else Start
  }

  function ProgressOf(s: Sys, w: WorkerId): Progress { ProgressIn(s.progress, w) }

  /** ORDER BY evaluated_at DESC LIMIT 1, any row on a tie. */
  predicate IsLatest(snapshots: map<Uuid, Snapshot>, id: Uuid, service: Uuid) {
    && id in snapshots && snapshots[id].serviceId == service
    && forall o <- snapshots :: snapshots[o].serviceId == service ==> snapshots[o].evaluatedAt <= snapshots[id].evaluatedAt
  }

  predicate Answers(snapshots: map<Uuid, Snapshot>, latest: Option<Uuid>, service: Uuid) {
    match latest
    case Some(id) => IsLatest(snapshots, id, service)
    case None => forall o <- snapshots :: snapshots[o].serviceId != service
  }

  /** The steps of a worker's loop follow processJob: a mark reports how it ended. */
  predicate QueueAllowed(s: Sys, step: Q.Step) {
    match step
    case Enqueue(_, _, resource, _, _, _) => resource in s.services
    case MarkCompleted(w, _) => ProgressOf(s, w).ReturnedNil?
    case MarkFailed(w, _, _) => ProgressOf(s, w).ReturnedError?
    case _ => true
  }

  predicate Enabled(c: Config, s: Sys, a: Action) {
    match a
    case Queue(step) => Q.Enabled(c.lease, s.q, step) && QueueAllowed(s, step)
    case ReadService(w, _) => Batch(s, w) != [] && ProgressOf(s, w).Start?
    case RunChecks(w, _) => Batch(s, w) != [] && ProgressOf(s, w).HasService?
    case SaveEvaluation(w, _) => Batch(s, w) != [] && ProgressOf(s, w).HasResult?
    case AuditEvaluation(w, _) => Batch(s, w) != [] && ProgressOf(s, w).HasSaved?
    case Register(id, input) =>
      && ValidateInput(c.syntax, input).None?
      && id !in s.services && forall o <- s.services :: s.services[o].name != input.name
    case FetchForUpdate(client, service, patch) =>
      client !in s.writes && service in s.services && ValidatePatch(c.syntax, patch).None?
    case WriteService(client) => client in s.writes && s.writes[client].id in s.services
    case CreateCandidate(id, service) => service in s.services && id !in s.candidates
    case FetchCandidate(client, candidate) =>
      client !in s.evaluations && candidate in s.candidates && s.candidates[candidate].status == CandidatePending
    case FetchLatest(client, latest) =>
      && client in s.evaluations && s.evaluations[client].HasCandidate?
      && Answers(s.snapshots, latest, s.evaluations[client].candidate.serviceId)
    case SaveDecision(client, _, _, _) => client in s.evaluations && s.evaluations[client].HasVerdict?
    case AuditOther(event) => event.eventType != ServiceEvaluated
  }

  // ----- The worker's statements -----

  function StepWorker(step: Q.Step): Option<WorkerId> {
    match step
    case Claim(w, _, _, _, _, _, _) => Some(w)
    case MarkCompleted(w, _) => Some(w)
    case MarkFailed(w, _, _) => Some(w)
    case Abandon(w) => Some(w)
    case _ => None
  }

  function AfterQueue(c: Config, s: Sys, step: Q.Step): Sys {
    var w := StepWorker(step);
    s.(tick := s.tick + 1, q := Q.Do(c.lease, s.q, step),
       progress := if w.Some? then s.progress[w.value := Start] else s.progress)
  }

  function AfterRead(s: Sys, w: WorkerId, ok: bool): Sys
    requires Batch(s, w) != []
  {
    var h := Batch(s, w)[0];
    s.(tick := s.tick + 1, progress := s.progress[w :=
         if h.jobType != ServiceEvaluation || !ok || h.resourceId !in s.services then ReturnedError
         else HasService(s.services[h.resourceId], s.tick)])
  }

  function AfterChecks(s: Sys, w: WorkerId, snapshotId: Uuid): Sys
    requires Batch(s, w) != [] && ProgressOf(s, w).HasService?
  {
    var p := ProgressOf(s, w);
    s.(tick := s.tick + 1, progress := s.progress[w := HasResult(SnapshotOf(p.service, Batch(s, w)[0].id, s.q.clock, snapshotId),
                                             ChecksOf(p.service, s.q.clock, snapshotId), p.service, p.seen)])
  }

  /** One transaction for the snapshot and its check rows; a snapshot id in use violates the primary key. */
  function AfterSave(s: Sys, w: WorkerId, outcome: Q.Outcome): Sys
    requires Batch(s, w) != [] && ProgressOf(s, w).HasResult?
  {
    var p, h := ProgressOf(s, w), Batch(s, w)[0];
    var id := p.snapshot.id;
    var done := !outcome.Refused? && id !in s.snapshots;
    s.(tick := s.tick + 1,
       snapshots := if done then s.snapshots[id := p.snapshot] else s.snapshots,
       checks := if done then s.checks[id := p.checks] else s.checks,
       origins := if done then s.origins[id := Origin(h.id, h.attempts, p.service, p.seen)] else s.origins,
       progress := s.progress[w := if done && outcome.Acked? then HasSaved(id) else ReturnedError])
  }

  function EvaluatedEvent(h: Job, snapshotId: Uuid): AuditEvent {
    AuditEvent(ServiceEvaluated, h.resourceId, h.id, Some(snapshotId))
  }

  function AfterAudit(s: Sys, w: WorkerId, outcome: Q.Outcome): Sys
    requires Batch(s, w) != [] && ProgressOf(s, w).HasSaved?
  {
    s.(tick := s.tick + 1,
       audits := if outcome.Refused? then s.audits
                 else s.audits + [EvaluatedEvent(Batch(s, w)[0], ProgressOf(s, w).snapshotId)],
       progress := s.progress[w := if outcome.Acked? then ReturnedNil else ReturnedError])
  }

  // ----- The client's statements -----

  /** UPDATE services writes every column but the name. */
  function AfterWrite(s: Sys, client: ClientId): Sys
    requires client in s.writes && s.writes[client].id in s.services
  {
    var record := s.writes[client];
    s.(tick := s.tick + 1, services := s.services[record.id := record.(name := s.services[record.id].name)],
       writes := s.writes - {client})
  }

  function NewCandidate(id: Uuid, service: Uuid): Candidate {
    Candidate(id, service, CandidatePending, AwaitingEvaluation, None, None)
  }

  /** The switch of EvaluateDeploymentCandidate. */
  function Verdict(snapshot: Option<Snapshot>): (CandidateStatus, Reason) {
    match snapshot
    case None => (CandidateRejected, NoSnapshotYet)
    case Some(snap) =>
      if snap.state == Ready then (CandidateApproved, LatestIsReady) else (CandidateRejected, LatestIs(snap.state))
  }

  function Found(snapshots: map<Uuid, Snapshot>, latest: Option<Uuid>): Option<Snapshot> {
    if latest.Some? && latest.value in snapshots then Some(snapshots[latest.value]) else None
  }

  function SnapshotId(snapshot: Option<Snapshot>): Option<Uuid> {
    if snapshot.Some? then Some(snapshot.value.id) else None
  }

  function AfterFetchLatest(s: Sys, client: ClientId, latest: Option<Uuid>): Sys
    requires client in s.evaluations && s.evaluations[client].HasCandidate?
  {
    var e := s.evaluations[client];
    var found := Found(s.snapshots, latest);
    s.(tick := s.tick + 1, evaluations := s.evaluations[client :=
         HasVerdict(e.candidate, found, Verdict(found).0, Verdict(found).1, e.started, s.tick)])
  }

  /** INSERT ... ON CONFLICT (candidate_id) DO UPDATE keeps the id of the row it overwrites. */
  function Upsert(decisions: map<Uuid, Decision>, d: Decision): map<Uuid, Decision> {
    decisions[d.candidateId := if d.candidateId in decisions then d.(id := decisions[d.candidateId].id) else d]
  }

  /** The primary key of promotion_decisions. */
  predicate DecisionIdFree(decisions: map<Uuid, Decision>, d: Decision) {
    forall o <- decisions :: o != d.candidateId ==> decisions[o].id != d.id
  }

  /** SavePromotionDecision goes through: the candidate is still pending and the insert violates no key. */
  predicate Commits(s: Sys, candidate: Uuid, d: Decision) {
    && candidate in s.candidates && s.candidates[candidate].status == CandidatePending
    && DecisionIdFree(s.decisions, d)
  }

  function DecidedCandidate(c: Candidate, d: Decision, at: Time): Candidate {
    c.(status := d.decision, reason := d.summary, lastSnapshotId := d.snapshotId, evaluatedAt := Some(at))
  }

  function DecisionOf(e: Evaluation, decisionId: Uuid, createdAt: Time): Decision
    requires e.HasVerdict?
  {
    Decision(decisionId, e.candidate.id, SnapshotId(e.snapshot), e.status, e.reason, createdAt)
  }

  function AfterDecision(s: Sys, client: ClientId, decisionId: Uuid, createdAt: Time, outcome: Q.Outcome): Sys
    requires client in s.evaluations && s.evaluations[client].HasVerdict?
  {
    var e := s.evaluations[client];
    var id, d := e.candidate.id, DecisionOf(e, decisionId, createdAt);
    var done := !outcome.Refused? && Commits(s, id, d);
    s.(tick := s.tick + 1, evaluations := s.evaluations[client := Finished],
       candidates := if done then s.candidates[id := DecidedCandidate(s.candidates[id], d, s.q.clock)] else s.candidates,
       decisions := if done then Upsert(s.decisions, d) else s.decisions,
       trails := if done then s.trails[id := Trail(e.started, e.read, s.tick)] else s.trails)
  }

  function Next(c: Config, s: Sys, a: Action): Sys
    requires Enabled(c, s, a)
  {
    match a
    case Queue(step) => AfterQueue(c, s, step)
    case ReadService(w, ok) => AfterRead(s, w, ok)
    case RunChecks(w, snapshotId) => AfterChecks(s, w, snapshotId)
    case SaveEvaluation(w, outcome) => AfterSave(s, w, outcome)
    case AuditEvaluation(w, outcome) => AfterAudit(s, w, outcome)
    case Register(id, input) => s.(tick := s.tick + 1, services := s.services[id := Registered(id, input)])
    case FetchForUpdate(client, service, patch) =>
      s.(tick := s.tick + 1, writes := s.writes[client := Patched(s.services[service], patch)])
    case WriteService(client) => AfterWrite(s, client)
    case CreateCandidate(id, service) => s.(tick := s.tick + 1, candidates := s.candidates[id := NewCandidate(id, service)])
    case FetchCandidate(client, candidate) =>
      s.(tick := s.tick + 1, evaluations := s.evaluations[client := HasCandidate(s.candidates[candidate], s.tick)])
    case FetchLatest(client, latest) => AfterFetchLatest(s, client, latest)
    case SaveDecision(client, decisionId, createdAt, outcome) => AfterDecision(s, client, decisionId, createdAt, outcome)
    case AuditOther(event) => s.(tick := s.tick + 1, audits := s.audits + [event])
  }

  /** An action that is not enabled is skipped; either way a tick passes. */
  function Do(c: Config, s: Sys, a: Action): Sys {
    if Enabled(c, s, a) then Next(c, s, a) else s.(tick := s.tick + 1)
  }

  function Run(c: Config, s: Sys, actions: seq<Action>): Sys {
    if actions == [] then s else Do(c, Run(c, s, actions[..|actions| - 1]), actions[|actions| - 1])
  }

  lemma RunOne(c: Config, s: Sys, actions: seq<Action>, a: Action)
    ensures Run(c, s, actions + [a]) == Do(c, Run(c, s, actions), a)
  {
    assert (actions + [a])[..|actions|] == actions;
  }

  lemma {:induction false} RunConcat(c: Config, s: Sys, a: seq<Action>, b: seq<Action>)
    ensures Run(c, s, a + b) == Run(c, Run(c, s, a), b)
  {
    if b == [] {
      assert a + b == a;
    } else {
      assert (a + b)[..|a + b| - 1] == a + b[..|b| - 1];
      RunConcat(c, s, a, b[..|b| - 1]);
    }
  }

  /** The state after the first n actions, and after one more. */
  lemma RunNext(c: Config, s: Sys, actions: seq<Action>, n: nat)
    requires n < |actions|
    ensures Run(c, s, actions[..n + 1]) == Do(c, Run(c, s, actions[..n]), actions[n])
  {
    assert actions[..n + 1] == actions[..n] + [actions[n]];
    RunOne(c, s, actions[..n], actions[n]);
  }

  lemma RunSpan(c: Config, s: Sys, actions: seq<Action>, i: nat, j: nat)
    requires i <= j <= |actions|
    ensures Run(c, s, actions[..j]) == Run(c, Run(c, s, actions[..i]), actions[i..j])
  {
    assert actions[..j] == actions[..i] + actions[i..j];
    RunConcat(c, s, actions[..i], actions[i..j]);
  }

  // ----- The queue inside -----

  lemma OthersKeepQueue(c: Config, s: Sys, a: Action)
    requires !a.Queue? || !Enabled(c, s, a)
    ensures Do(c, s, a).q == s.q
  {
    if Enabled(c, s, a) {
      match a
      case SaveEvaluation(w, outcome) => assert Do(c, s, a) == AfterSave(s, w, outcome);
      case SaveDecision(client, d, at, outcome) => assert Do(c, s, a) == AfterDecision(s, client, d, at, outcome);
      case _ =>
    }
  }

  /** The queue inside any run of the system runs as the queue machine does, so everything proved of the queue
      holds in it. */
  lemma {:induction false} QueueRunIn(c: Config, s: Sys, actions: seq<Action>) returns (steps: seq<Q.Step>)
    ensures Run(c, s, actions).q == Q.Run(c.lease, s.q, steps)
  {
    steps := [];
    if actions != [] {
      var before, a := actions[..|actions| - 1], actions[|actions| - 1];
      steps := QueueRunIn(c, s, before);
      if a.Queue? && Enabled(c, Run(c, s, before), a) {
        Q.RunOne(c.lease, s.q, steps, a.step);
        steps := steps + [a.step];
      } else {
        OthersKeepQueue(c, Run(c, s, before), a);
      }
    }
  }

  lemma ReachableQueueInv(c: Config, actions: seq<Action>)
    ensures Q.Inv(c.lease, Run(c, INIT, actions).q)
  {
    var steps := QueueRunIn(c, INIT, actions);
    Q.RunKeepsInv(c.lease, Q.INIT, steps);
  }

  // ----- History -----

  /** The state without its history. */
  function Forgotten(s: Sys): Sys {
    s.(q := s.q.(claims := map[]), origins := map[], trails := map[])
  }

  lemma QueueHistoryUnread(lease: nat, q: Q.State, step: Q.Step)
    ensures Q.Enabled(lease, q.(claims := map[]), step) <==> Q.Enabled(lease, q, step)
    ensures Q.Do(lease, q.(claims := map[]), step).(claims := map[]) == Q.Do(lease, q, step).(claims := map[])
  {}

  lemma EnabledForgotten(c: Config, s: Sys, a: Action)
    ensures Enabled(c, Forgotten(s), a) <==> Enabled(c, s, a)
  {
    if a.Queue? { QueueHistoryUnread(c.lease, s.q, a.step); }
  }

  lemma QueueForgotten(c: Config, s: Sys, step: Q.Step)
    ensures Forgotten(AfterQueue(c, Forgotten(s), step)) == Forgotten(AfterQueue(c, s, step))
  {
    QueueHistoryUnread(c.lease, s.q, step);
  }

  lemma SaveForgotten(s: Sys, w: WorkerId, outcome: Q.Outcome)
    requires Batch(s, w) != [] && ProgressOf(s, w).HasResult?
    ensures Forgotten(AfterSave(Forgotten(s), w, outcome)) == Forgotten(AfterSave(s, w, outcome))
  {}

  lemma DecisionForgotten(s: Sys, client: ClientId, decisionId: Uuid, createdAt: Time, outcome: Q.Outcome)
    requires client in s.evaluations && s.evaluations[client].HasVerdict?
    ensures Forgotten(AfterDecision(Forgotten(s), client, decisionId, createdAt, outcome))
            == Forgotten(AfterDecision(s, client, decisionId, createdAt, outcome))
  {}

  lemma ReadForgotten(s: Sys, w: WorkerId, ok: bool)
    requires Batch(s, w) != []
    ensures Forgotten(AfterRead(Forgotten(s), w, ok)) == Forgotten(AfterRead(s, w, ok))
  {}

  lemma ChecksForgotten(s: Sys, w: WorkerId, snapshotId: Uuid)
    requires Batch(s, w) != [] && ProgressOf(s, w).HasService?
    ensures Forgotten(AfterChecks(Forgotten(s), w, snapshotId)) == Forgotten(AfterChecks(s, w, snapshotId))
  {}

  lemma AuditForgotten(s: Sys, w: WorkerId, outcome: Q.Outcome)
    requires Batch(s, w) != [] && ProgressOf(s, w).HasSaved?
    ensures Forgotten(AfterAudit(Forgotten(s), w, outcome)) == Forgotten(AfterAudit(s, w, outcome))
  {}

  lemma WriteForgotten(s: Sys, client: ClientId)
    requires client in s.writes && s.writes[client].id in s.services
    ensures Forgotten(AfterWrite(Forgotten(s), client)) == Forgotten(AfterWrite(s, client))
  {}

  lemma LatestForgotten(s: Sys, client: ClientId, latest: Option<Uuid>)
    requires client in s.evaluations && s.evaluations[client].HasCandidate?
    ensures Forgotten(AfterFetchLatest(Forgotten(s), client, latest)) == Forgotten(AfterFetchLatest(s, client, latest))
  {}

  lemma WorkerForgotten(c: Config, s: Sys, a: Action)
    requires a.Queue? || a.ReadService? || a.RunChecks? || a.SaveEvaluation? || a.AuditEvaluation?
    requires Enabled(c, s, a) && Enabled(c, Forgotten(s), a)
    ensures Forgotten(Next(c, Forgotten(s), a)) == Forgotten(Next(c, s, a))
  {
    match a
    case Queue(step) => QueueForgotten(c, s, step);
    case ReadService(w, ok) => ReadForgotten(s, w, ok);
    case RunChecks(w, snapshotId) => ChecksForgotten(s, w, snapshotId);
    case SaveEvaluation(w, outcome) => SaveForgotten(s, w, outcome);
    case AuditEvaluation(w, outcome) => AuditForgotten(s, w, outcome);
  }

  lemma ClientForgotten(c: Config, s: Sys, a: Action)
    requires a.WriteService? || a.FetchCandidate? || a.FetchLatest? || a.SaveDecision?
    requires Enabled(c, s, a) && Enabled(c, Forgotten(s), a)
    ensures Forgotten(Next(c, Forgotten(s), a)) == Forgotten(Next(c, s, a))
  {
    match a
    case WriteService(client) => WriteForgotten(s, client);
    case FetchLatest(client, latest) => LatestForgotten(s, client, latest);
    case SaveDecision(client, decisionId, createdAt, outcome) => DecisionForgotten(s, client, decisionId, createdAt, outcome);
    case _ =>
  }

  lemma NextForgotten(c: Config, s: Sys, a: Action)
    requires Enabled(c, s, a) && Enabled(c, Forgotten(s), a)
    ensures Forgotten(Next(c, Forgotten(s), a)) == Forgotten(Next(c, s, a))
  {
    if a.Queue? || a.ReadService? || a.RunChecks? || a.SaveEvaluation? || a.AuditEvaluation? {
      WorkerForgotten(c, s, a);
    } else if a.WriteService? || a.FetchCandidate? || a.FetchLatest? || a.SaveDecision? {
      ClientForgotten(c, s, a);
    }
  }

  /** No action depends on history: it is there for the theorems only. */
  lemma HistoryUnread(c: Config, s: Sys, a: Action)
    ensures Forgotten(Do(c, Forgotten(s), a)) == Forgotten(Do(c, s, a))
  {
    EnabledForgotten(c, s, a);
    if Enabled(c, s, a) { NextForgotten(c, s, a); }
  }

  // ----- Which action changes what -----

  lemma OthersKeepGate(c: Config, s: Sys, a: Action)
    requires (!a.CreateCandidate? && !a.FetchCandidate? && !a.FetchLatest? && !a.SaveDecision?) || !Enabled(c, s, a)
    ensures var s' := Do(c, s, a);
      s'.candidates == s.candidates && s'.decisions == s.decisions && s'.evaluations == s.evaluations && s'.trails == s.trails
  {
    if Enabled(c, s, a) {
      match a
      case SaveEvaluation(w, outcome) => assert Do(c, s, a) == AfterSave(s, w, outcome);
      case _ =>
    }
  }

  lemma OthersKeepEvidence(c: Config, s: Sys, a: Action)
    requires (!a.SaveEvaluation? && !a.AuditEvaluation? && !a.AuditOther?) || !Enabled(c, s, a)
    ensures var s' := Do(c, s, a);
      s'.snapshots == s.snapshots && s'.checks == s.checks && s'.origins == s.origins && s'.audits == s.audits
  {
    if Enabled(c, s, a) {
      match a
      case SaveDecision(client, d, at, outcome) => assert Do(c, s, a) == AfterDecision(s, client, d, at, outcome);
      case _ =>
    }
  }

  lemma OthersKeepServices(c: Config, s: Sys, a: Action)
    requires (!a.Register? && !a.FetchForUpdate? && !a.WriteService?) || !Enabled(c, s, a)
    ensures Do(c, s, a).services == s.services && Do(c, s, a).writes == s.writes
  {
    if Enabled(c, s, a) {
      match a
      case SaveEvaluation(w, outcome) => assert Do(c, s, a) == AfterSave(s, w, outcome);
      case SaveDecision(client, d, at, outcome) => assert Do(c, s, a) == AfterDecision(s, client, d, at, outcome);
      case _ =>
    }
  }

  lemma OthersKeepProgress(c: Config, s: Sys, a: Action)
    requires (!a.Queue? && !a.ReadService? && !a.RunChecks? && !a.SaveEvaluation? && !a.AuditEvaluation?) || !Enabled(c, s, a)
    ensures Do(c, s, a).progress == s.progress
  {
    if Enabled(c, s, a) {
      match a
      case SaveDecision(client, d, at, outcome) => assert Do(c, s, a) == AfterDecision(s, client, d, at, outcome);
      case _ =>
    }
  }

  lemma TickPasses(c: Config, s: Sys, a: Action)
    ensures Do(c, s, a).tick == s.tick + 1
  {
    if Enabled(c, s, a) {
      match a
      case Queue(step) => assert Next(c, s, a) == AfterQueue(c, s, step);
      case ReadService(w, ok) => assert Next(c, s, a) == AfterRead(s, w, ok);
      case RunChecks(w, snapshotId) => assert Next(c, s, a) == AfterChecks(s, w, snapshotId);
      case SaveEvaluation(w, outcome) => assert Next(c, s, a) == AfterSave(s, w, outcome);
      case AuditEvaluation(w, outcome) => assert Next(c, s, a) == AfterAudit(s, w, outcome);
      case Register(id, input) =>
      case FetchForUpdate(client, service, patch) =>
      case WriteService(client) => assert Next(c, s, a) == AfterWrite(s, client);
      case CreateCandidate(id, service) =>
      case FetchCandidate(client, candidate) =>
      case FetchLatest(client, latest) => assert Next(c, s, a) == AfterFetchLatest(s, client, latest);
      case SaveDecision(client, d, at, outcome) => assert Next(c, s, a) == AfterDecision(s, client, d, at, outcome);
      case AuditOther(event) =>
    }
  }
}
