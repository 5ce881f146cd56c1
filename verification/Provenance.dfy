/** Where decisions come from, over every interleaving of evaluators, workers and service patches: each
    verdict is the one its evaluation read, and an approval leads back to a stored service record that
    passed all ten checks. */
module Provenance {
  import opened Wrappers
  import opened Jobs
  import Q = Queue
  import opened Domain
  import opened PlatformChecks
  import opened ControlPlane
  import Evidence
  import Gate

  /** The states a run passes through: the k-th is the state after k actions. */
  function History(c: Config, actions: seq<Action>): (h: seq<Sys>)
    ensures |h| == |actions| + 1
    ensures forall k :: 0 <= k <= |actions| ==> h[k] == Run(c, INIT, actions[..k])
  {
    seq(|actions| + 1, k requires 0 <= k <= |actions| => Run(c, INIT, actions[..k]))
  }

  predicate Steps(c: Config, h: seq<Sys>, n: nat, a: Action) {
    n + 1 < |h| && h[n].tick == n && h[n + 1] == Do(c, h[n], a)
  }

  lemma {:induction false} TickCounts(c: Config, actions: seq<Action>)
    ensures Run(c, INIT, actions).tick == |actions|
  {
    if actions != [] {
      TickCounts(c, actions[..|actions| - 1]);
      TickPasses(c, Run(c, INIT, actions[..|actions| - 1]), actions[|actions| - 1]);
    }
  }

  lemma HistorySteps(c: Config, actions: seq<Action>, n: nat)
    requires n < |actions|
    ensures Steps(c, History(c, actions), n, actions[n])
  {
    RunNext(c, INIT, actions, n);
    TickCounts(c, actions[..n]);
  }

  // ----- The service records snapshots were computed from -----

  predicate Stored(h: seq<Sys>, n: nat, service: Service, seen: nat) {
    seen <= n < |h| && service.id in h[seen].services && h[seen].services[service.id] == service
  }

  predicate HoldsStored(h: seq<Sys>, n: nat, p: Progress) {
    p.HasService? || p.HasResult? ==> Stored(h, n, p.service, p.seen)
  }

  predicate ServiceTrail(h: seq<Sys>, n: nat, progress: map<WorkerId, Progress>, origins: map<Uuid, Origin>) {
    && (forall w <- progress :: HoldsStored(h, n, progress[w]))
    && (forall id <- origins :: Stored(h, n, origins[id].service, origins[id].seen))
  }

  lemma TrailLasts(h: seq<Sys>, n: nat, progress: map<WorkerId, Progress>, origins: map<Uuid, Origin>)
    requires ServiceTrail(h, n, progress, origins) && n + 1 < |h|
    ensures ServiceTrail(h, n + 1, progress, origins)
  {}

  lemma WorkerKeepsTrail(c: Config, h: seq<Sys>, n: nat, a: Action)
    requires Steps(c, h, n, a) && Enabled(c, h[n], a) && (a.ReadService? || a.RunChecks? || a.AuditEvaluation?)
    requires ServiceTrail(h, n, h[n].progress, h[n].origins) && Evidence.ServicesOk(c.syntax, h[n].services, h[n].writes)
    ensures ServiceTrail(h, n + 1, h[n + 1].progress, h[n + 1].origins)
  {
    TrailLasts(h, n, h[n].progress, h[n].origins);
    Evidence.WorkerMovesOn(c, h[n], a);
    Evidence.OthersKeepSnapshots(c, h[n], a);
    assert HoldsStored(h, n, ProgressOf(h[n], a.worker));
    assert HoldsStored(h, n + 1, h[n + 1].progress[a.worker]);
  }

  lemma SaveKeepsTrail(h: seq<Sys>, n: nat, s: Sys, w: WorkerId, s': Sys, o: Origin)
    requires ServiceTrail(h, n, s.progress, s.origins) && n + 1 < |h|
    requires Batch(s, w) != [] && ProgressIn(s.progress, w).HasResult? && Evidence.Saves(s, w, s', o)
    ensures ServiceTrail(h, n + 1, s'.progress, s'.origins)
  {
    TrailLasts(h, n, s.progress, s.origins);
    assert HoldsStored(h, n, s.progress[w]);
    assert HoldsStored(h, n + 1, s'.progress[w]);
  }

  lemma StepKeepsTrail(c: Config, h: seq<Sys>, n: nat, a: Action)
    requires Steps(c, h, n, a)
    requires ServiceTrail(h, n, h[n].progress, h[n].origins) && Evidence.ServicesOk(c.syntax, h[n].services, h[n].writes)
    ensures ServiceTrail(h, n + 1, h[n + 1].progress, h[n + 1].origins)
  {
    var s := h[n];
    if Enabled(c, s, a) && a.SaveEvaluation? {
      var p, j := ProgressOf(s, a.worker), Batch(s, a.worker)[0];
      Evidence.SaveEffect(s, a.worker, a.outcome, Origin(j.id, j.attempts, p.service, p.seen));
      SaveKeepsTrail(h, n, s, a.worker, h[n + 1], Origin(j.id, j.attempts, p.service, p.seen));
    } else if Enabled(c, s, a) && (a.ReadService? || a.RunChecks? || a.AuditEvaluation?) {
      WorkerKeepsTrail(c, h, n, a);
    } else {
      TrailLasts(h, n, s.progress, s.origins);
      Evidence.OthersKeepSnapshots(c, s, a);
      if !Enabled(c, s, a) || !a.Queue? { OthersKeepProgress(c, s, a); }
    }
  }

  lemma {:induction false} TrailHolds(c: Config, actions: seq<Action>, n: nat)
    requires n <= |actions|
    ensures var h := History(c, actions); ServiceTrail(h, n, h[n].progress, h[n].origins)
  {
    if n > 0 {
      TrailHolds(c, actions, n - 1);
      HistorySteps(c, actions, n - 1);
      Evidence.StoredServicesValid(c, actions[..n - 1]);
      StepKeepsTrail(c, History(c, actions), n - 1, actions[n - 1]);
    }
  }

  // ----- Stored snapshots never change -----

  predicate SameSnapshot(s: Sys, s': Sys, id: Uuid) {
    && id in s.snapshots && id in s'.snapshots && s'.snapshots[id] == s.snapshots[id]
    && id in s.origins && id in s'.origins && s'.origins[id] == s.origins[id]
  }

  lemma SnapshotStep(c: Config, s: Sys, a: Action, id: Uuid)
    requires id in s.snapshots && s.origins.Keys == s.snapshots.Keys
    ensures SameSnapshot(s, Do(c, s, a), id)
  {
    if Enabled(c, s, a) && a.SaveEvaluation? {
      assert Do(c, s, a) == AfterSave(s, a.worker, a.outcome);
    } else {
      Evidence.OthersKeepSnapshots(c, s, a);
    }
  }

  lemma StepKeepsOrigins(c: Config, s: Sys, a: Action)
    requires s.origins.Keys == s.snapshots.Keys
    ensures Do(c, s, a).origins.Keys == Do(c, s, a).snapshots.Keys
  {
    if Enabled(c, s, a) && a.SaveEvaluation? {
      assert Do(c, s, a) == AfterSave(s, a.worker, a.outcome);
    } else {
      Evidence.OthersKeepSnapshots(c, s, a);
    }
  }

  predicate IdsMatch(snapshots: map<Uuid, Snapshot>) {
    forall id <- snapshots :: snapshots[id].id == id
  }

  /** Every snapshot has an origin it was computed from. */
  predicate MadeFrom(snapshots: map<Uuid, Snapshot>, origins: map<Uuid, Origin>, id: Uuid) {
    && id in snapshots && id in origins
    && snapshots[id] == SnapshotOf(origins[id].service, origins[id].job, snapshots[id].evaluatedAt, id)
  }

  lemma SnapshotsMadeFrom(snapshots: map<Uuid, Snapshot>, checks: map<Uuid, seq<CheckResult>>, origins: map<Uuid, Origin>)
    requires Evidence.SnapshotsOk(snapshots, checks, origins)
    ensures origins.Keys == snapshots.Keys && IdsMatch(snapshots)
    ensures forall id <- snapshots :: MadeFrom(snapshots, origins, id)
  {
    forall id | id in snapshots ensures MadeFrom(snapshots, origins, id) && snapshots[id].id == id {
      assert Evidence.SnapshotOk(snapshots[id], checks[id], origins[id], id);
    }
  }

  lemma SnapshotIds(c: Config, actions: seq<Action>)
    ensures var s := Run(c, INIT, actions);
      && s.origins.Keys == s.snapshots.Keys && IdsMatch(s.snapshots)
      && forall id <- s.snapshots :: MadeFrom(s.snapshots, s.origins, id)
  {
    Evidence.SnapshotsHold(c, actions);
    SnapshotsMadeFrom(Run(c, INIT, actions).snapshots, Run(c, INIT, actions).checks, Run(c, INIT, actions).origins);
  }

  lemma {:induction false} SnapshotStays(c: Config, s: Sys, actions: seq<Action>, id: Uuid)
    requires id in s.snapshots && s.origins.Keys == s.snapshots.Keys
    ensures SameSnapshot(s, Run(c, s, actions), id)
    ensures Run(c, s, actions).origins.Keys == Run(c, s, actions).snapshots.Keys
  {
    if actions != [] {
      var mid, a := Run(c, s, actions[..|actions| - 1]), actions[|actions| - 1];
      SnapshotStays(c, s, actions[..|actions| - 1], id);
      SnapshotStep(c, mid, a, id);
      StepKeepsOrigins(c, mid, a);
    }
  }

  lemma SnapshotStands(c: Config, actions: seq<Action>, k: nat, n: nat, id: Uuid)
    requires k <= n <= |actions| && id in Run(c, INIT, actions[..k]).snapshots
    ensures SameSnapshot(Run(c, INIT, actions[..k]), Run(c, INIT, actions[..n]), id)
  {
    SnapshotIds(c, actions[..k]);
    SnapshotStays(c, Run(c, INIT, actions[..k]), actions[k..n], id);
    RunSpan(c, INIT, actions, k, n);
  }

  // ----- What an evaluation has seen -----

  predicate PendingAt(h: seq<Sys>, k: nat, id: Uuid) {
    k < |h| && id in h[k].candidates && h[k].candidates[id].status == CandidatePending
  }

  /** At tick k the snapshot was the answer to GetLatestSnapshot. */
  predicate ReadAt(h: seq<Sys>, k: nat, service: Uuid, snapshot: Option<Snapshot>) {
    && k < |h|
    && Answers(h[k].snapshots, SnapshotId(snapshot), service)
    && Found(h[k].snapshots, SnapshotId(snapshot)) == snapshot
  }

  predicate EvaluationTrail(h: seq<Sys>, n: nat, e: Evaluation) {
    match e
    case HasCandidate(candidate, started) => started <= n && PendingAt(h, started, candidate.id)
    case HasVerdict(candidate, snapshot, _, _, started, read) =>
      started <= read <= n && PendingAt(h, started, candidate.id) && ReadAt(h, read, candidate.serviceId, snapshot)
    case Finished => true
  }

  /** The candidate was decided at t.committed on what the evaluation read at t.read, and on nothing else. */
  predicate DecidedBy(h: seq<Sys>, n: nat, c: Candidate, t: Trail) {
    && t.started <= t.read <= t.committed < n < |h|
    && PendingAt(h, t.started, c.id) && PendingAt(h, t.committed, c.id)
    && c.id in h[t.committed + 1].candidates && h[t.committed + 1].candidates[c.id] == c
    && Answers(h[t.read].snapshots, c.lastSnapshotId, c.serviceId)
    && (c.status, c.reason) == Verdict(Found(h[t.read].snapshots, c.lastSnapshotId))
  }

  predicate CandidateTrail(h: seq<Sys>, n: nat, candidates: map<Uuid, Candidate>, trails: map<Uuid, Trail>, id: Uuid)
    requires id in candidates
  {
    candidates[id].status != CandidatePending ==> id in trails && DecidedBy(h, n, candidates[id], trails[id])
  }

  predicate GateTrail(h: seq<Sys>, n: nat, s: Sys) {
    && (forall k <- s.evaluations :: EvaluationTrail(h, n, s.evaluations[k]))
    && (forall id <- s.candidates :: CandidateTrail(h, n, s.candidates, s.trails, id))
  }

  lemma GateTrailLasts(h: seq<Sys>, n: nat, s: Sys, s': Sys)
    requires GateTrail(h, n, s) && n + 1 < |h|
    requires s'.evaluations == s.evaluations && s'.candidates == s.candidates && s'.trails == s.trails
    ensures GateTrail(h, n + 1, s')
  {
    forall id | id in s.candidates ensures CandidateTrail(h, n + 1, s.candidates, s.trails, id) {
      assert CandidateTrail(h, n, s.candidates, s.trails, id);
    }
    forall k | k in s.evaluations ensures EvaluationTrail(h, n + 1, s.evaluations[k]) {
      assert EvaluationTrail(h, n, s.evaluations[k]);
    }
  }

  lemma CreateKeepsTrail(c: Config, h: seq<Sys>, n: nat, a: Action)
    requires Steps(c, h, n, a) && GateTrail(h, n, h[n]) && Enabled(c, h[n], a) && a.CreateCandidate?
    ensures GateTrail(h, n + 1, h[n + 1])
  {
    GateTrailLasts(h, n, h[n], h[n]);
    var s' := h[n + 1];
    forall id | id in s'.candidates ensures CandidateTrail(h, n + 1, s'.candidates, s'.trails, id) {
      if id != a.id { assert CandidateTrail(h, n + 1, h[n].candidates, h[n].trails, id); }
    }
  }

  /** Moving one evaluation on. */
  lemma EvaluationMovesOn(h: seq<Sys>, n: nat, s: Sys, s': Sys, k: ClientId, e: Evaluation)
    requires GateTrail(h, n, s) && n + 1 < |h| && EvaluationTrail(h, n + 1, e)
    requires s'.evaluations == s.evaluations[k := e] && s'.candidates == s.candidates && s'.trails == s.trails
    ensures GateTrail(h, n + 1, s')
  {
    GateTrailLasts(h, n, s, s);
  }

  lemma FetchKeepsTrail(c: Config, h: seq<Sys>, n: nat, a: Action)
    requires Steps(c, h, n, a) && GateTrail(h, n, h[n]) && Gate.GateInv(h[n])
    requires Enabled(c, h[n], a) && a.FetchCandidate?
    ensures GateTrail(h, n + 1, h[n + 1])
  {
    assert Gate.CandidateOk(h[n].candidates, h[n].decisions, a.candidate);
    EvaluationMovesOn(h, n, h[n], h[n + 1], a.client, HasCandidate(h[n].candidates[a.candidate], n));
  }

  lemma ReadKeepsTrail(c: Config, h: seq<Sys>, n: nat, a: Action)
    requires Steps(c, h, n, a) && GateTrail(h, n, h[n]) && Enabled(c, h[n], a) && a.FetchLatest?
    requires IdsMatch(h[n].snapshots)
    ensures GateTrail(h, n + 1, h[n + 1])
  {
    var e := h[n].evaluations[a.client];
    assert EvaluationTrail(h, n, e);
    EvaluationMovesOn(h, n, h[n], h[n + 1], a.client, h[n + 1].evaluations[a.client]);
  }

  /** The decided candidate, when the decision goes through. */
  lemma DecisionHasTrail(h: seq<Sys>, n: nat, s: Sys, e: Evaluation, d: Decision, at: Time)
    requires n + 1 < |h| && h[n].candidates == s.candidates && e.HasVerdict? && EvaluationTrail(h, n, e)
    requires Gate.EvaluationOk(s.candidates, e) && s.candidates[e.candidate.id].id == e.candidate.id
    requires s.candidates[e.candidate.id].status == CandidatePending && e.candidate.id in h[n + 1].candidates
    requires d.decision == e.status && d.summary == e.reason && d.snapshotId == SnapshotId(e.snapshot)
    requires h[n + 1].candidates[e.candidate.id] == DecidedCandidate(s.candidates[e.candidate.id], d, at)
    ensures DecidedBy(h, n + 1, h[n + 1].candidates[e.candidate.id], Trail(e.started, e.read, n))
  {}

  /** The two ways a decision can end, s' being the state after it. */
  predicate Decides(s: Sys, client: ClientId, s': Sys, d: Decision, at: Time, t: Trail)
    requires client in s.evaluations && s.evaluations[client].HasVerdict?
  {
    var id := s.evaluations[client].candidate.id;
    && s'.evaluations == s.evaluations[client := Finished]
    && (|| (s'.candidates == s.candidates && s'.trails == s.trails)
        || (id in s.candidates && s.candidates[id].status == CandidatePending
            && s'.candidates == s.candidates[id := DecidedCandidate(s.candidates[id], d, at)] && s'.trails == s.trails[id := t]))
  }

  lemma DecisionEffect(s: Sys, client: ClientId, decisionId: Uuid, createdAt: Time, outcome: Q.Outcome)
    requires client in s.evaluations && s.evaluations[client].HasVerdict?
    ensures var e := s.evaluations[client];
      Decides(s, client, AfterDecision(s, client, decisionId, createdAt, outcome), DecisionOf(e, decisionId, createdAt),
              s.q.clock, Trail(e.started, e.read, s.tick))
  {}

  lemma VerdictCandidate(s: Sys, client: ClientId)
    requires Gate.GateInv(s) && client in s.evaluations && s.evaluations[client].HasVerdict?
    ensures var e := s.evaluations[client];
      Gate.EvaluationOk(s.candidates, e) && s.candidates[e.candidate.id].id == e.candidate.id
  {
    assert Gate.EvaluationOk(s.candidates, s.evaluations[client]);
    assert Gate.CandidateOk(s.candidates, s.decisions, s.evaluations[client].candidate.id);
  }

  lemma DecisionKeepsTrail(h: seq<Sys>, n: nat, s: Sys, client: ClientId, s': Sys, d: Decision, at: Time)
    requires n + 1 < |h| && h[n] == s && h[n + 1] == s' && GateTrail(h, n, s)
    requires client in s.evaluations && s.evaluations[client].HasVerdict?
    requires var e := s.evaluations[client];
      && Gate.EvaluationOk(s.candidates, e) && s.candidates[e.candidate.id].id == e.candidate.id
      && d == DecisionOf(e, d.id, d.createdAt) && Decides(s, client, s', d, at, Trail(e.started, e.read, n))
    ensures GateTrail(h, n + 1, s')
  {
    var e := s.evaluations[client];
    var id := e.candidate.id;
    GateTrailLasts(h, n, s, s);
    if s'.candidates != s.candidates {
      assert EvaluationTrail(h, n, e);
      DecisionHasTrail(h, n, s, e, d, at);
      forall o | o in s'.candidates ensures CandidateTrail(h, n + 1, s'.candidates, s'.trails, o) {
        if o != id { assert CandidateTrail(h, n + 1, s.candidates, s.trails, o); }
      }
    }
  }

  lemma StepKeepsGateTrail(c: Config, h: seq<Sys>, n: nat, a: Action)
    requires Steps(c, h, n, a) && GateTrail(h, n, h[n]) && Gate.GateInv(h[n])
    requires IdsMatch(h[n].snapshots)
    ensures GateTrail(h, n + 1, h[n + 1])
  {
    if Enabled(c, h[n], a) && a.CreateCandidate? {
      CreateKeepsTrail(c, h, n, a);
    } else if Enabled(c, h[n], a) && a.FetchCandidate? {
      FetchKeepsTrail(c, h, n, a);
    } else if Enabled(c, h[n], a) && a.FetchLatest? {
      ReadKeepsTrail(c, h, n, a);
    } else if Enabled(c, h[n], a) && a.SaveDecision? {
      var e := h[n].evaluations[a.client];
      VerdictCandidate(h[n], a.client);
      DecisionEffect(h[n], a.client, a.decisionId, a.createdAt, a.outcome);
      DecisionKeepsTrail(h, n, h[n], a.client, h[n + 1], DecisionOf(e, a.decisionId, a.createdAt), h[n].q.clock);
    } else {
      OthersKeepGate(c, h[n], a);
      GateTrailLasts(h, n, h[n], h[n + 1]);
    }
  }

  lemma {:induction false} GateTrailHolds(c: Config, actions: seq<Action>, n: nat)
    requires n <= |actions|
    ensures GateTrail(History(c, actions), n, History(c, actions)[n])
  {
    if n > 0 {
      GateTrailHolds(c, actions, n - 1);
      HistorySteps(c, actions, n - 1);
      Gate.GateHolds(c, actions[..n - 1]);
      SnapshotIds(c, actions[..n - 1]);
      StepKeepsGateTrail(c, History(c, actions), n - 1, actions[n - 1]);
    }
  }

  // ----- The provenance of a verdict -----

  /** Every decided candidate was pending when its evaluation started and until it committed, and status
      and reason are what the snapshot latest at the evaluation's read calls for: the newest one of the
      service if there was any, rejection if there was none. */
  lemma VerdictProvenance(c: Config, actions: seq<Action>, id: Uuid)
    requires id in Run(c, INIT, actions).candidates && Run(c, INIT, actions).candidates[id].status != CandidatePending
    ensures id in Run(c, INIT, actions).trails
    ensures DecidedBy(History(c, actions), |actions|, Run(c, INIT, actions).candidates[id], Run(c, INIT, actions).trails[id])
  {
    GateTrailHolds(c, actions, |actions|);
    assert actions[..|actions|] == actions;
    assert CandidateTrail(History(c, actions), |actions|, Run(c, INIT, actions).candidates, Run(c, INIT, actions).trails, id);
  }

  /** The evidence an approval at hand rests on, in terms of the states s (now), atRead and atSeen. */
  predicate RestsOn(s: Sys, atRead: Sys, atSeen: Sys, id: Uuid, snapshot: Uuid)
    requires id in s.candidates && snapshot in s.snapshots && snapshot in s.origins
  {
    var candidate, sn, o := s.candidates[id], s.snapshots[snapshot], s.origins[snapshot];
    && sn.state == Ready && sn.score == 100 && sn.serviceId == candidate.serviceId
    && IsLatest(atRead.snapshots, snapshot, candidate.serviceId) && atRead.snapshots[snapshot] == sn
    && candidate.serviceId in atSeen.services && atSeen.services[candidate.serviceId] == o.service
    && AllTenPass(o.service)
  }

  /** The service record an origin names was stored at the tick it names. */
  predicate FromStored(c: Config, actions: seq<Action>, n: nat, o: Origin) {
    && o.seen <= n <= |actions| && o.service.id in Run(c, INIT, actions[..o.seen]).services
    && Run(c, INIT, actions[..o.seen]).services[o.service.id] == o.service
  }

  lemma OriginStored(c: Config, actions: seq<Action>, n: nat, snapshot: Uuid)
    requires n <= |actions| && snapshot in Run(c, INIT, actions[..n]).origins
    ensures FromStored(c, actions, n, Run(c, INIT, actions[..n]).origins[snapshot])
  {
    TrailHolds(c, actions, n);
    var h := History(c, actions);
    assert Stored(h, n, h[n].origins[snapshot].service, h[n].origins[snapshot].seen);
  }

  /** The snapshot an evaluation read, and the service record behind it, seen from the end of the run. */
  lemma SnapshotProvenance(c: Config, actions: seq<Action>, read: nat, snapshot: Uuid)
    requires read <= |actions| && snapshot in Run(c, INIT, actions[..read]).snapshots
    ensures SameSnapshot(Run(c, INIT, actions[..read]), Run(c, INIT, actions), snapshot)
    ensures FromStored(c, actions, read, Run(c, INIT, actions).origins[snapshot])
    ensures MadeFrom(Run(c, INIT, actions).snapshots, Run(c, INIT, actions).origins, snapshot)
  {
    assert actions[..|actions|] == actions;
    SnapshotStands(c, actions, read, |actions|, snapshot);
    OriginStored(c, actions, read, snapshot);
    SnapshotIds(c, actions);
  }

  /** Every approval names a stored ready snapshot of the candidate's own service that was the newest one
      at some moment between the start of the evaluation and its commit, and that was computed from a
      service record which was stored at an earlier moment and passes all ten checks. */
  lemma ApprovalProvenance(c: Config, actions: seq<Action>, id: Uuid)
    requires id in Run(c, INIT, actions).candidates && Run(c, INIT, actions).candidates[id].status == CandidateApproved
    ensures var s := Run(c, INIT, actions);
      && id in s.trails && s.candidates[id].lastSnapshotId.Some?
      && var t, sn := s.trails[id], s.candidates[id].lastSnapshotId.value;
         && t.started <= t.read <= t.committed < |actions|
         && sn in s.snapshots && sn in s.origins && s.origins[sn].seen <= t.read
         && RestsOn(s, Run(c, INIT, actions[..t.read]), Run(c, INIT, actions[..s.origins[sn].seen]), id, sn)
  {
    VerdictProvenance(c, actions, id);
    var s := Run(c, INIT, actions);
    var t, candidate := s.trails[id], s.candidates[id];
    var sn := candidate.lastSnapshotId.value;
    SnapshotProvenance(c, actions, t.read, sn);
    ReadyIff(s.origins[sn].service);
  }

  /** Every rejection is due: at the moment the evaluation read, either the service had no snapshot, and the
      candidate names none, or the newest one, which the candidate names, was not ready. */
  lemma RejectionProvenance(c: Config, actions: seq<Action>, id: Uuid)
    requires id in Run(c, INIT, actions).candidates && Run(c, INIT, actions).candidates[id].status == CandidateRejected
    ensures var s := Run(c, INIT, actions);
      && id in s.trails
      && var t, candidate := s.trails[id], s.candidates[id];
         && t.started <= t.read <= t.committed < |actions|
         && var read := Run(c, INIT, actions[..t.read]).snapshots;
            match candidate.lastSnapshotId
            case None => candidate.reason == NoSnapshotYet && forall o <- read :: read[o].serviceId != candidate.serviceId
            case Some(sn) =>
              && IsLatest(read, sn, candidate.serviceId) && read[sn].state != Ready
              && candidate.reason == LatestIs(read[sn].state)
  {
    VerdictProvenance(c, actions, id);
  }

  // ----- Was it still the latest? -----

  /** The action stores a snapshot of the service that was evaluated after time than: the transaction of
      SaveReadinessEvaluation goes through, and the snapshot the worker computed is such a one. */
  predicate SavesNewer(c: Config, s: Sys, a: Action, service: Uuid, than: Time) {
    && a.SaveEvaluation? && Enabled(c, s, a) && a.outcome != Q.Refused
    && var snapshot := ProgressOf(s, a.worker).snapshot;
       snapshot.id !in s.snapshots && snapshot.serviceId == service && snapshot.evaluatedAt > than
  }

  /** One action: what was latest stays so exactly if the action saves nothing newer. */
  lemma LatestStep(c: Config, s: Sys, a: Action, sn: Uuid, service: Uuid)
    requires IsLatest(s.snapshots, sn, service)
    ensures IsLatest(Do(c, s, a).snapshots, sn, service) <==> !SavesNewer(c, s, a, service, s.snapshots[sn].evaluatedAt)
  {
    if Enabled(c, s, a) && a.SaveEvaluation? {
      SaveMakesLatest(s, a.worker, a.outcome, sn, service);
      assert Do(c, s, a) == AfterSave(s, a.worker, a.outcome);
    } else {
      Evidence.OthersKeepSnapshots(c, s, a);
    }
  }

  lemma SaveMakesLatest(s: Sys, w: WorkerId, outcome: Q.Outcome, sn: Uuid, service: Uuid)
    requires Batch(s, w) != [] && ProgressOf(s, w).HasResult? && IsLatest(s.snapshots, sn, service)
    ensures var p := ProgressOf(s, w).snapshot;
      IsLatest(AfterSave(s, w, outcome).snapshots, sn, service)
      <==> outcome == Q.Refused || p.id in s.snapshots || p.serviceId != service || p.evaluatedAt <= s.snapshots[sn].evaluatedAt
  {
    var p, after := ProgressOf(s, w).snapshot, AfterSave(s, w, outcome).snapshots;
    if outcome != Q.Refused && p.id !in s.snapshots {
      assert after == s.snapshots[p.id := p];
      assert p.id in after && after[p.id] == p;
      assert forall o <- after :: o == p.id || (o in s.snapshots && after[o] == s.snapshots[o]);
    } else {
      assert after == s.snapshots;
    }
  }

  /** Once overtaken, always overtaken. */
  lemma OvertakenStays(c: Config, s: Sys, a: Action, sn: Uuid, service: Uuid)
    requires s.origins.Keys == s.snapshots.Keys
    requires sn in s.snapshots && s.snapshots[sn].serviceId == service && !IsLatest(s.snapshots, sn, service)
    ensures !IsLatest(Do(c, s, a).snapshots, sn, service)
  {
    var o :| o in s.snapshots && s.snapshots[o].serviceId == service && s.snapshots[o].evaluatedAt > s.snapshots[sn].evaluatedAt;
    SnapshotStep(c, s, a, o);
    SnapshotStep(c, s, a, sn);
  }

  /** The action at tick k of the run saves a snapshot of the service newer than than. */
  predicate NewerSavedAt(c: Config, actions: seq<Action>, k: nat, service: Uuid, than: Time) {
    k < |actions| && SavesNewer(c, Run(c, INIT, actions[..k]), actions[k], service, than)
  }

  /** One tick: what is latest stays so, or is overtaken for good. */
  lemma LatestTick(c: Config, s: Sys, a: Action, sn: Uuid, service: Uuid)
    requires sn in s.snapshots && s.snapshots[sn].serviceId == service && s.origins.Keys == s.snapshots.Keys
    ensures SameSnapshot(s, Do(c, s, a), sn)
    ensures IsLatest(Do(c, s, a).snapshots, sn, service)
      <==> IsLatest(s.snapshots, sn, service) && !SavesNewer(c, s, a, service, s.snapshots[sn].evaluatedAt)
  {
    SnapshotStep(c, s, a, sn);
    if IsLatest(s.snapshots, sn, service) { LatestStep(c, s, a, sn, service); } else { OvertakenStays(c, s, a, sn, service); }
  }

  lemma OriginKeys(c: Config, actions: seq<Action>)
    ensures Run(c, INIT, actions).origins.Keys == Run(c, INIT, actions).snapshots.Keys
  {
    SnapshotIds(c, actions);
  }

  /** sn is a snapshot of the service, evaluated at the given time. */
  predicate Names(s: Sys, sn: Uuid, service: Uuid, at: Time) {
    sn in s.snapshots && s.snapshots[sn].serviceId == service && s.snapshots[sn].evaluatedAt == at
  }

  predicate NamesAt(c: Config, actions: seq<Action>, n: nat, sn: Uuid, service: Uuid, at: Time) {
    n <= |actions| && Names(Run(c, INIT, actions[..n]), sn, service, at)
  }

  predicate LatestAt(c: Config, actions: seq<Action>, n: nat, sn: Uuid, service: Uuid) {
    n <= |actions| && IsLatest(Run(c, INIT, actions[..n]).snapshots, sn, service)
  }

  /** The same at tick n of a run. */
  lemma LatestAtNextTick(c: Config, actions: seq<Action>, n: nat, sn: Uuid, service: Uuid, than: Time)
    requires n < |actions| && NamesAt(c, actions, n, sn, service, than)
    ensures NamesAt(c, actions, n + 1, sn, service, than)
    ensures LatestAt(c, actions, n + 1, sn, service)
      <==> LatestAt(c, actions, n, sn, service) && !NewerSavedAt(c, actions, n, service, than)
  {
    OriginKeys(c, actions[..n]);
    RunNext(c, INIT, actions, n);
    LatestTick(c, Run(c, INIT, actions[..n]), actions[n], sn, service);
  }

  lemma {:induction false} LatestBetween(c: Config, actions: seq<Action>, read: nat, n: nat, sn: Uuid, service: Uuid, than: Time)
    requires read <= n <= |actions| && NamesAt(c, actions, read, sn, service, than) && LatestAt(c, actions, read, sn, service)
    ensures NamesAt(c, actions, n, sn, service, than)
    ensures LatestAt(c, actions, n, sn, service) <==> forall k :: read <= k < n ==> !NewerSavedAt(c, actions, k, service, than)
    decreases n
  {
    if read < n {
      LatestBetween(c, actions, read, n - 1, sn, service, than);
      LatestAtNextTick(c, actions, n - 1, sn, service, than);
    }
  }

  /** The snapshot of an approval was latest at the evaluation's read. It was still latest when the approval
      committed exactly if no worker's save in between stored a newer snapshot of the service; the gate's
      compare-and-set looks at the candidate only, so nothing prevents one. */
  lemma ApprovedOnLatestIff(c: Config, actions: seq<Action>, id: Uuid)
    requires id in Run(c, INIT, actions).candidates && Run(c, INIT, actions).candidates[id].status == CandidateApproved
    ensures var s := Run(c, INIT, actions);
      && id in s.trails && s.candidates[id].lastSnapshotId.Some?
      && var t, sn, service := s.trails[id], s.candidates[id].lastSnapshotId.value, s.candidates[id].serviceId;
         && t.read <= t.committed < |actions| && sn in s.snapshots
         && (IsLatest(Run(c, INIT, actions[..t.committed]).snapshots, sn, service)
             <==> forall k :: t.read <= k < t.committed ==> !NewerSavedAt(c, actions, k, service, s.snapshots[sn].evaluatedAt))
  {
    ApprovalProvenance(c, actions, id);
    var s := Run(c, INIT, actions);
    var t, sn, service := s.trails[id], s.candidates[id].lastSnapshotId.value, s.candidates[id].serviceId;
    LatestBetween(c, actions, t.read, t.committed, sn, service, s.snapshots[sn].evaluatedAt);
  }
}
