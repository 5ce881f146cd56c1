/** The deployment gate: candidates and the decisions about them, under any number of concurrent
    evaluations racing with workers that append snapshots. */
module Gate {
  import opened Wrappers
  import opened Jobs
  import Q = Queue
  import opened Domain
  import opened PlatformChecks
  import opened ControlPlane

  predicate CanTransitionTo(status: CandidateStatus, next: CandidateStatus) {
    match status
    case CandidatePending => next == CandidateApproved || next == CandidateRejected
    case CandidateApproved => false
    case CandidateRejected => false
  }

  /** A candidate and its decision, if there is one, tell the same story. */
  predicate CandidateOk(candidates: map<Uuid, Candidate>, decisions: map<Uuid, Decision>, id: Uuid)
    requires id in candidates
  {
    var c := candidates[id];
    && c.id == id
    && (id in decisions <==> c.status != CandidatePending)
    && (id in decisions ==>
          var d := decisions[id];
          d.candidateId == id && d.decision == c.status && d.summary == c.reason && d.snapshotId == c.lastSnapshotId)
  }

  predicate EvaluationOk(candidates: map<Uuid, Candidate>, e: Evaluation) {
    match e
    case HasCandidate(c, _) => c.id in candidates && c.serviceId == candidates[c.id].serviceId
    case HasVerdict(c, snapshot, status, reason, _, _) =>
      && c.id in candidates && c.serviceId == candidates[c.id].serviceId
      && (status, reason) == Verdict(snapshot)
      && (snapshot.Some? ==> snapshot.value.serviceId == c.serviceId)
    case Finished => true
  }

  predicate GateInv(s: Sys) {
    && (forall id <- s.candidates :: CandidateOk(s.candidates, s.decisions, id))
    && (forall id <- s.decisions :: id in s.candidates)
    && (forall client <- s.evaluations :: EvaluationOk(s.candidates, s.evaluations[client]))
  }

  lemma DecisionKeepsGate(s: Sys, client: ClientId, decisionId: Uuid, createdAt: Time, outcome: Q.Outcome)
    requires GateInv(s) && client in s.evaluations && s.evaluations[client].HasVerdict?
    ensures GateInv(AfterDecision(s, client, decisionId, createdAt, outcome))
  {
    assert EvaluationOk(s.candidates, s.evaluations[client]);
    var s' := AfterDecision(s, client, decisionId, createdAt, outcome);
    forall id | id in s'.candidates ensures CandidateOk(s'.candidates, s'.decisions, id) {
      assert CandidateOk(s.candidates, s.decisions, id);
    }
    forall k | k in s'.evaluations ensures EvaluationOk(s'.candidates, s'.evaluations[k]) {
      assert EvaluationOk(s.candidates, s.evaluations[k]);
    }
  }

  lemma FetchLatestKeepsGate(s: Sys, client: ClientId, latest: Option<Uuid>)
    requires GateInv(s) && client in s.evaluations && s.evaluations[client].HasCandidate?
    requires Answers(s.snapshots, latest, s.evaluations[client].candidate.serviceId)
    ensures GateInv(AfterFetchLatest(s, client, latest))
  {
    assert EvaluationOk(s.candidates, s.evaluations[client]);
  }

  lemma CreateKeepsGate(c: Config, s: Sys, a: Action)
    requires GateInv(s) && a.CreateCandidate? && Enabled(c, s, a)
    ensures GateInv(Do(c, s, a))
  {
    var s' := Do(c, s, a);
    forall id | id in s'.candidates ensures CandidateOk(s'.candidates, s'.decisions, id) {
      if id in s.candidates { assert CandidateOk(s.candidates, s.decisions, id); }
    }
    forall k | k in s'.evaluations ensures EvaluationOk(s'.candidates, s'.evaluations[k]) {
      assert EvaluationOk(s.candidates, s.evaluations[k]);
    }
  }

  /** A new candidate is pending, undecided and unevaluated, and no other candidate changes. */
  lemma CreatedIsPending(c: Config, s: Sys, id: Uuid, service: Uuid)
    requires GateInv(s) && Enabled(c, s, CreateCandidate(id, service))
    ensures var s' := Do(c, s, CreateCandidate(id, service));
      && service in s'.services && id !in s'.decisions
      && s'.candidates == s.candidates[id := Candidate(id, service, CandidatePending, AwaitingEvaluation, None, None)]
  {}

  lemma StepKeepsGate(c: Config, s: Sys, a: Action)
    requires GateInv(s)
    ensures GateInv(Do(c, s, a))
  {
    if Enabled(c, s, a) && a.CreateCandidate? {
      CreateKeepsGate(c, s, a);
    } else if Enabled(c, s, a) && a.FetchCandidate? {
      assert CandidateOk(s.candidates, s.decisions, a.candidate);
    } else if Enabled(c, s, a) && a.FetchLatest? {
      FetchLatestKeepsGate(s, a.client, a.latest);
    } else if Enabled(c, s, a) && a.SaveDecision? {
      DecisionKeepsGate(s, a.client, a.decisionId, a.createdAt, a.outcome);
    } else {
      OthersKeepGate(c, s, a);
    }
  }

  /** In every reachable state a decision exists for a candidate exactly when its status is not pending,
      and then status, reason and snapshot agree. */
  lemma {:induction false} GateHolds(c: Config, actions: seq<Action>)
    ensures GateInv(Run(c, INIT, actions))
  {
    if actions != [] {
      GateHolds(c, actions[..|actions| - 1]);
      StepKeepsGate(c, Run(c, INIT, actions[..|actions| - 1]), actions[|actions| - 1]);
    }
  }

  /** Whenever a decision goes through, none exists for the candidate: the ON CONFLICT branch of the
      upsert is never taken. */
  lemma ConflictBranchUnreachable(c: Config, actions: seq<Action>, candidate: Uuid, d: Decision)
    requires Commits(Run(c, INIT, actions), candidate, d) && d.candidateId == candidate
    ensures candidate !in Run(c, INIT, actions).decisions
    ensures Upsert(Run(c, INIT, actions).decisions, d) == Run(c, INIT, actions).decisions[candidate := d]
  {
    GateHolds(c, actions);
    assert CandidateOk(Run(c, INIT, actions).candidates, Run(c, INIT, actions).decisions, candidate);
  }

  // ----- At most one evaluation decides -----

  predicate SameVerdict(s: Sys, s': Sys, id: Uuid) {
    && id in s.candidates && id in s'.candidates && s'.candidates[id] == s.candidates[id]
    && id in s.decisions && id in s'.decisions && s'.decisions[id] == s.decisions[id]
    && (id in s.trails ==> id in s'.trails && s'.trails[id] == s.trails[id])
  }

  /** A pending candidate moves only as CanTransitionTo allows, a decided one not at all. */
  predicate StatusMoves(s: Sys, s': Sys, id: Uuid)
    requires id in s.candidates
  {
    && id in s'.candidates
    && (s'.candidates[id] == s.candidates[id] || CanTransitionTo(s.candidates[id].status, s'.candidates[id].status))
    && (s.candidates[id].status != CandidatePending ==> SameVerdict(s, s', id))
  }

  lemma DecisionMovesStatus(s: Sys, client: ClientId, decisionId: Uuid, createdAt: Time, outcome: Q.Outcome, id: Uuid)
    requires client in s.evaluations && s.evaluations[client].HasVerdict?
    requires EvaluationOk(s.candidates, s.evaluations[client])
    requires id in s.candidates && CandidateOk(s.candidates, s.decisions, id)
    ensures StatusMoves(s, AfterDecision(s, client, decisionId, createdAt, outcome), id)
  {}

  lemma StatusStep(c: Config, s: Sys, a: Action, id: Uuid)
    requires GateInv(s) && id in s.candidates
    ensures StatusMoves(s, Do(c, s, a), id)
  {
    assert CandidateOk(s.candidates, s.decisions, id);
    if Enabled(c, s, a) && a.SaveDecision? {
      DecisionMovesStatus(s, a.client, a.decisionId, a.createdAt, a.outcome, id);
    } else if !Enabled(c, s, a) || !(a.CreateCandidate? || a.FetchCandidate? || a.FetchLatest?) {
      OthersKeepGate(c, s, a);
    }
  }

  /** However many evaluations of a candidate are in flight, once one of them commits the verdict stands:
      no later action of anyone changes the candidate, its decision, or which evaluation decided it. */
  lemma {:induction false} FirstVerdictStands(c: Config, actions: seq<Action>, more: seq<Action>, id: Uuid)
    requires id in Run(c, INIT, actions).candidates && Run(c, INIT, actions).candidates[id].status != CandidatePending
    ensures SameVerdict(Run(c, INIT, actions), Run(c, INIT, actions + more), id)
  {
    GateHolds(c, actions);
    if more == [] {
      assert actions + more == actions;
      assert CandidateOk(Run(c, INIT, actions).candidates, Run(c, INIT, actions).decisions, id);
    } else {
      var before := more[..|more| - 1];
      FirstVerdictStands(c, actions, before, id);
      GateHolds(c, actions + before);
      assert actions + more == actions + before + [more[|more| - 1]];
      RunOne(c, INIT, actions + before, more[|more| - 1]);
      StatusStep(c, Run(c, INIT, actions + before), more[|more| - 1], id);
    }
  }
}
