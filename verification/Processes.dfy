/** The processes of the control plane side by side: which actions are whose, what a process keeps in memory
    while others act, and what each of its own actions does. */
module Processes {
  import opened Wrappers
  import opened Jobs
  import Q = Queue
  import opened Domain
  import opened PlatformChecks
  import opened ControlPlane

  datatype Caller = Client(client: ClientId) | Worker(worker: WorkerId)

  /** The action is another process's. */
  predicate Foreign(a: Action, caller: Caller) {
    match a
    case Queue(step) => caller.Client? || StepWorker(step) != Some(caller.worker)
    case ReadService(w, _) => caller != Worker(w)
    case RunChecks(w, _) => caller != Worker(w)
    case SaveEvaluation(w, _) => caller != Worker(w)
    case AuditEvaluation(w, _) => caller != Worker(w)
    case FetchForUpdate(client, _, _) => caller != Client(client)
    case WriteService(client) => caller != Client(client)
    case FetchCandidate(client, _) => caller != Client(client)
    case FetchLatest(client, _) => caller != Client(client)
    case SaveDecision(client, _, _, _) => caller != Client(client)
    case _ => true
  }

  predicate AllForeign(actions: seq<Action>, caller: Caller) {
    forall i :: 0 <= i < |actions| ==> Foreign(actions[i], caller)
  }

  /** What a process keeps in memory between its statements. */
  datatype Memory =
    | ClientMemory(evaluation: Option<Evaluation>, write: Option<Service>)
    | WorkerMemory(batch: seq<Job>, progress: Progress)

  function MemoryOf(s: Sys, caller: Caller): Memory {
    match caller
    case Client(k) =>
      ClientMemory(if k in s.evaluations then Some(s.evaluations[k]) else None, if k in s.writes then Some(s.writes[k]) else None)
    case Worker(w) => WorkerMemory(Batch(s, w), ProgressOf(s, w))
  }

  lemma ForeignKeepsClient(c: Config, s: Sys, a: Action, caller: Caller)
    requires Foreign(a, caller) && caller.Client?
    ensures MemoryOf(Do(c, s, a), caller) == MemoryOf(s, caller)
  {
    if !Enabled(c, s, a) || !(a.FetchCandidate? || a.FetchLatest? || a.SaveDecision? || a.CreateCandidate?) {
      OthersKeepGate(c, s, a);
    }
    if !Enabled(c, s, a) || !(a.FetchForUpdate? || a.WriteService? || a.Register?) { OthersKeepServices(c, s, a); }
  }

  lemma ForeignKeepsWorker(c: Config, s: Sys, a: Action, caller: Caller)
    requires Foreign(a, caller) && caller.Worker?
    ensures MemoryOf(Do(c, s, a), caller) == MemoryOf(s, caller)
  {
    if a.Queue? && Enabled(c, s, a) {
    } else {
      OthersKeepQueue(c, s, a);
      if !Enabled(c, s, a) || !(a.ReadService? || a.RunChecks? || a.SaveEvaluation? || a.AuditEvaluation?) {
        OthersKeepProgress(c, s, a);
      }
    }
  }

  /** The worker is at the job h of its batch. */
  predicate AtJob(s: Sys, w: WorkerId, h: Job) { Batch(s, w) != [] && Batch(s, w)[0] == h }

  predicate ServiceRead(s: Sys, h: Job, service: Service) {
    h.jobType == ServiceEvaluation && h.resourceId in s.services && s.services[h.resourceId] == service
  }

  lemma ServiceStays(c: Config, s: Sys, a: Action, id: Uuid)
    requires id in s.services
    ensures id in Do(c, s, a).services
  {
    if !Enabled(c, s, a) || !(a.Register? || a.FetchForUpdate? || a.WriteService?) { OthersKeepServices(c, s, a); }
  }

  predicate Keyed(services: map<Uuid, Service>) { forall id <- services :: services[id].id == id }

  lemma KeyedStep(c: Config, s: Sys, a: Action)
    requires Keyed(s.services)
    ensures Keyed(Do(c, s, a).services)
  {
    if !Enabled(c, s, a) || !(a.Register? || a.FetchForUpdate? || a.WriteService?) { OthersKeepServices(c, s, a); }
  }

  lemma {:induction false} KeepsServices(c: Config, s: Sys, actions: seq<Action>, id: Uuid)
    requires Keyed(s.services)
    ensures Keyed(Run(c, s, actions).services) && (id in s.services ==> id in Run(c, s, actions).services)
  {
    if actions != [] {
      var before := actions[..|actions| - 1];
      KeepsServices(c, s, before, id);
      KeyedStep(c, Run(c, s, before), actions[|actions| - 1]);
      if id in s.services { ServiceStays(c, Run(c, s, before), actions[|actions| - 1], id); }
    }
  }

  /** The name of a service is never written after registration. */
  lemma NameStep(c: Config, s: Sys, a: Action, id: Uuid)
    requires id in s.services
    ensures id in Do(c, s, a).services && Do(c, s, a).services[id].name == s.services[id].name
  {
    if !Enabled(c, s, a) || !(a.Register? || a.FetchForUpdate? || a.WriteService?) { OthersKeepServices(c, s, a); }
  }

  lemma {:induction false} NameStays(c: Config, s: Sys, actions: seq<Action>, id: Uuid)
    requires id in s.services
    ensures id in Run(c, s, actions).services && Run(c, s, actions).services[id].name == s.services[id].name
  {
    if actions != [] {
      NameStays(c, s, actions[..|actions| - 1], id);
      NameStep(c, Run(c, s, actions[..|actions| - 1]), actions[|actions| - 1], id);
    }
  }

  lemma DoesFetchForUpdate(c: Config, s: Sys, client: ClientId, id: Uuid, patch: ServicePatch)
    requires Enabled(c, s, FetchForUpdate(client, id, patch))
    ensures Do(c, s, FetchForUpdate(client, id, patch)) ==
            s.(tick := s.tick + 1, writes := s.writes[client := Patched(s.services[id], patch)])
  {}

  lemma DoesWrite(c: Config, s: Sys, client: ClientId)
    requires client in s.writes && s.writes[client].id in s.services
    ensures Do(c, s, WriteService(client)) == AfterWrite(s, client)
  {}

  lemma DoesAuditOther(c: Config, s: Sys, e: AuditEvent)
    requires e.eventType != ServiceEvaluated
    ensures Do(c, s, AuditOther(e)) == s.(tick := s.tick + 1, audits := s.audits + [e])
  {}

  lemma DoesRead(c: Config, s: Sys, w: WorkerId, h: Job, ok: bool)
    requires AtJob(s, w, h) && ProgressOf(s, w).Start?
    ensures Do(c, s, ReadService(w, ok)) == AfterRead(s, w, ok)
  {}

  lemma DoesCheck(c: Config, s: Sys, w: WorkerId, h: Job, snapshotId: Uuid)
    requires AtJob(s, w, h) && ProgressOf(s, w).HasService?
    ensures Do(c, s, RunChecks(w, snapshotId)) == AfterChecks(s, w, snapshotId)
  {}

  lemma DoesSave(c: Config, s: Sys, w: WorkerId, h: Job, outcome: Q.Outcome)
    requires AtJob(s, w, h) && ProgressOf(s, w).HasResult?
    ensures Do(c, s, SaveEvaluation(w, outcome)) == AfterSave(s, w, outcome)
  {}

  lemma DoesAudit(c: Config, s: Sys, w: WorkerId, h: Job, snapshotId: Uuid, outcome: Q.Outcome)
    requires AtJob(s, w, h) && ProgressOf(s, w) == HasSaved(snapshotId)
    ensures Do(c, s, AuditEvaluation(w, outcome)) == AfterAudit(s, w, outcome)
  {}

  lemma DoesFetchCandidate(c: Config, s: Sys, client: ClientId, id: Uuid)
    requires client !in s.evaluations && id in s.candidates && s.candidates[id].status == CandidatePending
    ensures Do(c, s, FetchCandidate(client, id)) ==
            s.(tick := s.tick + 1, evaluations := s.evaluations[client := HasCandidate(s.candidates[id], s.tick)])
  {}

  lemma DoesFetchLatest(c: Config, s: Sys, client: ClientId, latest: Option<Uuid>)
    requires client in s.evaluations && s.evaluations[client].HasCandidate?
    requires Answers(s.snapshots, latest, s.evaluations[client].candidate.serviceId)
    ensures Do(c, s, FetchLatest(client, latest)) == AfterFetchLatest(s, client, latest)
  {}

  lemma DoesSaveDecision(c: Config, s: Sys, client: ClientId, decisionId: Uuid, createdAt: Time, outcome: Q.Outcome)
    requires client in s.evaluations && s.evaluations[client].HasVerdict?
    ensures Do(c, s, SaveDecision(client, decisionId, createdAt, outcome))
            == AfterDecision(s, client, decisionId, createdAt, outcome)
  {}
}
