/** The evidence chain over whole runs: stored services stay valid, every snapshot was computed from one
    for one claim of one job, and every 'service.evaluated' event is about one snapshot. */
module Evidence {
  import opened Wrappers
  import opened Jobs
  import Q = Queue
  import QueueSafety
  import opened Domain
  import opened PlatformChecks
  import opened ControlPlane

  // ----- Stored services -----

  predicate ServicesOk(x: Syntax, services: map<Uuid, Service>, writes: map<ClientId, Service>) {
    && (forall id <- services :: services[id].id == id && ValidService(x, services[id]))
    && (forall client <- writes :: ValidService(x, writes[client]))
  }

  lemma RegisterKeepsServices(x: Syntax, services: map<Uuid, Service>, writes: map<ClientId, Service>, id: Uuid, i: ServiceInput)
    requires ServicesOk(x, services, writes) && ValidateInput(x, i).None?
    ensures ServicesOk(x, services[id := Registered(id, i)], writes)
  {
    InputAcceptedIff(x, id, i);
  }

  lemma FetchKeepsServices(x: Syntax, services: map<Uuid, Service>, writes: map<ClientId, Service>, client: ClientId,
                           id: Uuid, p: ServicePatch)
    requires ServicesOk(x, services, writes) && id in services && ValidatePatch(x, p).None?
    ensures ServicesOk(x, services, writes[client := Patched(services[id], p)])
  {
    PatchAcceptedIff(x, services[id], p);
  }

  lemma StepKeepsServices(c: Config, s: Sys, a: Action)
    requires ServicesOk(c.syntax, s.services, s.writes)
    ensures ServicesOk(c.syntax, Do(c, s, a).services, Do(c, s, a).writes)
  {
    if Enabled(c, s, a) && a.Register? {
      RegisterKeepsServices(c.syntax, s.services, s.writes, a.id, a.input);
    } else if Enabled(c, s, a) && a.FetchForUpdate? {
      FetchKeepsServices(c.syntax, s.services, s.writes, a.client, a.service, a.patch);
    } else if Enabled(c, s, a) && a.WriteService? {
      WriteKeepsServices(c.syntax, s, a.client);
    } else {
      OthersKeepServices(c, s, a);
    }
  }

  /** A patch read earlier and written now, over whatever other patches were written meanwhile. */
  lemma WriteKeepsServices(x: Syntax, s: Sys, client: ClientId)
    requires ServicesOk(x, s.services, s.writes) && client in s.writes && s.writes[client].id in s.services
    ensures ServicesOk(x, AfterWrite(s, client).services, AfterWrite(s, client).writes)
  {
    var record := s.writes[client];
    RenamedValid(x, record, s.services[record.id]);
    PutService(x, s.services, s.writes, record.(name := s.services[record.id].name), client);
  }

  lemma PutService(x: Syntax, services: map<Uuid, Service>, writes: map<ClientId, Service>, record: Service, client: ClientId)
    requires ServicesOk(x, services, writes) && ValidService(x, record)
    ensures ServicesOk(x, services[record.id := record], writes - {client})
  {}

  lemma RenamedValid(x: Syntax, a: Service, b: Service)
    requires ValidService(x, a) && ValidService(x, b)
    ensures ValidService(x, a.(name := b.name))
  {}

  /** No interleaving of stale read-modify-write patches can store an invalid service. */
  lemma {:induction false} StoredServicesValid(c: Config, actions: seq<Action>)
    ensures ServicesOk(c.syntax, Run(c, INIT, actions).services, Run(c, INIT, actions).writes)
  {
    if actions != [] {
      StoredServicesValid(c, actions[..|actions| - 1]);
      StepKeepsServices(c, Run(c, INIT, actions[..|actions| - 1]), actions[|actions| - 1]);
    }
  }

  // ----- What a worker holds while it processes a job -----

  predicate Working(x: Syntax, batch: seq<Job>, p: Progress) {
    match p
    case Start => true
    case HasService(service, _) => batch != [] && ValidService(x, service) && service.id == batch[0].resourceId
    case HasResult(snapshot, checks, service, _) =>
      && batch != [] && ValidService(x, service) && service.id == batch[0].resourceId
      && snapshot == SnapshotOf(service, batch[0].id, snapshot.evaluatedAt, snapshot.id)
      && checks == ChecksOf(service, snapshot.evaluatedAt, snapshot.id)
    case HasSaved(_) => batch != []
    case ReturnedNil => batch != []
    case ReturnedError => batch != []
  }

  predicate AllWorking(c: Config, s: Sys) {
    forall w <- s.progress :: Working(c.syntax, Batch(s, w), s.progress[w])
  }

  /** A queue step touches the batch of its worker only, which then starts over. */
  lemma QueueStepBatches(lease: nat, q: Q.State, step: Q.Step, w: WorkerId)
    requires Q.Enabled(lease, q, step) && StepWorker(step) != Some(w)
    ensures Q.Batch(Q.Do(lease, q, step), w) == Q.Batch(q, w)
  {}

  lemma StepKeepsWorking(c: Config, s: Sys, a: Action)
    requires AllWorking(c, s) && ServicesOk(c.syntax, s.services, s.writes)
    ensures AllWorking(c, Do(c, s, a))
  {
    var s' := Do(c, s, a);
    if Enabled(c, s, a) && a.Queue? {
      forall w | w in s'.progress ensures Working(c.syntax, Batch(s', w), s'.progress[w]) {
        if StepWorker(a.step) != Some(w) { QueueStepBatches(c.lease, s.q, a.step, w); }
      }
    } else {
      OthersKeepQueue(c, s, a);
      if Enabled(c, s, a) && a.SaveEvaluation? {
        assert s' == AfterSave(s, a.worker, a.outcome);
      } else if !Enabled(c, s, a) || !(a.ReadService? || a.RunChecks? || a.AuditEvaluation?) {
        OthersKeepProgress(c, s, a);
      }
    }
  }

  lemma {:induction false} WorkersHoldTheirJob(c: Config, actions: seq<Action>)
    ensures AllWorking(c, Run(c, INIT, actions))
  {
    if actions != [] {
      var before := actions[..|actions| - 1];
      WorkersHoldTheirJob(c, before);
      StoredServicesValid(c, before);
      StepKeepsWorking(c, Run(c, INIT, before), actions[|actions| - 1]);
    }
  }

  // ----- Snapshots, and the claims they were made under -----

  predicate SnapshotOk(snapshot: Snapshot, checks: seq<CheckResult>, o: Origin, id: Uuid) {
    && snapshot == SnapshotOf(o.service, o.job, snapshot.evaluatedAt, id)
    && checks == ChecksOf(o.service, snapshot.evaluatedAt, id)
  }

  predicate FromValid(x: Syntax, origins: map<Uuid, Origin>) {
    forall id <- origins :: ValidService(x, origins[id].service)
  }

  /** The claim an origin names is one the job has had. */
  predicate OriginOk(jobs: Table, o: Origin) {
    o.job in jobs && 1 <= o.attempt <= jobs[o.job].attempts && jobs[o.job].resourceId == o.service.id
  }

  predicate Unsaved(origins: map<Uuid, Origin>, h: Job) {
    forall id <- origins :: origins[id].job != h.id || origins[id].attempt != h.attempts
  }

  predicate BeforeSave(p: Progress) { p.Start? || p.HasService? || p.HasResult? }

  /** Handles a worker has still to save a snapshot for. */
  predicate BatchUnsaved(origins: map<Uuid, Origin>, batch: seq<Job>, p: Progress) {
    forall i :: 0 <= i < |batch| && (i > 0 || BeforeSave(p)) ==> Unsaved(origins, batch[i])
  }

  predicate SameClaim(o: Origin, o': Origin) { o.job == o'.job && o.attempt == o'.attempt }

  predicate OriginsDistinct(origins: map<Uuid, Origin>) {
    forall a, b :: a in origins && b in origins && SameClaim(origins[a], origins[b]) ==> a == b
  }

  predicate SnapshotsOk(snapshots: map<Uuid, Snapshot>, checks: map<Uuid, seq<CheckResult>>, origins: map<Uuid, Origin>) {
    && checks.Keys == snapshots.Keys && origins.Keys == snapshots.Keys
    && forall id <- snapshots :: SnapshotOk(snapshots[id], checks[id], origins[id], id)
  }

  predicate OriginsOk(jobs: Table, origins: map<Uuid, Origin>) {
    forall id <- origins :: OriginOk(jobs, origins[id])
  }

  predicate AllUnsaved(q: Q.State, progress: map<WorkerId, Progress>, origins: map<Uuid, Origin>) {
    forall w <- q.batches :: BatchUnsaved(origins, Q.Batch(q, w), ProgressIn(progress, w))
  }

  /** The snapshot a worker has just saved is the one made under the claim it is processing. */
  predicate SavedOk(batch: seq<Job>, p: Progress, origins: map<Uuid, Origin>) {
    p.HasSaved? ==>
      batch != [] && p.snapshotId in origins
      && origins[p.snapshotId].job == batch[0].id && origins[p.snapshotId].attempt == batch[0].attempts
  }

  predicate AllSavedOk(q: Q.State, progress: map<WorkerId, Progress>, origins: map<Uuid, Origin>) {
    forall w <- progress :: SavedOk(Q.Batch(q, w), progress[w], origins)
  }

  predicate SnapshotsInv(c: Config, s: Sys) {
    && SnapshotsOk(s.snapshots, s.checks, s.origins)
    && FromValid(c.syntax, s.origins)
    && OriginsDistinct(s.origins)
    && OriginsOk(s.q.jobs, s.origins)
    && AllUnsaved(s.q, s.progress, s.origins)
    && AllSavedOk(s.q, s.progress, s.origins)
  }

  /** After a step of worker w its handles are new, or were waiting behind the head. */
  lemma QueueStepHandles(lease: nat, q: Q.State, step: Q.Step, w: WorkerId, h: Job)
    requires Q.Inv(lease, q) && Q.Enabled(lease, q, step) && StepWorker(step) == Some(w)
    requires h in Q.Batch(Q.Do(lease, q, step), w)
    ensures (Q.Batch(q, w) != [] && h in Q.Batch(q, w)[1..]) || (h.id in q.jobs && h.attempts > q.jobs[h.id].attempts)
  {
    if step.Claim? && step.outcome != Q.Refused {
      assert h in Q.Returned(ClaimRows(q.jobs, step.picked, w, step.now), step.picked);
    }
  }

  lemma QueueKeepsOrigins(lease: nat, q: Q.State, step: Q.Step, origins: map<Uuid, Origin>)
    requires Q.Inv(lease, q) && OriginsOk(q.jobs, origins)
    ensures OriginsOk(Q.Do(lease, q, step).jobs, origins)
  {
    forall id | id in origins ensures OriginOk(Q.Do(lease, q, step).jobs, origins[id]) {
      QueueSafety.StepEvolves(lease, q, step, origins[id].job);
    }
  }

  lemma QueueKeepsUnsaved(lease: nat, q: Q.State, step: Q.Step, origins: map<Uuid, Origin>, w: WorkerId, p: Progress)
    requires Q.Inv(lease, q) && Q.Enabled(lease, q, step)
    requires OriginsOk(q.jobs, origins) && BatchUnsaved(origins, Q.Batch(q, w), p)
    ensures BatchUnsaved(origins, Q.Batch(Q.Do(lease, q, step), w), if StepWorker(step) == Some(w) then Start else p)
  {
    var b := Q.Batch(q, w);
    if StepWorker(step) == Some(w) {
      forall h | h in Q.Batch(Q.Do(lease, q, step), w) ensures Unsaved(origins, h) {
        QueueStepHandles(lease, q, step, w, h);
        if b != [] && h in b[1..] {
          var i :| 0 <= i < |b[1..]| && b[1..][i] == h;
          assert b[i + 1] == h && Unsaved(origins, b[i + 1]);
        }
      }
    } else {
      QueueStepBatches(lease, q, step, w);
    }
  }

  function Restart(progress: map<WorkerId, Progress>, w: Option<WorkerId>): map<WorkerId, Progress> {
    if w.Some? then progress[w.value := Start] else progress
  }

  lemma QueueKeepsHandles(lease: nat, q: Q.State, step: Q.Step, progress: map<WorkerId, Progress>, origins: map<Uuid, Origin>)
    requires Q.Inv(lease, q) && Q.Enabled(lease, q, step) && OriginsOk(q.jobs, origins)
    requires AllUnsaved(q, progress, origins) && AllSavedOk(q, progress, origins)
    ensures AllUnsaved(Q.Do(lease, q, step), Restart(progress, StepWorker(step)), origins)
    ensures AllSavedOk(Q.Do(lease, q, step), Restart(progress, StepWorker(step)), origins)
  {
    var q', progress' := Q.Do(lease, q, step), Restart(progress, StepWorker(step));
    forall w | w in q'.batches ensures BatchUnsaved(origins, Q.Batch(q', w), ProgressIn(progress', w)) {
      QueueKeepsUnsaved(lease, q, step, origins, w, ProgressIn(progress, w));
    }
    forall w | w in progress' ensures SavedOk(Q.Batch(q', w), progress'[w], origins) {
      if StepWorker(step) != Some(w) { QueueStepBatches(lease, q, step, w); }
    }
  }

  lemma QueueKeepsSnapshots(c: Config, s: Sys, step: Q.Step)
    requires SnapshotsInv(c, s) && Q.Inv(c.lease, s.q) && Q.Enabled(c.lease, s.q, step)
    ensures SnapshotsInv(c, AfterQueue(c, s, step))
  {
    QueueKeepsOrigins(c.lease, s.q, step, s.origins);
    QueueKeepsHandles(c.lease, s.q, step, s.progress, s.origins);
  }

  /** Two handles for the same attempt of a job are one worker's. */
  lemma HandlesDiffer(lease: nat, q: Q.State, v: WorkerId, g: Job, w: WorkerId, h: Job)
    requires Q.Inv(lease, q) && g in Q.Batch(q, v) && h in Q.Batch(q, w) && v != w
    ensures g.id != h.id || g.attempts != h.attempts
  {
    assert Q.BatchOk(lease, q, v, q.batches[v]) && Q.BatchOk(lease, q, w, q.batches[w]);
    assert Q.HandleIn(lease, q, v, g) && Q.HandleIn(lease, q, w, h);
  }

  lemma SaveKeepsUnsaved(lease: nat, q: Q.State, origins: map<Uuid, Origin>, id: Uuid, o: Origin, w: WorkerId, v: WorkerId,
                         p: Progress, p': Progress)
    requires Q.Inv(lease, q) && Q.Batch(q, w) != []
    requires o.job == Q.Batch(q, w)[0].id && o.attempt == Q.Batch(q, w)[0].attempts
    requires BatchUnsaved(origins, Q.Batch(q, v), p) && (if v == w then !BeforeSave(p') else p' == p)
    ensures BatchUnsaved(origins[id := o], Q.Batch(q, v), p')
  {
    var b := Q.Batch(q, v);
    forall i | 0 <= i < |b| && (i > 0 || BeforeSave(p')) ensures Unsaved(origins[id := o], b[i]) {
      assert Unsaved(origins, b[i]);
      if v == w {
        assert Q.BatchOk(lease, q, w, q.batches[w]);
      } else {
        HandlesDiffer(lease, q, v, b[i], w, Q.Batch(q, w)[0]);
      }
    }
  }

  /** A snapshot computed for an unsaved claim joins the others. */
  lemma SaveKeepsOrigins(x: Syntax, jobs: Table, origins: map<Uuid, Origin>, id: Uuid, o: Origin, h: Job)
    requires FromValid(x, origins) && OriginsDistinct(origins) && OriginsOk(jobs, origins)
    requires ValidService(x, o.service) && OriginOk(jobs, o)
    requires o.job == h.id && o.attempt == h.attempts && Unsaved(origins, h)
    ensures FromValid(x, origins[id := o]) && OriginsDistinct(origins[id := o]) && OriginsOk(jobs, origins[id := o])
  {}

  lemma SaveAddsSnapshot(s: Sys, id: Uuid, snapshot: Snapshot, checks: seq<CheckResult>, o: Origin)
    requires SnapshotsOk(s.snapshots, s.checks, s.origins) && id !in s.snapshots && SnapshotOk(snapshot, checks, o, id)
    ensures SnapshotsOk(s.snapshots[id := snapshot], s.checks[id := checks], s.origins[id := o])
  {}

  /** The two ways a save can end, s' being the state after it. */
  predicate Saves(s: Sys, w: WorkerId, s': Sys, o: Origin)
    requires Batch(s, w) != [] && ProgressIn(s.progress, w).HasResult?
  {
    var p, h := ProgressIn(s.progress, w), Batch(s, w)[0];
    var id := p.snapshot.id;
    && o == Origin(h.id, h.attempts, p.service, p.seen)
    && s'.q == s.q && w in s'.progress && s'.progress == s.progress[w := s'.progress[w]]
    && (|| (s'.snapshots == s.snapshots && s'.checks == s.checks && s'.origins == s.origins && s'.progress[w].ReturnedError?)
        || (id !in s.snapshots && s'.snapshots == s.snapshots[id := p.snapshot] && s'.checks == s.checks[id := p.checks]
            && s'.origins == s.origins[id := o] && s'.progress[w] in {ReturnedError, HasSaved(id)}))
  }

  lemma SaveEffect(s: Sys, w: WorkerId, outcome: Q.Outcome, o: Origin)
    requires Batch(s, w) != [] && ProgressOf(s, w).HasResult?
    requires o == Origin(Batch(s, w)[0].id, Batch(s, w)[0].attempts, ProgressOf(s, w).service, ProgressOf(s, w).seen)
    ensures Saves(s, w, AfterSave(s, w, outcome), o)
  {}

  lemma SaveKeepsSnapshots(c: Config, s: Sys, w: WorkerId, s': Sys, o: Origin)
    requires SnapshotsInv(c, s) && AllWorking(c, s) && Q.Inv(c.lease, s.q)
    requires Batch(s, w) != [] && ProgressOf(s, w).HasResult? && Saves(s, w, s', o)
    ensures SnapshotsInv(c, s')
  {
    ResultOk(c, s, w);
    SaveKeepsHandles(c, s, w, s', o);
    SaveKeepsTables(c, s, w, s', o);
  }

  lemma SaveKeepsTables(c: Config, s: Sys, w: WorkerId, s': Sys, o: Origin)
    requires SnapshotsOk(s.snapshots, s.checks, s.origins)
    requires FromValid(c.syntax, s.origins) && OriginsDistinct(s.origins) && OriginsOk(s.q.jobs, s.origins)
    requires Batch(s, w) != [] && ProgressIn(s.progress, w).HasResult?
    requires Saves(s, w, s', o)
    requires var p := ProgressIn(s.progress, w);
      && SnapshotOk(p.snapshot, p.checks, o, p.snapshot.id) && ValidService(c.syntax, o.service)
      && OriginOk(s.q.jobs, o) && Unsaved(s.origins, Batch(s, w)[0])
    ensures SnapshotsOk(s'.snapshots, s'.checks, s'.origins)
    ensures FromValid(c.syntax, s'.origins) && OriginsDistinct(s'.origins) && OriginsOk(s'.q.jobs, s'.origins)
  {
    var p := ProgressIn(s.progress, w);
    SaveKeepsOrigins(c.syntax, s.q.jobs, s.origins, p.snapshot.id, o, Batch(s, w)[0]);
    if p.snapshot.id !in s.snapshots { SaveAddsSnapshot(s, p.snapshot.id, p.snapshot, p.checks, o); }
  }

  /** What SaveReadinessEvaluation is called with. */
  lemma ResultOk(c: Config, s: Sys, w: WorkerId)
    requires OriginsOk(s.q.jobs, s.origins) && AllUnsaved(s.q, s.progress, s.origins) && AllWorking(c, s) && Q.Inv(c.lease, s.q)
    requires Batch(s, w) != [] && ProgressOf(s, w).HasResult?
    ensures var p, h := ProgressIn(s.progress, w), Batch(s, w)[0];
      var o := Origin(h.id, h.attempts, p.service, p.seen);
      && SnapshotOk(p.snapshot, p.checks, o, p.snapshot.id) && ValidService(c.syntax, p.service)
      && OriginOk(s.q.jobs, o) && Unsaved(s.origins, h)
  {
    assert Working(c.syntax, Batch(s, w), s.progress[w]);
    Q.HeadOk(c.lease, s.q, w);
    assert BatchUnsaved(s.origins, Q.Batch(s.q, w), s.progress[w]);
  }

  lemma SaveKeepsHandles(c: Config, s: Sys, w: WorkerId, s': Sys, o: Origin)
    requires AllUnsaved(s.q, s.progress, s.origins) && AllSavedOk(s.q, s.progress, s.origins) && Q.Inv(c.lease, s.q)
    requires Batch(s, w) != [] && ProgressIn(s.progress, w).HasResult? && s.origins.Keys == s.snapshots.Keys
    requires Saves(s, w, s', o)
    ensures AllUnsaved(s'.q, s'.progress, s'.origins) && AllSavedOk(s'.q, s'.progress, s'.origins)
  {
    var id := ProgressIn(s.progress, w).snapshot.id;
    forall v | v in s'.q.batches
      ensures BatchUnsaved(s'.origins, Q.Batch(s'.q, v), ProgressIn(s'.progress, v))
    {
      assert BatchUnsaved(s.origins, Q.Batch(s.q, v), ProgressIn(s.progress, v));
      SaveKeepsUnsaved(c.lease, s.q, s.origins, id, o, w, v, ProgressIn(s.progress, v), ProgressIn(s'.progress, v));
    }
    forall v | v in s'.progress ensures SavedOk(Q.Batch(s'.q, v), s'.progress[v], s'.origins) {
      if v != w { assert SavedOk(Q.Batch(s.q, v), s.progress[v], s.origins); }
    }
  }

  /** Moving one worker on, past no save, keeps what is known of the handles. */
  lemma ProgressKeepsHandles(q: Q.State, progress: map<WorkerId, Progress>, origins: map<Uuid, Origin>, w: WorkerId, p: Progress)
    requires AllUnsaved(q, progress, origins) && AllSavedOk(q, progress, origins)
    requires Q.Batch(q, w) != [] && !p.HasSaved? && (BeforeSave(p) ==> BeforeSave(ProgressIn(progress, w)))
    ensures AllUnsaved(q, progress[w := p], origins) && AllSavedOk(q, progress[w := p], origins)
  {
    forall v | v in q.batches ensures BatchUnsaved(origins, Q.Batch(q, v), ProgressIn(progress[w := p], v)) {
      assert BatchUnsaved(origins, Q.Batch(q, v), ProgressIn(progress, v));
    }
  }

  /** What ReadService, RunChecks and AuditEvaluation do to a worker's progress. */
  lemma WorkerMovesOn(c: Config, s: Sys, a: Action)
    requires Enabled(c, s, a) && (a.ReadService? || a.RunChecks? || a.AuditEvaluation?)
    ensures var s', w := Do(c, s, a), a.worker;
      && w in s'.progress && s'.progress == s.progress[w := s'.progress[w]] && s'.q == s.q
      && Batch(s, w) != [] && !s'.progress[w].HasSaved?
      && (BeforeSave(s'.progress[w]) ==> BeforeSave(ProgressIn(s.progress, w)))
  {}

  lemma WorkerKeepsSnapshots(c: Config, s: Sys, a: Action)
    requires SnapshotsInv(c, s) && Enabled(c, s, a) && (a.ReadService? || a.RunChecks? || a.AuditEvaluation?)
    ensures SnapshotsInv(c, Do(c, s, a))
  {
    WorkerMovesOn(c, s, a);
    OthersKeepSnapshots(c, s, a);
    ProgressKeepsHandles(s.q, s.progress, s.origins, a.worker, Do(c, s, a).progress[a.worker]);
  }

  lemma StepKeepsSnapshots(c: Config, s: Sys, a: Action)
    requires SnapshotsInv(c, s) && AllWorking(c, s) && Q.Inv(c.lease, s.q)
    ensures SnapshotsInv(c, Do(c, s, a))
  {
    if Enabled(c, s, a) && a.Queue? {
      QueueKeepsSnapshots(c, s, a.step);
    } else if Enabled(c, s, a) && a.SaveEvaluation? {
      var p, h := ProgressOf(s, a.worker), Batch(s, a.worker)[0];
      SaveEffect(s, a.worker, a.outcome, Origin(h.id, h.attempts, p.service, p.seen));
      SaveKeepsSnapshots(c, s, a.worker, Do(c, s, a), Origin(h.id, h.attempts, p.service, p.seen));
    } else if Enabled(c, s, a) && (a.ReadService? || a.RunChecks? || a.AuditEvaluation?) {
      WorkerKeepsSnapshots(c, s, a);
    } else {
      OthersKeepQueue(c, s, a);
      OthersKeepProgress(c, s, a);
      OthersKeepSnapshots(c, s, a);
    }
  }

  lemma OthersKeepSnapshots(c: Config, s: Sys, a: Action)
    requires !a.SaveEvaluation? || !Enabled(c, s, a)
    ensures var s' := Do(c, s, a);
      s'.snapshots == s.snapshots && s'.checks == s.checks && s'.origins == s.origins
  {
    if !Enabled(c, s, a) || !(a.AuditEvaluation? || a.AuditOther?) { OthersKeepEvidence(c, s, a); }
  }

  lemma {:induction false} SnapshotsHold(c: Config, actions: seq<Action>)
    ensures SnapshotsInv(c, Run(c, INIT, actions))
  {
    if actions != [] {
      var before := actions[..|actions| - 1];
      SnapshotsHold(c, before);
      WorkersHoldTheirJob(c, before);
      ReachableQueueInv(c, before);
      StepKeepsSnapshots(c, Run(c, INIT, before), actions[|actions| - 1]);
    }
  }

  /** What the snapshots of any reachable state say: each was computed from one valid service, so only CI,
      tracing and metrics decide its state and score. */
  lemma SnapshotScores(c: Config, actions: seq<Action>, id: Uuid)
    requires id in Run(c, INIT, actions).snapshots
    ensures id in Run(c, INIT, actions).origins
    ensures var sn, sv := Run(c, INIT, actions).snapshots[id], Run(c, INIT, actions).origins[id].service;
      && sn.state == (if !sv.hasCI then Blocked else if !sv.hasTracing || !sv.hasMetrics then Degraded else Ready)
      && sn.score == 100 - 30 * Missing(sv.hasCI) - 10 * (Missing(sv.hasTracing) + Missing(sv.hasMetrics))
      && sn.score >= 50
  {
    SnapshotsHold(c, actions);
    var s := Run(c, INIT, actions);
    assert SnapshotOk(s.snapshots[id], s.checks[id], s.origins[id], id);
    ValidServiceScore(c.syntax, s.origins[id].service);
  }

  /** The ten check rows stored with a snapshot are the ones its state and score count. */
  predicate Whole(snapshot: Snapshot, checks: seq<CheckResult>) {
    && |checks| == 10
    && snapshot.state == StateOf(checks) && snapshot.score == ScoreOf(checks)
    && forall k <- checks :: k.snapshotId == Some(snapshot.id) && k.serviceId == snapshot.serviceId
                             && k.createdAt == Some(snapshot.evaluatedAt)
  }

  lemma ComputedIsWhole(o: Origin, at: Time, id: Uuid)
    ensures Whole(SnapshotOf(o.service, o.job, at, id), ChecksOf(o.service, at, id))
  {
    StampedCounts(CheckList(o.service), id, at);
  }

  /** A scorecard is never torn, whatever failed or was retried. */
  lemma ScorecardConsistent(c: Config, actions: seq<Action>, id: Uuid)
    requires id in Run(c, INIT, actions).snapshots
    ensures id in Run(c, INIT, actions).checks && Whole(Run(c, INIT, actions).snapshots[id], Run(c, INIT, actions).checks[id])
    ensures id in Run(c, INIT, actions).origins
    ensures var s := Run(c, INIT, actions); var o, sn := s.origins[id], s.snapshots[id];
      && sn.id == id && sn.serviceId == o.service.id && sn.jobId == o.job
      && TenChecks(o.service, s.checks[id], sn.evaluatedAt, id)
  {
    SnapshotsHold(c, actions);
    var s := Run(c, INIT, actions);
    ChecksSay(s.origins[id].service, s.snapshots[id].evaluatedAt, id);
    assert SnapshotOk(s.snapshots[id], s.checks[id], s.origins[id], id);
    ComputedIsWhole(s.origins[id], s.snapshots[id].evaluatedAt, id);
  }

  lemma {:induction false} StampedCounts(checks: seq<CheckResult>, id: Uuid, at: Time)
    ensures Count(Stamped(checks, id, at), Fail) == Count(checks, Fail)
    ensures Count(Stamped(checks, id, at), Warn) == Count(checks, Warn)
  {
    if checks != [] {
      StampedCounts(checks[..|checks| - 1], id, at);
      assert Stamped(checks, id, at)[..|checks| - 1] == Stamped(checks[..|checks| - 1], id, at);
    }
  }
}
