/** Audit events over whole runs, and the conservation of evidence per job. */
module Audits {
  import opened Wrappers
  import opened Jobs
  import Q = Queue
  import QueueSafety
  import opened PlatformChecks
  import opened ControlPlane
  import opened Evidence

  predicate IsEvaluated(e: AuditEvent) { e.eventType == ServiceEvaluated }

  /** The event names a stored snapshot of the job and of the service it was written for. */
  predicate EventOk(snapshots: map<Uuid, Snapshot>, e: AuditEvent) {
    IsEvaluated(e) ==>
      && e.details.Some? && e.details.value in snapshots
      && snapshots[e.details.value].jobId == e.requestId && snapshots[e.details.value].serviceId == e.resourceId
  }

  predicate Unaudited(audits: seq<AuditEvent>, snapshotId: Uuid) {
    forall e <- audits :: IsEvaluated(e) ==> e.details != Some(snapshotId)
  }

  predicate Audited(audits: seq<AuditEvent>, job: Uuid) {
    exists e <- audits :: IsEvaluated(e) && e.requestId == job
  }

  predicate EventsDistinct(audits: seq<AuditEvent>) {
    forall i, j :: 0 <= i < j < |audits| && IsEvaluated(audits[i]) && IsEvaluated(audits[j]) ==>
      audits[i].details != audits[j].details
  }

  predicate ProgressAudit(batch: seq<Job>, p: Progress, audits: seq<AuditEvent>) {
    && (p.HasSaved? ==> Unaudited(audits, p.snapshotId))
    && (p.ReturnedNil? && batch != [] ==> Audited(audits, batch[0].id))
  }

  predicate AllProgressAudit(q: Q.State, progress: map<WorkerId, Progress>, audits: seq<AuditEvent>) {
    forall w <- progress :: ProgressAudit(Q.Batch(q, w), progress[w], audits)
  }

  predicate CompletedAudited(jobs: Table, audits: seq<AuditEvent>) {
    forall id <- jobs :: jobs[id].status == JobStatus.Completed ==> Audited(audits, id)
  }

  predicate AuditsInv(s: Sys) {
    && (forall e <- s.audits :: EventOk(s.snapshots, e))
    && EventsDistinct(s.audits)
    && AllProgressAudit(s.q, s.progress, s.audits)
    && CompletedAudited(s.q.jobs, s.audits)
  }

  /** Only the mark of a worker whose processJob returned nil completes a row. */
  lemma CompletedBy(lease: nat, q: Q.State, step: Q.Step, id: Uuid)
    requires Q.Inv(lease, q) && Q.Enabled(lease, q, step) && id in Q.Do(lease, q, step).jobs
    requires Q.Do(lease, q, step).jobs[id].status == JobStatus.Completed
    ensures (id in q.jobs && q.jobs[id].status == JobStatus.Completed)
            || (step.MarkCompleted? && id == Q.Batch(q, step.worker)[0].id)
  {
    QueueSafety.StepMovesTable(lease, q, step);
    QueueSafety.StepAddsRow(lease, q, step);
  }

  lemma QueueKeepsAudits(c: Config, s: Sys, step: Q.Step)
    requires AuditsInv(s) && Q.Inv(c.lease, s.q) && Q.Enabled(c.lease, s.q, step) && QueueAllowed(s, step)
    ensures AuditsInv(AfterQueue(c, s, step))
  {
    var s' := AfterQueue(c, s, step);
    forall id | id in s'.q.jobs && s'.q.jobs[id].status == JobStatus.Completed ensures Audited(s'.audits, id) {
      CompletedBy(c.lease, s.q, step, id);
      if step.MarkCompleted? { assert ProgressAudit(Batch(s, step.worker), s.progress[step.worker], s.audits); }
    }
    forall w | w in s'.progress ensures ProgressAudit(Batch(s', w), s'.progress[w], s'.audits) {
      if StepWorker(step) != Some(w) {
        QueueStepBatches(c.lease, s.q, step, w);
        assert ProgressAudit(Batch(s, w), s.progress[w], s.audits);
      }
    }
  }

  lemma SaveKeepsAudits(s: Sys, w: WorkerId, s': Sys, o: Origin)
    requires AuditsInv(s) && Batch(s, w) != [] && ProgressOf(s, w).HasResult? && Saves(s, w, s', o) && s'.audits == s.audits
    ensures AuditsInv(s')
  {
    var id := ProgressOf(s, w).snapshot.id;
    assert id !in s.snapshots ==> Unaudited(s.audits, id);
  }

  lemma AppendKeepsAudited(audits: seq<AuditEvent>, e: AuditEvent, job: Uuid)
    requires Audited(audits, job)
    ensures Audited(audits + [e], job)
  {
    var k :| k in audits && IsEvaluated(k) && k.requestId == job;
    assert k in audits + [e];
  }

  /** Events of other kinds change nothing here. */
  lemma OtherEventKeepsAudits(s: Sys, s': Sys, e: AuditEvent)
    requires AuditsInv(s) && !IsEvaluated(e) && s'.audits == s.audits + [e]
    requires s'.q == s.q && s'.snapshots == s.snapshots && s'.progress == s.progress
    ensures AuditsInv(s')
  {
    AppendKeepsAll(s, e);
    assert forall k <- s'.audits :: k in s.audits || k == e;
  }

  lemma AppendKeepsAll(s: Sys, e: AuditEvent)
    requires AllProgressAudit(s.q, s.progress, s.audits) && CompletedAudited(s.q.jobs, s.audits)
    requires forall w <- s.progress :: s.progress[w].HasSaved? && IsEvaluated(e) ==> e.details != Some(s.progress[w].snapshotId)
    ensures AllProgressAudit(s.q, s.progress, s.audits + [e]) && CompletedAudited(s.q.jobs, s.audits + [e])
  {
    forall w | w in s.progress ensures ProgressAudit(Batch(s, w), s.progress[w], s.audits + [e]) {
      assert ProgressAudit(Batch(s, w), s.progress[w], s.audits);
      if s.progress[w].ReturnedNil? && Batch(s, w) != [] { AppendKeepsAudited(s.audits, e, Batch(s, w)[0].id); }
    }
    forall id | id in s.q.jobs && s.q.jobs[id].status == JobStatus.Completed ensures Audited(s.audits + [e], id) {
      AppendKeepsAudited(s.audits, e, id);
    }
  }

  lemma AppendKeepsEvents(snapshots: map<Uuid, Snapshot>, audits: seq<AuditEvent>, e: AuditEvent)
    requires forall k <- audits :: EventOk(snapshots, k)
    requires EventsDistinct(audits) && EventOk(snapshots, e)
    requires IsEvaluated(e) ==> e.details.Some? && Unaudited(audits, e.details.value)
    ensures forall k <- audits + [e] :: EventOk(snapshots, k)
    ensures EventsDistinct(audits + [e])
  {
    forall k | k in audits + [e] ensures EventOk(snapshots, k) { assert k in audits || k == e; }
    forall i, j | 0 <= i < j < |audits + [e]| && IsEvaluated((audits + [e])[i]) && IsEvaluated((audits + [e])[j])
      ensures (audits + [e])[i].details != (audits + [e])[j].details
    {
      if j == |audits| { assert audits[i] in audits; }
    }
  }

  /** The event of the snapshot a worker saved is about that snapshot, the first one about it, and no
      other worker is about to write one. */
  lemma EventToWrite(c: Config, s: Sys, w: WorkerId)
    requires AllProgressAudit(s.q, s.progress, s.audits) && SnapshotsInv(c, s) && Q.Inv(c.lease, s.q)
    requires w in s.progress && s.progress[w].HasSaved?
    ensures Batch(s, w) != [] && EventOk(s.snapshots, EvaluatedEvent(Batch(s, w)[0], s.progress[w].snapshotId))
    ensures Unaudited(s.audits, s.progress[w].snapshotId)
    ensures forall v <- s.progress :: v != w && s.progress[v].HasSaved? ==> s.progress[v].snapshotId != s.progress[w].snapshotId
  {
    var id := s.progress[w].snapshotId;
    assert SavedOk(Batch(s, w), s.progress[w], s.origins);
    assert SnapshotOk(s.snapshots[id], s.checks[id], s.origins[id], id);
    assert OriginOk(s.q.jobs, s.origins[id]);
    Q.HeadOk(c.lease, s.q, w);
    assert ProgressAudit(Batch(s, w), s.progress[w], s.audits);
    forall v | v in s.progress && v != w && s.progress[v].HasSaved? ensures s.progress[v].snapshotId != id {
      SavedDiffer(c, s, w, v);
    }
  }

  /** Writing it moves the worker on, to success only if the reply comes. */
  lemma WriteEvent(q: Q.State, progress: map<WorkerId, Progress>, audits: seq<AuditEvent>, w: WorkerId, e: AuditEvent,
                   p: Progress)
    requires AllProgressAudit(q, progress, audits) && CompletedAudited(q.jobs, audits)
    requires Q.Batch(q, w) != [] && IsEvaluated(e) && e.requestId == Q.Batch(q, w)[0].id && !p.HasSaved?
    requires forall v <- progress :: v != w && progress[v].HasSaved? ==> e.details != Some(progress[v].snapshotId)
    ensures AllProgressAudit(q, progress[w := p], audits + [e]) && CompletedAudited(q.jobs, audits + [e])
  {
    forall v | v in progress[w := p] ensures ProgressAudit(Q.Batch(q, v), progress[w := p][v], audits + [e]) {
      if v == w {
        assert e in audits + [e];
      } else {
        assert ProgressAudit(Q.Batch(q, v), progress[v], audits);
        if progress[v].ReturnedNil? && Q.Batch(q, v) != [] { AppendKeepsAudited(audits, e, Q.Batch(q, v)[0].id); }
      }
    }
    forall id | id in q.jobs && q.jobs[id].status == JobStatus.Completed ensures Audited(audits + [e], id) {
      AppendKeepsAudited(audits, e, id);
    }
  }

  /** The two ways writing the event can end, s' being the state after it. */
  predicate Writes(s: Sys, w: WorkerId, s': Sys, e: AuditEvent) {
    && s'.q == s.q && s'.snapshots == s.snapshots && w in s'.progress && s'.progress == s.progress[w := s'.progress[w]]
    && (|| (s'.audits == s.audits && s'.progress[w].ReturnedError?)
        || (s'.audits == s.audits + [e] && s'.progress[w] in {ReturnedError, ReturnedNil}))
  }

  lemma WriteEffect(s: Sys, w: WorkerId, outcome: Q.Outcome)
    requires Batch(s, w) != [] && ProgressOf(s, w).HasSaved?
    ensures Writes(s, w, AfterAudit(s, w, outcome), EvaluatedEvent(Batch(s, w)[0], ProgressOf(s, w).snapshotId))
  {}

  /** A worker appends the event of the snapshot it saved. */
  lemma AuditKeepsAudits(c: Config, s: Sys, w: WorkerId, s': Sys, e: AuditEvent)
    requires AuditsInv(s) && SnapshotsInv(c, s) && Q.Inv(c.lease, s.q)
    requires Q.Batch(s.q, w) != [] && w in s.progress && s.progress[w].HasSaved?
    requires e == EvaluatedEvent(Q.Batch(s.q, w)[0], s.progress[w].snapshotId) && Writes(s, w, s', e)
    ensures AuditsInv(s')
  {
    if s'.audits == s.audits {
      ProgressKeepsAudits(s, s', w);
    } else {
      EventToWrite(c, s, w);
      EventWritten(s, s', w, e, s'.progress[w]);
    }
  }

  lemma EventWritten(s: Sys, s': Sys, w: WorkerId, e: AuditEvent, p: Progress)
    requires AuditsInv(s) && Q.Batch(s.q, w) != [] && IsEvaluated(e) && e.requestId == Q.Batch(s.q, w)[0].id && !p.HasSaved?
    requires e.details.Some? && Unaudited(s.audits, e.details.value) && EventOk(s.snapshots, e)
    requires forall v <- s.progress :: v != w && s.progress[v].HasSaved? ==> e.details != Some(s.progress[v].snapshotId)
    requires s'.q == s.q && s'.snapshots == s.snapshots && s'.progress == s.progress[w := p] && s'.audits == s.audits + [e]
    ensures AuditsInv(s')
  {
    AppendKeepsEvents(s.snapshots, s.audits, e);
    WriteEvent(s.q, s.progress, s.audits, w, e, p);
  }

  /** Two workers never have one snapshot to audit. */
  lemma SavedDiffer(c: Config, s: Sys, w: WorkerId, v: WorkerId)
    requires SnapshotsInv(c, s) && Q.Inv(c.lease, s.q) && v != w
    requires w in s.progress && s.progress[w].HasSaved? && v in s.progress && s.progress[v].HasSaved?
    ensures s.progress[v].snapshotId != s.progress[w].snapshotId
  {
    assert SavedOk(Batch(s, w), s.progress[w], s.origins) && SavedOk(Batch(s, v), s.progress[v], s.origins);
    HandlesDiffer(c.lease, s.q, v, Batch(s, v)[0], w, Batch(s, w)[0]);
  }

  lemma ProgressKeepsAudits(s: Sys, s': Sys, w: WorkerId)
    requires AuditsInv(s) && s'.q == s.q && s'.snapshots == s.snapshots && s'.audits == s.audits
    requires w in s'.progress && s'.progress == s.progress[w := s'.progress[w]]
    requires !s'.progress[w].HasSaved? && !s'.progress[w].ReturnedNil?
    ensures AuditsInv(s')
  {}

  lemma StepKeepsAudits(c: Config, s: Sys, a: Action)
    requires AuditsInv(s) && SnapshotsInv(c, s) && Q.Inv(c.lease, s.q)
    ensures AuditsInv(Do(c, s, a))
  {
    var s' := Do(c, s, a);
    if Enabled(c, s, a) && a.Queue? {
      QueueKeepsAudits(c, s, a.step);
    } else if Enabled(c, s, a) && a.SaveEvaluation? {
      var p, h := ProgressOf(s, a.worker), Batch(s, a.worker)[0];
      SaveEffect(s, a.worker, a.outcome, Origin(h.id, h.attempts, p.service, p.seen));
      SaveKeepsAudits(s, a.worker, s', Origin(h.id, h.attempts, p.service, p.seen));
    } else if Enabled(c, s, a) && a.AuditEvaluation? {
      WriteEffect(s, a.worker, a.outcome);
      AuditKeepsAudits(c, s, a.worker, s', EvaluatedEvent(Batch(s, a.worker)[0], s.progress[a.worker].snapshotId));
    } else if Enabled(c, s, a) && a.AuditOther? {
      OthersKeepQueue(c, s, a);
      OthersKeepProgress(c, s, a);
      OtherEventKeepsAudits(s, s', a.event);
    } else {
      OthersKeepQueue(c, s, a);
      OthersKeepEvidence(c, s, a);
      if Enabled(c, s, a) && (a.ReadService? || a.RunChecks?) {
        ProgressKeepsAudits(s, s', a.worker);
      } else {
        OthersKeepProgress(c, s, a);
      }
    }
  }

  lemma {:induction false} AuditsHold(c: Config, actions: seq<Action>)
    ensures AuditsInv(Run(c, INIT, actions))
  {
    if actions != [] {
      var before := actions[..|actions| - 1];
      AuditsHold(c, before);
      SnapshotsHold(c, before);
      ReachableQueueInv(c, before);
      StepKeepsAudits(c, Run(c, INIT, before), actions[|actions| - 1]);
    }
  }

  // ----- Conservation of evidence -----

  lemma {:induction false} InjectionSize(a: set<nat>, b: set<nat>, f: nat -> nat)
    requires forall x <- a :: f(x) in b
    requires forall x, y :: x in a && y in a && f(x) == f(y) ==> x == y
    ensures |a| <= |b|
    decreases |a|
  {
    if a != {} {
      var x :| x in a;
      InjectionSize(a - {x}, b - {f(x)}, f);
    }
  }

  function SnapshotsOf(snapshots: map<Uuid, Snapshot>, job: Uuid): set<Uuid> {
    set id | id in snapshots && snapshots[id].jobId == job
  }

  /** The positions of the job's 'service.evaluated' events. */
  function EventsOf(s: Sys, job: Uuid): set<nat> {
    set i: nat | i < |s.audits| && IsEvaluated(s.audits[i]) && s.audits[i].requestId == job
  }

  lemma EventsWithinSnapshots(s: Sys, job: Uuid)
    requires AuditsInv(s)
    ensures |EventsOf(s, job)| <= |SnapshotsOf(s.snapshots, job)|
  {
    var f := (i: nat) => if i < |s.audits| && s.audits[i].details.Some? then s.audits[i].details.value else 0;
    forall i | i in EventsOf(s, job) ensures f(i) in SnapshotsOf(s.snapshots, job) {
      assert EventOk(s.snapshots, s.audits[i]);
    }
    forall i, j | i in EventsOf(s, job) && j in EventsOf(s, job) && f(i) == f(j) ensures i == j {
      assert EventOk(s.snapshots, s.audits[i]) && EventOk(s.snapshots, s.audits[j]);
    }
    InjectionSize(EventsOf(s, job), SnapshotsOf(s.snapshots, job), f);
  }

  function UpTo(n: nat): set<nat> { if n == 0 then {} else UpTo(n - 1) + {n} }

  lemma {:induction false} UpToSize(n: nat)
    ensures |UpTo(n)| == n && forall i: nat :: i in UpTo(n) <==> 1 <= i <= n
  {
    if n > 0 { UpToSize(n - 1); }
  }

  /** The snapshots of a job were made under distinct claims of it. */
  lemma SnapshotsOfDistinctClaims(snapshots: map<Uuid, Snapshot>, checks: map<Uuid, seq<CheckResult>>,
                                  origins: map<Uuid, Origin>, jobs: Table, job: Uuid, a: Uuid, b: Uuid)
    requires SnapshotsOk(snapshots, checks, origins) && OriginsDistinct(origins) && OriginsOk(jobs, origins)
    requires a in snapshots && snapshots[a].jobId == job && b in snapshots && snapshots[b].jobId == job
    ensures job in jobs && 1 <= origins[a].attempt <= jobs[job].attempts
    ensures origins[a].attempt == origins[b].attempt ==> a == b
  {
    assert SnapshotOk(snapshots[a], checks[a], origins[a], a) && SnapshotOk(snapshots[b], checks[b], origins[b], b);
    assert OriginOk(jobs, origins[a]);
    assert SameClaim(origins[a], origins[b]) ==> a == b;
  }

  lemma DistinctAttempts(ids: set<Uuid>, origins: map<Uuid, Origin>, n: nat)
    requires forall id <- ids :: id in origins && 1 <= origins[id].attempt <= n
    requires forall a, b :: a in ids && b in ids && origins[a].attempt == origins[b].attempt ==> a == b
    ensures |ids| <= n
  {
    var f := (id: nat) => if id in origins then origins[id].attempt else 0;
    UpToSize(n);
    InjectionSize(ids, UpTo(n), f);
  }

  lemma SnapshotsWithinAttempts(snapshots: map<Uuid, Snapshot>, checks: map<Uuid, seq<CheckResult>>,
                                origins: map<Uuid, Origin>, jobs: Table, job: Uuid)
    requires SnapshotsOk(snapshots, checks, origins) && OriginsDistinct(origins) && OriginsOk(jobs, origins) && job in jobs
    ensures |SnapshotsOf(snapshots, job)| <= jobs[job].attempts
  {
    forall a, b | a in SnapshotsOf(snapshots, job) && b in SnapshotsOf(snapshots, job)
      ensures 1 <= origins[a].attempt <= jobs[job].attempts && (origins[a].attempt == origins[b].attempt ==> a == b)
    {
      SnapshotsOfDistinctClaims(snapshots, checks, origins, jobs, job, a, b);
    }
    DistinctAttempts(SnapshotsOf(snapshots, job), origins, jobs[job].attempts);
  }

  /** For every job of every run, with failed, lost and retried saves, audits and marks anywhere: it was
      claimed as often as it has attempts and never more than it may; its events number no more than its
      snapshots and those no more than its claims; and if it completed there is at least one of each. */
  lemma EvidenceConservation(c: Config, actions: seq<Action>, job: Uuid)
    requires job in Run(c, INIT, actions).q.jobs
    ensures var s := Run(c, INIT, actions); var r := s.q.jobs[job];
      && |Q.Log(s.q, job)| == r.attempts <= r.maxAttempts
      && |EventsOf(s, job)| <= |SnapshotsOf(s.snapshots, job)| <= r.attempts
      && (r.status == JobStatus.Completed ==> |EventsOf(s, job)| >= 1)
  {
    var s := Run(c, INIT, actions);
    ReachableQueueInv(c, actions);
    SnapshotsHold(c, actions);
    AuditsHold(c, actions);
    assert Q.JobOk(c.lease, s.q.jobs[job], Q.Log(s.q, job), s.q.clock);
    EventsWithinSnapshots(s, job);
    SnapshotsWithinAttempts(s.snapshots, s.checks, s.origins, s.q.jobs, job);
    if s.q.jobs[job].status == JobStatus.Completed { CompletedHasEvent(s, job); }
  }

  lemma CompletedHasEvent(s: Sys, job: Uuid)
    requires CompletedAudited(s.q.jobs, s.audits) && job in s.q.jobs && s.q.jobs[job].status == JobStatus.Completed
    ensures |EventsOf(s, job)| >= 1
  {
    var e :| e in s.audits && IsEvaluated(e) && e.requestId == job;
    var i :| 0 <= i < |s.audits| && s.audits[i] == e;
    assert i in EventsOf(s, job);
  }

  // ----- The evidence of one claim -----

  /** A snapshot with its check rows was stored under the very claim that issued h, and its event written. */
  predicate EvidenceOf(s: Sys, h: Job, id: Uuid) {
    && id in s.snapshots && id in s.checks && id in s.origins
    && s.origins[id].job == h.id && s.origins[id].attempt == h.attempts
    && AuditEvent(ServiceEvaluated, h.resourceId, h.id, Some(id)) in s.audits
  }

  lemma AuditsGrow(c: Config, s: Sys, a: Action)
    ensures s.audits <= Do(c, s, a).audits
  {
    if Enabled(c, s, a) && a.SaveEvaluation? {
      assert Do(c, s, a) == AfterSave(s, a.worker, a.outcome);
    } else if !Enabled(c, s, a) || !(a.AuditEvaluation? || a.AuditOther?) {
      OthersKeepEvidence(c, s, a);
    }
  }

  lemma EvidenceStep(c: Config, s: Sys, a: Action, h: Job, id: Uuid)
    requires EvidenceOf(s, h, id)
    ensures EvidenceOf(Do(c, s, a), h, id)
  {
    AuditsGrow(c, s, a);
    if Enabled(c, s, a) && a.SaveEvaluation? {
      assert Do(c, s, a) == AfterSave(s, a.worker, a.outcome);
    } else {
      OthersKeepSnapshots(c, s, a);
    }
  }

  lemma {:induction false} EvidenceStays(c: Config, s: Sys, actions: seq<Action>, h: Job, id: Uuid)
    requires EvidenceOf(s, h, id)
    ensures EvidenceOf(Run(c, s, actions), h, id)
  {
    if actions != [] {
      EvidenceStays(c, s, actions[..|actions| - 1], h, id);
      EvidenceStep(c, Run(c, s, actions[..|actions| - 1]), actions[|actions| - 1], h, id);
    }
  }

  /** It is the only evidence of that claim: one snapshot, one event about it. */
  predicate OnlyEvidence(s: Sys, h: Job, id: Uuid) {
    && EvidenceOf(s, h, id)
    && (forall o <- s.origins :: s.origins[o].job == h.id && s.origins[o].attempt == h.attempts ==> o == id)
    && (forall i, j :: 0 <= i <= j < |s.audits| && AboutSnapshot(s.audits[i], id) && AboutSnapshot(s.audits[j], id) ==> i == j)
  }

  predicate AboutSnapshot(e: AuditEvent, id: Uuid) { IsEvaluated(e) && e.details == Some(id) }

  lemma DistinctIsOnly(s: Sys, h: Job, id: Uuid)
    requires EvidenceOf(s, h, id) && OriginsDistinct(s.origins) && EventsDistinct(s.audits)
    ensures OnlyEvidence(s, h, id)
  {
    forall o | o in s.origins && s.origins[o].job == h.id && s.origins[o].attempt == h.attempts ensures o == id {
      assert SameClaim(s.origins[o], s.origins[id]);
    }
  }

  lemma EvidenceIsWhole(s: Sys, h: Job, id: Uuid)
    requires EvidenceOf(s, h, id) && SnapshotsOk(s.snapshots, s.checks, s.origins)
    ensures SnapshotOk(s.snapshots[id], s.checks[id], s.origins[id], id)
  {}

  /** In every reachable state the evidence of a claim is one snapshot, computed from the service record it
      names as its origin, and one event. */
  lemma EvidenceIsOnly(c: Config, actions: seq<Action>, h: Job, id: Uuid)
    requires EvidenceOf(Run(c, INIT, actions), h, id)
    ensures OnlyEvidence(Run(c, INIT, actions), h, id)
    ensures var s := Run(c, INIT, actions); SnapshotOk(s.snapshots[id], s.checks[id], s.origins[id], id)
  {
    SnapshotsHold(c, actions);
    AuditsHold(c, actions);
    DistinctIsOnly(Run(c, INIT, actions), h, id);
    EvidenceIsWhole(Run(c, INIT, actions), h, id);
  }
}
