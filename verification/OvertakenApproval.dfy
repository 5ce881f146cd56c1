/** A run in which a candidate is approved on a snapshot that was no longer the latest one when the approval
    was committed. */
module OvertakenApproval {
  import opened Wrappers
  import opened Jobs
  import Q = Queue
  import opened Domain
  import opened PlatformChecks
  import opened ControlPlane
  import opened Processes

  /** Service 1 is registered, and job 2 queued to evaluate it. */
  function Queued(input: ServiceInput): seq<Action> {
    [Register(1, input), Queue(Q.Enqueue(2, ServiceEvaluation, 1, "k", 2, 0))]
  }

  function ClaimOf(w: WorkerId, now: Time): Q.Step { Q.Claim(w, 1, 1, now, now, [2], Q.Acked) }

  /** Worker w claims the job and computes snapshot id. */
  function Computation(w: WorkerId, now: Time, id: Uuid): seq<Action> {
    [Queue(ClaimOf(w, now))] + [ReadService(w, true), RunChecks(w, id)]
  }

  /** Worker 1 stores snapshot 10. */
  const FIRST: seq<Action> := Computation(1, 0, 10) + [SaveEvaluation(1, Q.Acked)]

  /** Its lease runs out before it marks the job, and worker 2 computes snapshot 11. */
  const SECOND: seq<Action> := [Queue(Q.Tick(2))] + Computation(2, 2, 11)

  /** Client 9 evaluates candidate 5 and reads snapshot 10. */
  const JUDGED: seq<Action> := [CreateCandidate(5, 1), FetchCandidate(9, 5)] + [FetchLatest(9, Some(10))]

  /** Worker 2 stores snapshot 11, then the approval commits. */
  const SAVE := SaveEvaluation(2, Q.Acked)
  const COMMIT := SaveDecision(9, 20, 2, Q.Acked)

  const ROW := NewRow(2, ServiceEvaluation, 1, "k", 2, 0)
  const CLAIMED := ClaimedRow(ROW, 1, 0)
  const CANDIDATE := NewCandidate(5, 1)

  /** A service that passes all checks, and a fleet whose leases are as short as 1. */
  predicate Fit(c: Config, input: ServiceInput) {
    ValidateInput(c.syntax, input).None? && input.hasCI && input.hasTracing && input.hasMetrics && c.lease <= 1
  }

  /** There are such. */
  lemma SomeFit() returns (c: Config, input: ServiceInput)
    ensures Fit(c, input)
  {
    c := Config(Syntax(_ => true, _ => Some("http")), 1);
    input := ServiceInput("a", "a", "a", "a", "a", "a", "a", "a", true, true, true, "a", 1, "a", SLOPolicy(99.0, 1, "a"));
    assert !Blank("a") by { assert !IsSpace("a"[0]); }
  }

  function SnapshotAt(input: ServiceInput, at: Time, id: Uuid): Snapshot { SnapshotOf(Registered(1, input), 2, at, id) }

  lemma SnapshotReady(c: Config, input: ServiceInput, at: Time, id: Uuid)
    requires Fit(c, input)
    ensures SnapshotAt(input, at, id).state == Ready && SnapshotAt(input, at, id).serviceId == 1
  {
    InputAcceptedIff(c.syntax, 1, input);
    ValidServiceScore(c.syntax, Registered(1, input));
  }

  // ----- Runs of one, two and three actions -----

  lemma OneAction(c: Config, s: Sys, a: Action)
    ensures Run(c, s, [a]) == Do(c, s, a)
  {
    RunOne(c, s, [], a);
    assert [] + [a] == [a];
  }

  lemma TwoActions(c: Config, s: Sys, a: Action, b: Action)
    ensures Run(c, s, [a, b]) == Do(c, Do(c, s, a), b)
  {
    OneAction(c, s, a);
    RunOne(c, s, [a], b);
    assert [a] + [b] == [a, b];
  }

  // ----- The queue -----

  lemma Registers(c: Config, s: Sys, input: ServiceInput)
    requires ValidateInput(c.syntax, input).None? && s.services == map[]
    ensures Do(c, s, Register(1, input)) == s.(tick := s.tick + 1, services := map[1 := Registered(1, input)])
  {}

  lemma Enqueues(c: Config, s: Sys)
    requires 1 in s.services && s.q == Q.INIT
    ensures var s' := Do(c, s, Queue(Q.Enqueue(2, ServiceEvaluation, 1, "k", 2, 0)));
      && s' == s.(tick := s.tick + 1, q := s'.q)
      && s'.q.clock == 0 && s'.q.jobs == map[2 := ROW] && s'.q.batches == map[]
  {}

  lemma IsQueued(c: Config, input: ServiceInput)
    requires Fit(c, input)
    ensures var s := Run(c, INIT, Queued(input));
      && s == INIT.(tick := 2, services := map[1 := Registered(1, input)], q := s.q)
      && s.q.clock == 0 && s.q.jobs == map[2 := ROW] && s.q.batches == map[]
  {
    TwoActions(c, INIT, Queued(input)[0], Queued(input)[1]);
    Registers(c, INIT, input);
    Enqueues(c, INIT.(tick := 1, services := map[1 := Registered(1, input)]));
  }

  /** A claim of the one job by an idle worker. */
  lemma QueueClaims(lease: nat, q: Q.State, w: WorkerId, now: Time, row: Job)
    requires lease <= 1
    requires q.clock == now && q.jobs == map[2 := row] && Q.Batch(q, w) == [] && Eligible(row, now, now - 1)
    ensures var q', h := Q.Do(lease, q, ClaimOf(w, now)), ClaimedRow(row, w, now);
      && Q.Enabled(lease, q, ClaimOf(w, now))
      && q'.clock == now && q'.jobs == map[2 := h] && q'.batches == q.batches[w := [h]]
  {
    assert Claimable(q.jobs, [2], 1, now, now - 1);
    var jobs := ClaimRows(q.jobs, [2], w, now);
    assert jobs == map[2 := ClaimedRow(row, w, now)];
    assert Q.Returned(jobs, [2]) == [jobs[2]];
  }

  function AfterClaimOf(s: Sys, w: WorkerId, q: Q.State): Sys {
    s.(tick := s.tick + 1, q := q, progress := s.progress[w := Start])
  }

  lemma Claims(c: Config, s: Sys, w: WorkerId, now: Time)
    requires Q.Enabled(c.lease, s.q, ClaimOf(w, now))
    ensures Do(c, s, Queue(ClaimOf(w, now))) == AfterClaimOf(s, w, Q.Do(c.lease, s.q, ClaimOf(w, now)))
  {}

  // ----- The workers -----

  function Computed(service: Service, job: Uuid, at: Time, id: Uuid, seen: nat): Progress {
    HasResult(SnapshotOf(service, job, at, id), ChecksOf(service, at, id), service, seen)
  }

  lemma Computes(c: Config, s: Sys, w: WorkerId, h: Job, id: Uuid, service: Service)
    requires AtJob(s, w, h) && ProgressOf(s, w).Start? && ServiceRead(s, h, service)
    ensures Run(c, s, [ReadService(w, true), RunChecks(w, id)])
      == s.(tick := s.tick + 2, progress := s.progress[w := Computed(service, h.id, s.q.clock, id, s.tick)])
  {
    TwoActions(c, s, ReadService(w, true), RunChecks(w, id));
    Reads(c, s, w, h, service);
    DoesCheck(c, s.(tick := s.tick + 1, progress := s.progress[w := HasService(service, s.tick)]), w, h, id);
  }

  lemma Reads(c: Config, s: Sys, w: WorkerId, h: Job, service: Service)
    requires AtJob(s, w, h) && ProgressOf(s, w).Start? && ServiceRead(s, h, service)
    ensures Do(c, s, ReadService(w, true)) == s.(tick := s.tick + 1, progress := s.progress[w := HasService(service, s.tick)])
  {
    DoesRead(c, s, w, h, true);
  }

  lemma ComputesAfterClaim(c: Config, s: Sys, w: WorkerId, q: Q.State, h: Job, id: Uuid, service: Service)
    requires s.services == map[1 := service] && h.id == 2 && h.resourceId == 1 && h.jobType == ServiceEvaluation
    requires Q.Batch(q, w) == [h]
    ensures Run(c, AfterClaimOf(s, w, q), [ReadService(w, true), RunChecks(w, id)])
      == s.(tick := s.tick + 3, q := q, progress := s.progress[w := Computed(service, 2, q.clock, id, s.tick + 1)])
  {
    var s1, p := AfterClaimOf(s, w, q), Computed(service, 2, q.clock, id, s.tick + 1);
    assert AtJob(s1, w, h) && ProgressOf(s1, w).Start? && ServiceRead(s1, h, service);
    Computes(c, s1, w, h, id, service);
    assert s1.progress[w := p] == s.progress[w := p];
  }

  lemma ClaimsFirst(c: Config, s: Sys, w: WorkerId, now: Time, id: Uuid)
    requires Q.Enabled(c.lease, s.q, ClaimOf(w, now))
    ensures Run(c, s, Computation(w, now, id))
            == Run(c, AfterClaimOf(s, w, Q.Do(c.lease, s.q, ClaimOf(w, now))), [ReadService(w, true), RunChecks(w, id)])
  {
    Claims(c, s, w, now);
    OneAction(c, s, Queue(ClaimOf(w, now)));
    RunConcat(c, s, [Queue(ClaimOf(w, now))], [ReadService(w, true), RunChecks(w, id)]);
  }

  /** Worker w has claimed the job and computed a snapshot of the service. */
  lemma ClaimsAndComputes(c: Config, s: Sys, w: WorkerId, now: Time, row: Job, id: Uuid, service: Service)
    requires s.services == map[1 := service] && row.id == 2 && row.resourceId == 1 && row.jobType == ServiceEvaluation
    requires c.lease <= 1
    requires s.q.clock == now && s.q.jobs == map[2 := row] && Batch(s, w) == [] && Eligible(row, now, now - 1)
    ensures var s', h := Run(c, s, Computation(w, now, id)), ClaimedRow(row, w, now);
      && s' == s.(tick := s.tick + 3, q := s'.q, progress := s.progress[w := Computed(service, 2, now, id, s.tick + 1)])
      && s'.q.clock == now && s'.q.jobs == map[2 := h] && s'.q.batches == s.q.batches[w := [h]]
  {
    QueueClaims(c.lease, s.q, w, now, row);
    ComputesAfterClaim(c, s, w, Q.Do(c.lease, s.q, ClaimOf(w, now)), ClaimedRow(row, w, now), id, service);
    ClaimsFirst(c, s, w, now, id);
  }

  lemma Saves(c: Config, s: Sys, w: WorkerId, service: Service, at: Time, id: Uuid, seen: nat)
    requires Batch(s, w) != [] && ProgressOf(s, w) == Computed(service, 2, at, id, seen) && id !in s.snapshots
    ensures var s' := Do(c, s, SaveEvaluation(w, Q.Acked));
      s' == s.(tick := s.tick + 1, snapshots := s.snapshots[id := SnapshotOf(service, 2, at, id)],
               checks := s'.checks, origins := s'.origins, progress := s.progress[w := HasSaved(id)])
  {
    DoesSave(c, s, w, Batch(s, w)[0], Q.Acked);
  }

  /** What the run has done so far, as far as the evaluation cares. */
  predicate FirstSaved(s: Sys, input: ServiceInput) {
    && s == INIT.(tick := 6, services := map[1 := Registered(1, input)], q := s.q,
                  snapshots := map[10 := SnapshotAt(input, 0, 10)], checks := s.checks, origins := s.origins,
                  progress := s.progress)
    && s.q.clock == 0 && s.q.jobs == map[2 := CLAIMED] && s.q.batches == map[1 := [CLAIMED]]
  }

  lemma FirstSaves(c: Config, s: Sys, input: ServiceInput)
    requires Fit(c, input) && s == INIT.(tick := 2, services := map[1 := Registered(1, input)], q := s.q)
    requires s.q.clock == 0 && s.q.jobs == map[2 := ROW] && s.q.batches == map[]
    ensures FirstSaved(Run(c, s, FIRST), input)
  {
    var service, s1 := Registered(1, input), Run(c, s, Computation(1, 0, 10));
    ClaimsAndComputes(c, s, 1, 0, ROW, 10, service);
    RunOne(c, s, Computation(1, 0, 10), SaveEvaluation(1, Q.Acked));
    Saves(c, s1, 1, service, 0, 10, s.tick + 1);
  }

  predicate SecondComputed(s: Sys, input: ServiceInput, seen: nat) {
    && s == INIT.(tick := 10, services := map[1 := Registered(1, input)], q := s.q,
                  snapshots := map[10 := SnapshotAt(input, 0, 10)], checks := s.checks, origins := s.origins,
                  progress := s.progress)
    && s.q.clock == 2 && Batch(s, 2) != [] && ProgressOf(s, 2) == Computed(Registered(1, input), 2, 2, 11, seen)
  }

  lemma TimePasses(c: Config, s: Sys)
    ensures Run(c, s, [Queue(Q.Tick(2))]) == s.(tick := s.tick + 1, q := s.q.(clock := s.q.clock + 2))
  {
    OneAction(c, s, Queue(Q.Tick(2)));
  }

  lemma SecondComputes(c: Config, s: Sys, input: ServiceInput)
    requires Fit(c, input) && FirstSaved(s, input)
    ensures SecondComputed(Run(c, s, SECOND), input, 8)
  {
    TimePasses(c, s);
    var s1 := s.(tick := s.tick + 1, q := s.q.(clock := s.q.clock + 2));
    ClaimsAndComputes(c, s1, 2, 2, CLAIMED, 11, Registered(1, input));
    RunConcat(c, s, [Queue(Q.Tick(2))], Computation(2, 2, 11));
  }

  // ----- The evaluation -----

  function Fetched(s: Sys): Sys {
    s.(tick := s.tick + 2, candidates := map[5 := CANDIDATE], evaluations := map[9 := HasCandidate(CANDIDATE, s.tick + 1)])
  }

  lemma FetchesCandidate(c: Config, s: Sys)
    requires 1 in s.services && s.candidates == map[] && s.evaluations == map[]
    ensures Run(c, s, [CreateCandidate(5, 1), FetchCandidate(9, 5)]) == Fetched(s)
  {
    var s1 := s.(tick := s.tick + 1, candidates := map[5 := CANDIDATE]);
    assert Do(c, s, CreateCandidate(5, 1)) == s1;
    DoesFetchCandidate(c, s1, 9, 5);
    TwoActions(c, s, CreateCandidate(5, 1), FetchCandidate(9, 5));
  }

  function VerdictReached(s: Sys, snapshot: Snapshot): Sys {
    s.(tick := s.tick + 3, candidates := map[5 := CANDIDATE],
       evaluations := map[9 := HasVerdict(CANDIDATE, Some(snapshot), CandidateApproved, LatestIsReady, s.tick + 1, s.tick + 2)])
  }

  lemma ReadsReady(c: Config, s: Sys, snapshot: Snapshot)
    requires s.snapshots == map[10 := snapshot] && snapshot.state == Ready && snapshot.serviceId == 1
    ensures Do(c, Fetched(s), FetchLatest(9, Some(10))) == VerdictReached(s, snapshot)
  {
    DoesFetchLatest(c, Fetched(s), 9, Some(10));
  }

  lemma ReachesVerdict(c: Config, s: Sys, snapshot: Snapshot)
    requires 1 in s.services && s.candidates == map[] && s.evaluations == map[]
    requires s.snapshots == map[10 := snapshot] && snapshot.state == Ready && snapshot.serviceId == 1
    ensures Run(c, s, JUDGED) == VerdictReached(s, snapshot)
  {
    FetchesCandidate(c, s);
    ReadsReady(c, s, snapshot);
    RunOne(c, s, [CreateCandidate(5, 1), FetchCandidate(9, 5)], FetchLatest(9, Some(10)));
  }

  lemma NewerSaved(c: Config, s: Sys, input: ServiceInput, seen: nat)
    requires Fit(c, input) && s.snapshots == map[10 := SnapshotAt(input, 0, 10)] && Batch(s, 2) != []
    requires ProgressOf(s, 2) == Computed(Registered(1, input), 2, 2, 11, seen)
    ensures var s' := Do(c, s, SAVE);
      && s'.tick == s.tick + 1 && s'.candidates == s.candidates && s'.decisions == s.decisions && s'.evaluations == s.evaluations
      && !IsLatest(s'.snapshots, 10, 1)
  {
    Saves(c, s, 2, Registered(1, input), 2, 11, seen);
    SnapshotReady(c, input, 2, 11);
    assert Do(c, s, SAVE).snapshots[11].evaluatedAt == 2;
  }

  /** Right before the commit. */
  predicate CommitComes(s: Sys, snapshot: Snapshot) {
    && s.tick == 14 && !IsLatest(s.snapshots, 10, 1) && s.candidates == map[5 := CANDIDATE] && s.decisions == map[]
    && s.evaluations == map[9 := HasVerdict(CANDIDATE, Some(snapshot), CandidateApproved, LatestIsReady, 11, 12)]
    && snapshot.id == 10
  }

  lemma Evaluates(c: Config, s: Sys, input: ServiceInput, seen: nat)
    requires Fit(c, input) && SecondComputed(s, input, seen)
    ensures CommitComes(Run(c, s, JUDGED + [SAVE]), SnapshotAt(input, 0, 10))
  {
    var snapshot := SnapshotAt(input, 0, 10);
    SnapshotReady(c, input, 0, 10);
    ReachesVerdict(c, s, snapshot);
    NewerSaved(c, VerdictReached(s, snapshot), input, seen);
    RunOne(c, s, JUDGED, SAVE);
  }

  lemma Approves(c: Config, s: Sys, snapshot: Snapshot)
    requires CommitComes(s, snapshot)
    ensures var s' := Do(c, s, COMMIT);
      && 5 in s'.candidates && s'.candidates[5].status == CandidateApproved && s'.candidates[5].serviceId == 1
      && s'.candidates[5].lastSnapshotId == Some(10)
      && 5 in s'.trails && s'.trails[5] == Trail(11, 12, 14)
  {
    DoesSaveDecision(c, s, 9, 20, 2, Q.Acked);
  }

  function BeforeCommit(input: ServiceInput): seq<Action> { Queued(input) + FIRST + SECOND + (JUDGED + [SAVE]) }

  lemma ReachesCommit(c: Config, input: ServiceInput)
    requires Fit(c, input)
    ensures CommitComes(Run(c, INIT, BeforeCommit(input)), SnapshotAt(input, 0, 10))
  {
    var s1 := Run(c, INIT, Queued(input));
    IsQueued(c, input);
    FirstSaves(c, s1, input);
    SecondComputes(c, Run(c, s1, FIRST), input);
    Evaluates(c, Run(c, Run(c, s1, FIRST), SECOND), input, 8);
    FourParts(c, Queued(input), FIRST, SECOND, JUDGED + [SAVE]);
  }

  lemma FourParts(c: Config, p1: seq<Action>, p2: seq<Action>, p3: seq<Action>, p4: seq<Action>)
    ensures Run(c, INIT, p1 + p2 + p3 + p4) == Run(c, Run(c, Run(c, Run(c, INIT, p1), p2), p3), p4)
  {
    RunConcat(c, INIT, p1, p2);
    RunConcat(c, INIT, p1 + p2, p3);
    RunConcat(c, INIT, p1 + p2 + p3, p4);
  }

  /** The candidate is approved on snapshot 10, and when the approval was committed that snapshot was not the
      latest of the service: worker 2 had stored a newer one since the evaluation read. */
  lemma ApprovedOnOvertakenSnapshot(c: Config, input: ServiceInput)
    requires Fit(c, input)
    ensures var actions := BeforeCommit(input) + [COMMIT];
      var s := Run(c, INIT, actions);
      && 5 in s.candidates && s.candidates[5].status == CandidateApproved && s.candidates[5].lastSnapshotId == Some(10)
      && 5 in s.trails && s.trails[5].committed < |actions|
      && !IsLatest(Run(c, INIT, actions[..s.trails[5].committed]).snapshots, 10, s.candidates[5].serviceId)
  {
    ReachesCommit(c, input);
    Approves(c, Run(c, INIT, BeforeCommit(input)), SnapshotAt(input, 0, 10));
    RunOne(c, INIT, BeforeCommit(input), COMMIT);
    assert (BeforeCommit(input) + [COMMIT])[..14] == BeforeCommit(input);
  }
}
