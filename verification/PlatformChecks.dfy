/** The readiness evaluator: internal/platformchecks/evaluator.go. */
module PlatformChecks {
  import opened Wrappers
  import opened Jobs
  import opened Domain

  datatype CheckStatus = Pass | Warn | Fail
  datatype ReadinessState = Ready | Degraded | Blocked

  datatype CheckName =
    | OwnerDeclared | RepositoryConnected | RunbookPresent | HealthEndpointPresent | ObservabilityDashboardPresent
    | CIEnabled | TracingEnabled | MetricsEnabled | DeploymentPipelineDeclared | SLOPolicyDeclared

  datatype CheckResult = CheckResult(
    snapshotId: Option<Uuid>, serviceId: Uuid, name: CheckName, status: CheckStatus, createdAt: Option<Time>)

  datatype Snapshot = Snapshot(
    id: Uuid, serviceId: Uuid, state: ReadinessState, score: int, evaluatedAt: Time, jobId: Uuid)

  function PassIf(ok: bool): CheckStatus { if ok then Pass else Fail }

  function WarnIf(ok: bool): CheckStatus { if ok then Pass else Warn }

  function BuildCheck(serviceId: Uuid, name: CheckName, status: CheckStatus): CheckResult {
    CheckResult(None, serviceId, name, status, None)
  }

  function CheckList(s: Service): (checks: seq<CheckResult>)
    ensures |checks| == 10
  {
    [BuildCheck(s.id, OwnerDeclared, PassIf(s.ownerEmail != "")),
     BuildCheck(s.id, RepositoryConnected, PassIf(s.repositoryURL != "")),
     BuildCheck(s.id, RunbookPresent, WarnIf(s.runbookURL != "")),
     BuildCheck(s.id, HealthEndpointPresent, PassIf(s.healthEndpointURL != "")),
     BuildCheck(s.id, ObservabilityDashboardPresent, WarnIf(s.observabilityURL != "")),
     BuildCheck(s.id, CIEnabled, PassIf(s.hasCI)),
     BuildCheck(s.id, TracingEnabled, WarnIf(s.hasTracing)),
     BuildCheck(s.id, MetricsEnabled, WarnIf(s.hasMetrics)),
     BuildCheck(s.id, DeploymentPipelineDeclared, PassIf(s.deploymentPipeline != "")),
     BuildCheck(s.id, SLOPolicyDeclared,
                WarnIf(s.sloPolicy.window != "" && s.sloPolicy.availability > 0.0 && s.sloPolicy.latency > 0))]
  }

  function Count(checks: seq<CheckResult>, status: CheckStatus): nat {
    if checks == [] then 0
    else Count(checks[..|checks| - 1], status) + if checks[|checks| - 1].status == status then 1 else 0
  }

  function ScoreOf(checks: seq<CheckResult>): int {
    var raw := 100 - Count(checks, Fail) * 30 - Count(checks, Warn) * 10;
    if raw < 0 then 0 else raw
  }

  function StateOf(checks: seq<CheckResult>): ReadinessState {
    if Count(checks, Fail) > 0 then Blocked else if Count(checks, Warn) > 0 then Degraded else Ready
  }

  function Stamp(c: CheckResult, snapshotId: Uuid, at: Time): CheckResult {
    c.(snapshotId := Some(snapshotId), createdAt := Some(at))
  }

  function Stamped(checks: seq<CheckResult>, snapshotId: Uuid, at: Time): seq<CheckResult> {
    seq(|checks|, i requires 0 <= i < |checks| => Stamp(checks[i], snapshotId, at))
  }

  function SnapshotOf(s: Service, jobId: Uuid, at: Time, snapshotId: Uuid): Snapshot {
    Snapshot(snapshotId, s.id, StateOf(CheckList(s)), ScoreOf(CheckList(s)), at, jobId)
  }

  function ChecksOf(s: Service, at: Time, snapshotId: Uuid): seq<CheckResult> {
    Stamped(CheckList(s), snapshotId, at)
  }

  /** The evaluator's loops: one counts, one stamps the checks in place. */
  method Evaluate(s: Service, jobId: Uuid, at: Time, snapshotId: Uuid) returns (snapshot: Snapshot, checks: seq<CheckResult>)
    ensures snapshot == SnapshotOf(s, jobId, at, snapshotId)
    ensures checks == ChecksOf(s, at, snapshotId)
    ensures TenChecks(s, checks, at, snapshotId)
    ensures snapshot.id == snapshotId && snapshot.serviceId == s.id && snapshot.jobId == jobId && snapshot.evaluatedAt == at
    ensures snapshot.state == Ready <==> forall name :: Declared(s, name)
    ensures snapshot.state == Blocked <==> exists name :: name in BLOCKING && !Declared(s, name)
  {
    ChecksSay(s, at, snapshotId);
    StateByDeclarations(s);
    checks := CheckList(s);
    var failures, warnings := 0, 0;
    for i := 0 to |checks|
      invariant failures == Count(checks[..i], Fail) && warnings == Count(checks[..i], Warn)
    {
      assert checks[..i + 1][..i] == checks[..i];
      match checks[i].status
      case Fail => failures := failures + 1;
      case Warn => warnings := warnings + 1;
      case Pass =>
    }
    assert checks[..|checks|] == checks;
    var score := 100 - failures * 30 - warnings * 10;
    if score < 0 { score := 0; }
    var state := Ready;
    if failures > 0 { state := Blocked; } else if warnings > 0 { state := Degraded; }
    for i := 0 to |checks|
      invariant |checks| == |CheckList(s)|
      invariant forall k :: 0 <= k < |checks| ==>
                  checks[k] == if k < i then Stamp(CheckList(s)[k], snapshotId, at) else CheckList(s)[k]
    {
      checks := checks[i := Stamp(checks[i], snapshotId, at)];
    }
    snapshot := Snapshot(snapshotId, s.id, state, score, at, jobId);
  }

  // ----- What the counts say -----

  predicate Passes(s: Service, i: nat)
    requires i < 10
  {
    CheckList(s)[i].status == Pass
  }

  predicate AllTenPass(s: Service) { forall i :: 0 <= i < 10 ==> Passes(s, i) }

  /** What each check is about. */
  predicate Declared(s: Service, name: CheckName) {
    match name
    case OwnerDeclared => s.ownerEmail != ""
    case RepositoryConnected => s.repositoryURL != ""
    case RunbookPresent => s.runbookURL != ""
    case HealthEndpointPresent => s.healthEndpointURL != ""
    case ObservabilityDashboardPresent => s.observabilityURL != ""
    case CIEnabled => s.hasCI
    case TracingEnabled => s.hasTracing
    case MetricsEnabled => s.hasMetrics
    case DeploymentPipelineDeclared => s.deploymentPipeline != ""
    case SLOPolicyDeclared => s.sloPolicy.window != "" && s.sloPolicy.availability > 0.0 && s.sloPolicy.latency > 0
  }

  /** The checks whose absence blocks; the others only warn. */
  const BLOCKING := {OwnerDeclared, RepositoryConnected, HealthEndpointPresent, CIEnabled, DeploymentPipelineDeclared}

  function Position(name: CheckName): nat {
    match name
    case OwnerDeclared => 0
    case RepositoryConnected => 1
    case RunbookPresent => 2
    case HealthEndpointPresent => 3
    case ObservabilityDashboardPresent => 4
    case CIEnabled => 5
    case TracingEnabled => 6
    case MetricsEnabled => 7
    case DeploymentPipelineDeclared => 8
    case SLOPolicyDeclared => 9
  }

  /** Every name occurs once among the ten checks, with the status it deserves. */
  lemma EachCheckOnce(s: Service, name: CheckName)
    ensures forall i :: 0 <= i < 10 ==> (CheckList(s)[i].name == name <==> i == Position(name))
    ensures var c := CheckList(s)[Position(name)];
      && c.serviceId == s.id
      && c.status == if Declared(s, name) then Pass else if name in BLOCKING then Fail else Warn
  {}

  /** The ten check rows of a service, stamped with a snapshot id and a time: each name at its place, about
      this service, and passing exactly if the service declares what the name asks for. */
  predicate TenChecks(s: Service, rows: seq<CheckResult>, at: Time, snapshotId: Uuid) {
    && |rows| == 10
    && forall name: CheckName ::
         rows[Position(name)] == CheckResult(Some(snapshotId), s.id, name,
                                             if Declared(s, name) then Pass else if name in BLOCKING then Fail else Warn,
                                             Some(at))
  }

  lemma ChecksSay(s: Service, at: Time, snapshotId: Uuid)
    ensures TenChecks(s, ChecksOf(s, at, snapshotId), at, snapshotId)
  {
    forall name: CheckName ensures ChecksOf(s, at, snapshotId)[Position(name)].name == name { EachCheckOnce(s, name); }
  }

  /** The state of a service by what it declares. */
  lemma StateByDeclarations(s: Service)
    ensures StateOf(CheckList(s)) == Blocked <==> exists name :: name in BLOCKING && !Declared(s, name)
    ensures StateOf(CheckList(s)) == Ready <==> forall name :: Declared(s, name)
  {
    var c := CheckList(s);
    CountIsZero(c, Fail);
    CountIsZero(c, Warn);
    forall name: CheckName
      ensures Declared(s, name) <==> c[Position(name)].status == Pass
      ensures name in BLOCKING && !Declared(s, name) <==> c[Position(name)].status == Fail
    {
      EachCheckOnce(s, name);
    }
    forall i | 0 <= i < 10 ensures Position(c[i].name) == i { EachCheckOnce(s, c[i].name); }
  }

  lemma {:induction false} CountIsZero(checks: seq<CheckResult>, status: CheckStatus)
    ensures Count(checks, status) == 0 <==> forall i :: 0 <= i < |checks| ==> checks[i].status != status
  {
    if checks != [] { CountIsZero(checks[..|checks| - 1], status); }
  }

  /** For every service, stored or not: ready means all ten checks pass, and exactly then the score is 100. */
  lemma ReadyIff(s: Service)
    ensures StateOf(CheckList(s)) == Ready <==> AllTenPass(s)
    ensures ScoreOf(CheckList(s)) == 100 <==> AllTenPass(s)
    ensures 0 <= ScoreOf(CheckList(s)) <= 100
  {
    var c := CheckList(s);
    CountIsZero(c, Fail);
    CountIsZero(c, Warn);
    assert forall i :: 0 <= i < 10 ==> (Passes(s, i) <==> c[i].status != Fail && c[i].status != Warn);
  }

  function Severity(status: CheckStatus): nat { match status case Pass => 0 case Warn => 1 case Fail => 3 }

  function TotalSeverity(checks: seq<CheckResult>): nat {
    if checks == [] then 0 else TotalSeverity(checks[..|checks| - 1]) + Severity(checks[|checks| - 1].status)
  }

  lemma {:induction false} SeverityOfCounts(checks: seq<CheckResult>)
    ensures 10 * TotalSeverity(checks) == 30 * Count(checks, Fail) + 10 * Count(checks, Warn)
  {
    if checks != [] { SeverityOfCounts(checks[..|checks| - 1]); }
  }

  lemma {:induction false} SeverityMonotone(a: seq<CheckResult>, b: seq<CheckResult>)
    requires |a| == |b| && forall i :: 0 <= i < |a| ==> Severity(b[i].status) <= Severity(a[i].status)
    ensures TotalSeverity(b) <= TotalSeverity(a)
  {
    if a != [] { SeverityMonotone(a[..|a| - 1], b[..|b| - 1]); }
  }

  /** A service that passes every check another one passes never scores lower and is never in a worse state. */
  lemma MorePassesScoreNoLower(s: Service, t: Service)
    requires forall i :: 0 <= i < 10 && Passes(s, i) ==> Passes(t, i)
    ensures ScoreOf(CheckList(s)) <= ScoreOf(CheckList(t))
    ensures StateOf(CheckList(s)) == Ready ==> StateOf(CheckList(t)) == Ready
    ensures StateOf(CheckList(t)) == Blocked ==> StateOf(CheckList(s)) == Blocked
  {
    var a, b := CheckList(s), CheckList(t);
    forall i | 0 <= i < 10 ensures Severity(b[i].status) <= Severity(a[i].status) {
      assert Passes(s, i) ==> Passes(t, i);
    }
    SeverityOfCounts(a);
    SeverityOfCounts(b);
    SeverityMonotone(a, b);
    ReadyIff(s);
    ReadyIff(t);
    CountIsZero(a, Fail);
    CountIsZero(b, Fail);
    assert forall i :: 0 <= i < 10 && b[i].status == Fail ==> a[i].status == Fail;
  }

  function Missing(declared: bool): nat { if declared then 0 else 1 }

  lemma ValidCounts(x: Syntax, s: Service)
    requires ValidService(x, s)
    ensures Count(CheckList(s), Fail) == Missing(s.hasCI)
    ensures Count(CheckList(s), Warn) == Missing(s.hasTracing) + Missing(s.hasMetrics)
  {
    var c := CheckList(s);
    CountSplit(c, Fail);
    CountSplit(c, Warn);
  }

  lemma CountSplit(c: seq<CheckResult>, status: CheckStatus)
    requires |c| == 10
    ensures Count(c, status) == Hit(c[0], status) + Hit(c[1], status) + Hit(c[2], status) + Hit(c[3], status) + Hit(c[4], status)
      + Hit(c[5], status) + Hit(c[6], status) + Hit(c[7], status) + Hit(c[8], status) + Hit(c[9], status)
  {
    assert c[..9][..8] == c[..8] && c[..8][..7] == c[..7] && c[..7][..6] == c[..6] && c[..6][..5] == c[..5]
        && c[..5][..4] == c[..4] && c[..4][..3] == c[..3] && c[..3][..2] == c[..2] && c[..2][..1] == c[..1];
    assert Count(c[..1], status) == Hit(c[0], status);
    assert Count(c[..3], status) == Count(c[..1], status) + Hit(c[1], status) + Hit(c[2], status);
    assert Count(c[..5], status) == Count(c[..3], status) + Hit(c[3], status) + Hit(c[4], status);
    assert Count(c[..7], status) == Count(c[..5], status) + Hit(c[5], status) + Hit(c[6], status);
    assert Count(c[..9], status) == Count(c[..7], status) + Hit(c[7], status) + Hit(c[8], status);
  }

  function Hit(c: CheckResult, status: CheckStatus): nat { if c.status == status then 1 else 0 }

  /** What a stored, hence valid, service can be found to be: only CI, tracing and metrics are open, and
      the clamp at zero is never reached. */
  lemma ValidServiceScore(x: Syntax, s: Service)
    requires ValidService(x, s)
    ensures StateOf(CheckList(s)) ==
      if !s.hasCI then Blocked else if !s.hasTracing || !s.hasMetrics then Degraded else Ready
    ensures ScoreOf(CheckList(s)) == 100 - 30 * Missing(s.hasCI) - 10 * (Missing(s.hasTracing) + Missing(s.hasMetrics))
    ensures ScoreOf(CheckList(s)) >= 50
  {
    ValidCounts(x, s);
  }
}
