/** UpdateService calls that read before either writes, anywhere in a run: the second write wins, and when
    that loses nothing of the first. */
module LostUpdates {
  import opened Wrappers
  import opened Jobs
  import opened Domain
  import opened ControlPlane
  import opened Processes

  predicate FieldKept<T(==)>(p: Option<T>, q: Option<T>, current: T) { p.None? || q.Some? || p.value == current }

  /** Every field the patch p sets is set by q as well or already has p's value. */
  predicate NothingToLose(p: ServicePatch, q: ServicePatch, s: Service) {
    && FieldKept(p.description, q.description, s.description) && FieldKept(p.ownerEmail, q.ownerEmail, s.ownerEmail)
    && FieldKept(p.repositoryURL, q.repositoryURL, s.repositoryURL) && FieldKept(p.runbookURL, q.runbookURL, s.runbookURL)
    && FieldKept(p.healthEndpointURL, q.healthEndpointURL, s.healthEndpointURL)
    && FieldKept(p.observabilityURL, q.observabilityURL, s.observabilityURL)
    && FieldKept(p.deploymentPipeline, q.deploymentPipeline, s.deploymentPipeline)
    && FieldKept(p.hasCI, q.hasCI, s.hasCI) && FieldKept(p.hasTracing, q.hasTracing, s.hasTracing)
    && FieldKept(p.hasMetrics, q.hasMetrics, s.hasMetrics) && FieldKept(p.language, q.language, s.language)
    && FieldKept(p.tier, q.tier, s.tier) && FieldKept(p.lifecycle, q.lifecycle, s.lifecycle)
    && FieldKept(p.sloPolicy, q.sloPolicy, s.sloPolicy)
  }

  lemma BothPatchesSurviveIff(s: Service, p: ServicePatch, q: ServicePatch)
    ensures Patched(s, q) == Patched(Patched(s, p), q) <==> NothingToLose(p, q, s)
  {}

  // ----- One call -----

  lemma {:induction false} WriteWaits(c: Config, s: Sys, actions: seq<Action>, k: ClientId)
    requires AllForeign(actions, Client(k))
    ensures MemoryOf(Run(c, s, actions), Client(k)) == MemoryOf(s, Client(k))
  {
    if actions != [] {
      WriteWaits(c, s, actions[..|actions| - 1], k);
      ForeignKeepsClient(c, Run(c, s, actions[..|actions| - 1]), actions[|actions| - 1], Client(k));
    }
  }

  /** A call reads, others do whatever they like, and the call writes: what is then stored is the patch applied
      to what the call read. */
  lemma WriteWins(c: Config, s: Sys, id: Uuid, k: ClientId, p: ServicePatch, between: seq<Action>)
    requires Keyed(s.services) && Enabled(c, s, FetchForUpdate(k, id, p)) && AllForeign(between, Client(k))
    ensures var s' := Do(c, Run(c, Do(c, s, FetchForUpdate(k, id, p)), between), WriteService(k));
      id in s'.services && s'.services[id] == Patched(s.services[id], p)
  {
    var s1 := Do(c, s, FetchForUpdate(k, id, p));
    var s2 := Run(c, s1, between);
    DoesFetchForUpdate(c, s, k, id, p);
    WriteWaits(c, s1, between, k);
    NameStays(c, s1, between, id);
    assert MemoryOf(s1, Client(k)).write == Some(Patched(s.services[id], p));
    DoesWrite(c, s2, k);
  }

  /** The call of client k with patch p on service id reads at tick i of the run and writes at tick j; in
      between the actions are others'. */
  predicate Updates(c: Config, s: Sys, actions: seq<Action>, id: Uuid, k: ClientId, p: ServicePatch, i: nat, j: nat) {
    && i < j < |actions|
    && actions[i] == FetchForUpdate(k, id, p) && Enabled(c, Run(c, s, actions[..i]), actions[i])
    && actions[j] == WriteService(k)
    && forall n :: i < n < j ==> Foreign(actions[n], Client(k))
  }

  function At(c: Config, s: Sys, actions: seq<Action>, n: nat): Sys
    requires n <= |actions|
  {
    Run(c, s, actions[..n])
  }

  lemma UpdateLands(c: Config, s: Sys, actions: seq<Action>, id: Uuid, k: ClientId, p: ServicePatch, i: nat, j: nat)
    requires Keyed(s.services) && Updates(c, s, actions, id, k, p, i, j)
    ensures id in At(c, s, actions, i).services && id in At(c, s, actions, j + 1).services
    ensures At(c, s, actions, j + 1).services[id] == Patched(At(c, s, actions, i).services[id], p)
  {
    KeepsServices(c, s, actions[..i], id);
    WriteWins(c, At(c, s, actions, i), id, k, p, actions[i + 1..j]);
    RunNext(c, s, actions, i);
    RunSpan(c, s, actions, i + 1, j);
    RunNext(c, s, actions, j);
  }

  // ----- Two calls -----

  /** Of two calls that both read before either writes, with any actions of other processes anywhere, both
      writes land, and after the second the service is the second patch applied to what the second call read.
      Nothing of the first call is lost exactly if every field it sets is set by the second too, or already had
      that value when the second call read. */
  lemma InterleavedPatches(c: Config, s: Sys, actions: seq<Action>, id: Uuid, k1: ClientId, p: ServicePatch, i1: nat, j1: nat,
                           k2: ClientId, q: ServicePatch, i2: nat, j2: nat)
    requires Keyed(s.services) && Updates(c, s, actions, id, k1, p, i1, j1) && Updates(c, s, actions, id, k2, q, i2, j2)
    requires i2 < j1 < j2
    ensures id in At(c, s, actions, i1).services && id in At(c, s, actions, i2).services
    ensures id in At(c, s, actions, j1 + 1).services && id in At(c, s, actions, j2 + 1).services
    ensures At(c, s, actions, j1 + 1).services[id] == Patched(At(c, s, actions, i1).services[id], p)
    ensures var read, after := At(c, s, actions, i2).services[id], At(c, s, actions, j2 + 1).services[id];
      after == Patched(read, q) && (after == Patched(Patched(read, p), q) <==> NothingToLose(p, q, read))
  {
    UpdateLands(c, s, actions, id, k1, p, i1, j1);
    UpdateLands(c, s, actions, id, k2, q, i2, j2);
    BothPatchesSurviveIff(At(c, s, actions, i2).services[id], p, q);
  }

  /** The shortest such run. */
  function Race(id: Uuid, k1: ClientId, p: ServicePatch, k2: ClientId, q: ServicePatch): seq<Action> {
    [FetchForUpdate(k1, id, p), FetchForUpdate(k2, id, q), WriteService(k1), WriteService(k2)]
  }

  lemma BothRead(c: Config, s: Sys, id: Uuid, k1: ClientId, p: ServicePatch, k2: ClientId, q: ServicePatch)
    requires k1 != k2 && Enabled(c, s, FetchForUpdate(k1, id, p)) && Enabled(c, s, FetchForUpdate(k2, id, q))
    ensures var s1 := Do(c, s, FetchForUpdate(k1, id, p));
      s1.services == s.services && Enabled(c, s1, FetchForUpdate(k2, id, q))
  {
    DoesFetchForUpdate(c, s, k1, id, p);
  }

  lemma RaceLoses(c: Config, s: Sys, id: Uuid, k1: ClientId, p: ServicePatch, k2: ClientId, q: ServicePatch)
    requires Keyed(s.services) && k1 != k2
    requires Enabled(c, s, FetchForUpdate(k1, id, p)) && Enabled(c, s, FetchForUpdate(k2, id, q))
    ensures var s' := Run(c, s, Race(id, k1, p, k2, q)); id in s'.services && s'.services[id] == Patched(s.services[id], q)
  {
    var race := Race(id, k1, p, k2, q);
    RunOne(c, s, [], race[0]);
    assert race[..1] == [] + [race[0]];
    BothRead(c, s, id, k1, p, k2, q);
    assert Updates(c, s, race, id, k2, q, 1, 3) by {
      assert Foreign(race[2], Client(k2));
    }
    UpdateLands(c, s, race, id, k2, q, 1, 3);
    assert race[..4] == race;
  }

  // ----- A lost patch -----

  const SET_TRACING := EMPTY_PATCH.(hasTracing := Some(true))
  const SET_METRICS := EMPTY_PATCH.(hasMetrics := Some(true))

  lemma PatchesAccepted(x: Syntax)
    ensures ValidatePatch(x, SET_TRACING).None? && ValidatePatch(x, SET_METRICS).None?
  {}

  lemma Registers(c: Config, s: Sys, id: Uuid, input: ServiceInput)
    requires ValidateInput(c.syntax, input).None? && s.services == map[]
    ensures Run(c, s, [Register(id, input)]) == s.(tick := s.tick + 1, services := map[id := Registered(id, input)])
  {
    RunOne(c, s, [], Register(id, input));
    assert [] + [Register(id, input)] == [Register(id, input)];
  }

  lemma RegisteredRace(c: Config, id: Uuid, input: ServiceInput, p: ServicePatch, q: ServicePatch)
    requires ValidateInput(c.syntax, input).None? && ValidatePatch(c.syntax, p).None? && ValidatePatch(c.syntax, q).None?
    ensures var s := Run(c, INIT, [Register(id, input)] + Race(id, 1, p, 2, q));
      id in s.services && s.services[id] == Patched(Registered(id, input), q)
  {
    Registers(c, INIT, id, input);
    RaceLoses(c, Run(c, INIT, [Register(id, input)]), id, 1, p, 2, q);
    RunConcat(c, INIT, [Register(id, input)], Race(id, 1, p, 2, q));
  }

  lemma MetricsOnly(x: Service)
    ensures Patched(x, SET_METRICS) == x.(hasMetrics := true)
  {}

  /** A service without tracing and metrics is registered. One client declares tracing, another metrics, at the
      same time; both calls succeed, and in the end the service has metrics and no tracing. */
  lemma PatchLost(c: Config, id: Uuid, input: ServiceInput)
    requires ValidateInput(c.syntax, input).None? && !input.hasTracing && !input.hasMetrics
    ensures var s := Run(c, INIT, [Register(id, input)] + Race(id, 1, SET_TRACING, 2, SET_METRICS));
      id in s.services && s.services[id].hasMetrics && !s.services[id].hasTracing
  {
    PatchesAccepted(c.syntax);
    MetricsOnly(Registered(id, input));
    RegisteredRace(c, id, input, SET_TRACING, SET_METRICS);
  }

  /** There is such an input. */
  lemma InputToRaceOn() returns (x: Syntax, input: ServiceInput)
    ensures ValidateInput(x, input).None? && !input.hasTracing && !input.hasMetrics
  {
    x := Syntax(_ => true, _ => Some("http"));
    input := ServiceInput("a", "a", "a", "a", "a", "a", "a", "a", true, false, false, "a", 1, "a", SLOPolicy(99.0, 1, "a"));
    assert !Blank("a") by { assert !IsSpace("a"[0]); }
  }
}
