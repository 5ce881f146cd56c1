/** Services, their validation, and the patch algebra: internal/domain/models.go and applyServicePatch. */
module Domain {
  import opened Wrappers
  import opened Jobs

  datatype SLOPolicy = SLOPolicy(availability: real, latency: int, window: string)

  datatype Service = Service(
    id: Uuid, name: string, description: string, ownerEmail: string, repositoryURL: string, runbookURL: string,
    healthEndpointURL: string, observabilityURL: string, deploymentPipeline: string,
    hasCI: bool, hasTracing: bool, hasMetrics: bool, language: string, tier: int, lifecycle: string, sloPolicy: SLOPolicy)

  datatype ServiceInput = ServiceInput(
    name: string, description: string, ownerEmail: string, repositoryURL: string, runbookURL: string,
    healthEndpointURL: string, observabilityURL: string, deploymentPipeline: string,
    hasCI: bool, hasTracing: bool, hasMetrics: bool, language: string, tier: int, lifecycle: string, sloPolicy: SLOPolicy)

  /** None is a field the request leaves out. The name cannot be patched. */
  datatype ServicePatch = ServicePatch(
    description: Option<string>, ownerEmail: Option<string>, repositoryURL: Option<string>, runbookURL: Option<string>,
    healthEndpointURL: Option<string>, observabilityURL: Option<string>, deploymentPipeline: Option<string>,
    hasCI: Option<bool>, hasTracing: Option<bool>, hasMetrics: Option<bool>,
    language: Option<string>, tier: Option<int>, lifecycle: Option<string>, sloPolicy: Option<SLOPolicy>)

  const EMPTY_PATCH := ServicePatch(None, None, None, None, None, None, None, None, None, None, None, None, None, None)

  datatype Field =
    | Name | Description | OwnerEmail | RepositoryURL | RunbookURL | HealthEndpointURL | ObservabilityURL
    | DeploymentPipeline | HasCI | HasTracing | HasMetrics | Language | Tier | Lifecycle | Availability | Latency | Window

  datatype ValidationError =
    | Required(field: Field) | NotAnEmail(field: Field) | NotAURL(field: Field) | NotHTTP(field: Field)
    | OutOfRange(field: Field) | EmptyPatch

  /** What net/mail and net/url make of a string: the parsers themselves are not modelled. */
  datatype Syntax = Syntax(isAddress: string -> bool, scheme: string -> Option<string>)

  // ----- Field validators -----

  /** unicode.IsSpace. */
  predicate IsSpace(c: char) {
    || c in {'\t', '\n', '\U{0B}', '\U{0C}', '\r', ' ', '\U{85}', '\U{A0}', '\U{1680}'}
    || '\U{2000}' <= c <= '\U{200A}'
    || c in {'\U{2028}', '\U{2029}', '\U{202F}', '\U{205F}', '\U{3000}'}
  }

  /** Nothing but spaces. */
  predicate Blank(value: string) { forall i :: 0 <= i < |value| ==> IsSpace(value[i]) }

  /** strings.TrimSpace. */
  function TrimSpace(value: string): string {
    if value == "" then ""
    else if IsSpace(value[0]) then TrimSpace(value[1..])
    else if IsSpace(value[|value| - 1]) then TrimSpace(value[..|value| - 1])
    else value
  }

  lemma {:induction false} BlankIff(value: string)
    ensures Blank(value) <==> TrimSpace(value) == ""
  {
    if value != "" {
      if IsSpace(value[0]) {
        BlankIff(value[1..]);
        assert value == [value[0]] + value[1..];
      } else if IsSpace(value[|value| - 1]) {
        BlankIff(value[..|value| - 1]);
      }
    }
  }

  function RequireText(field: Field, value: string): Option<ValidationError> {
    if Blank(value) then Some(Required(field)) else None
  }

  function ValidateEmail(x: Syntax, field: Field, value: string): Option<ValidationError> {
    if Blank(value) then Some(Required(field))
    else if !x.isAddress(value) then Some(NotAnEmail(field))
    else None
  }

  function ValidateURL(x: Syntax, field: Field, value: string): Option<ValidationError> {
    if Blank(value) then Some(Required(field))
    else match x.scheme(value)
      case None => Some(NotAURL(field))
      case Some(scheme) => if scheme == "http" || scheme == "https" then None else Some(NotHTTP(field))
  }

  function ValidateTier(tier: int): Option<ValidationError> {
    if tier < 0 || tier > 3 then Some(OutOfRange(Tier)) else None
  }

  function ValidateSLO(p: SLOPolicy): Option<ValidationError> {
    if p.availability <= 0.0 || p.availability > 100.0 then Some(OutOfRange(Availability))
    else if p.latency <= 0 then Some(OutOfRange(Latency))
    else RequireText(Window, p.window)
  }

  /** The first error of two checks made in turn. */
  function Then(first: Option<ValidationError>, second: Option<ValidationError>): Option<ValidationError> {
    if first.Some? then first else second
  }

  function ValidateContacts(x: Syntax, i: ServiceInput): Option<ValidationError> {
    var texts := Then(RequireText(Name, i.name), RequireText(Description, i.description));
    var identity := Then(texts, ValidateEmail(x, OwnerEmail, i.ownerEmail));
    var repositories := Then(ValidateURL(x, RepositoryURL, i.repositoryURL), ValidateURL(x, RunbookURL, i.runbookURL));
    var endpoints := Then(ValidateURL(x, HealthEndpointURL, i.healthEndpointURL),
                          ValidateURL(x, ObservabilityURL, i.observabilityURL));
    Then(identity, Then(repositories, endpoints))
  }

  function ValidateOperations(i: ServiceInput): Option<ValidationError> {
    var build := Then(RequireText(DeploymentPipeline, i.deploymentPipeline), RequireText(Language, i.language));
    var tierAndLifecycle := Then(ValidateTier(i.tier), RequireText(Lifecycle, i.lifecycle));
    Then(build, Then(tierAndLifecycle, ValidateSLO(i.sloPolicy)))
  }

  /** ServiceInput.Validate, in the order of its checks. */
  function ValidateInput(x: Syntax, i: ServiceInput): Option<ValidationError> {
    Then(ValidateContacts(x, i), ValidateOperations(i))
  }

  function OptionalText(field: Field, o: Option<string>): Option<ValidationError> {
    if o.None? then None else RequireText(field, o.value)
  }

  function OptionalURL(x: Syntax, field: Field, o: Option<string>): Option<ValidationError> {
    if o.None? then None else ValidateURL(x, field, o.value)
  }

  function OptionalEmail(x: Syntax, field: Field, o: Option<string>): Option<ValidationError> {
    if o.None? then None else ValidateEmail(x, field, o.value)
  }

  function OptionalTier(o: Option<int>): Option<ValidationError> {
    if o.None? then None else ValidateTier(o.value)
  }

  function OptionalSLO(o: Option<SLOPolicy>): Option<ValidationError> {
    if o.None? then None else ValidateSLO(o.value)
  }

  /** ServicePatch.Validate after the test for an empty patch, in the order of its checks. */
  function ValidateFields(x: Syntax, p: ServicePatch): Option<ValidationError> {
    var identity := Then(OptionalText(Description, p.description), OptionalEmail(x, OwnerEmail, p.ownerEmail));
    var repositories := Then(OptionalURL(x, RepositoryURL, p.repositoryURL), OptionalURL(x, RunbookURL, p.runbookURL));
    var endpoints := Then(OptionalURL(x, HealthEndpointURL, p.healthEndpointURL),
                          OptionalURL(x, ObservabilityURL, p.observabilityURL));
    var build := Then(OptionalText(DeploymentPipeline, p.deploymentPipeline), OptionalText(Language, p.language));
    var rest := Then(build, Then(OptionalText(Lifecycle, p.lifecycle), OptionalSLO(p.sloPolicy)));
    Then(identity, Then(repositories, Then(endpoints, Then(OptionalTier(p.tier), rest))))
  }

  function ValidatePatch(x: Syntax, p: ServicePatch): Option<ValidationError> {
    if p == EMPTY_PATCH then Some(EmptyPatch) else ValidateFields(x, p)
  }

  // ----- Registration and patching -----

  function Registered(id: Uuid, i: ServiceInput): Service {
    Service(id, i.name, i.description, i.ownerEmail, i.repositoryURL, i.runbookURL, i.healthEndpointURL, i.observabilityURL,
            i.deploymentPipeline, i.hasCI, i.hasTracing, i.hasMetrics, i.language, i.tier, i.lifecycle, i.sloPolicy)
  }

  function Or<T>(o: Option<T>, current: T): T { if o.Some? then o.value else current }

  function Patched(s: Service, p: ServicePatch): Service {
    s.(description := Or(p.description, s.description), ownerEmail := Or(p.ownerEmail, s.ownerEmail),
       repositoryURL := Or(p.repositoryURL, s.repositoryURL), runbookURL := Or(p.runbookURL, s.runbookURL),
       healthEndpointURL := Or(p.healthEndpointURL, s.healthEndpointURL),
       observabilityURL := Or(p.observabilityURL, s.observabilityURL),
       deploymentPipeline := Or(p.deploymentPipeline, s.deploymentPipeline),
       hasCI := Or(p.hasCI, s.hasCI), hasTracing := Or(p.hasTracing, s.hasTracing), hasMetrics := Or(p.hasMetrics, s.hasMetrics),
       language := Or(p.language, s.language), tier := Or(p.tier, s.tier), lifecycle := Or(p.lifecycle, s.lifecycle),
       sloPolicy := Or(p.sloPolicy, s.sloPolicy))
  }

  /** The service a patch is applied to in place. */
  class ServiceRecord {
    const id: Uuid
    const name: string
    var description: string
    var ownerEmail: string
    var repositoryURL: string
    var runbookURL: string
    var healthEndpointURL: string
    var observabilityURL: string
    var deploymentPipeline: string
    var hasCI: bool
    var hasTracing: bool
    var hasMetrics: bool
    var language: string
    var tier: int
    var lifecycle: string
    var sloPolicy: SLOPolicy

    function Value(): Service
      reads this
    {
      Service(id, name, description, ownerEmail, repositoryURL, runbookURL, healthEndpointURL, observabilityURL,
              deploymentPipeline, hasCI, hasTracing, hasMetrics, language, tier, lifecycle, sloPolicy)
    }

    constructor (s: Service)
      ensures Value() == s
    {
      id, name, description, ownerEmail := s.id, s.name, s.description, s.ownerEmail;
      repositoryURL, runbookURL, healthEndpointURL := s.repositoryURL, s.runbookURL, s.healthEndpointURL;
      observabilityURL, deploymentPipeline := s.observabilityURL, s.deploymentPipeline;
      hasCI, hasTracing, hasMetrics := s.hasCI, s.hasTracing, s.hasMetrics;
      language, tier, lifecycle, sloPolicy := s.language, s.tier, s.lifecycle, s.sloPolicy;
    }

    /** applyServicePatch: overwrites, field by field, what the patch carries. */
    method ApplyPatch(patch: ServicePatch)
      modifies this
      ensures Value() == Patched(old(Value()), patch)
    {
      ApplyOwnership(patch);
      ApplyOperations(patch);
      ApplyClassification(patch);
    }

    method ApplyOwnership(patch: ServicePatch)
      modifies this`description, this`ownerEmail, this`repositoryURL, this`runbookURL
      ensures description == Or(patch.description, old(description))
      ensures ownerEmail == Or(patch.ownerEmail, old(ownerEmail))
      ensures repositoryURL == Or(patch.repositoryURL, old(repositoryURL))
      ensures runbookURL == Or(patch.runbookURL, old(runbookURL))
    {
      if patch.description.Some? { description := patch.description.value; }
      if patch.ownerEmail.Some? { ownerEmail := patch.ownerEmail.value; }
      if patch.repositoryURL.Some? { repositoryURL := patch.repositoryURL.value; }
      if patch.runbookURL.Some? { runbookURL := patch.runbookURL.value; }
    }

    method ApplyOperations(patch: ServicePatch)
      modifies this`healthEndpointURL, this`observabilityURL, this`deploymentPipeline
      modifies this`hasCI, this`hasTracing, this`hasMetrics
      ensures healthEndpointURL == Or(patch.healthEndpointURL, old(healthEndpointURL))
      ensures observabilityURL == Or(patch.observabilityURL, old(observabilityURL))
      ensures deploymentPipeline == Or(patch.deploymentPipeline, old(deploymentPipeline))
      ensures hasCI == Or(patch.hasCI, old(hasCI))
      ensures hasTracing == Or(patch.hasTracing, old(hasTracing))
      ensures hasMetrics == Or(patch.hasMetrics, old(hasMetrics))
    {
      if patch.healthEndpointURL.Some? { healthEndpointURL := patch.healthEndpointURL.value; }
      if patch.observabilityURL.Some? { observabilityURL := patch.observabilityURL.value; }
      if patch.deploymentPipeline.Some? { deploymentPipeline := patch.deploymentPipeline.value; }
      if patch.hasCI.Some? { hasCI := patch.hasCI.value; }
      if patch.hasTracing.Some? { hasTracing := patch.hasTracing.value; }
      if patch.hasMetrics.Some? { hasMetrics := patch.hasMetrics.value; }
    }

    method ApplyClassification(patch: ServicePatch)
      modifies this`language, this`tier, this`lifecycle, this`sloPolicy
      ensures language == Or(patch.language, old(language))
      ensures tier == Or(patch.tier, old(tier))
      ensures lifecycle == Or(patch.lifecycle, old(lifecycle))
      ensures sloPolicy == Or(patch.sloPolicy, old(sloPolicy))
    {
      if patch.language.Some? { language := patch.language.value; }
      if patch.tier.Some? { tier := patch.tier.value; }
      if patch.lifecycle.Some? { lifecycle := patch.lifecycle.value; }
      if patch.sloPolicy.Some? {
        sloPolicy := sloPolicy.(availability := patch.sloPolicy.value.availability);
        sloPolicy := sloPolicy.(latency := patch.sloPolicy.value.latency);
        sloPolicy := sloPolicy.(window := patch.sloPolicy.value.window);
      }
    }
  }

  // ----- What the validators accept -----

  predicate GoodURL(x: Syntax, value: string) {
    !Blank(value) && (x.scheme(value) == Some("http") || x.scheme(value) == Some("https"))
  }

  /** A service fit to be stored, in one conjunction. */
  predicate ValidService(x: Syntax, s: Service) {
    && !Blank(s.name) && !Blank(s.description)
    && !Blank(s.ownerEmail) && x.isAddress(s.ownerEmail)
    && GoodURL(x, s.repositoryURL) && GoodURL(x, s.runbookURL)
    && GoodURL(x, s.healthEndpointURL) && GoodURL(x, s.observabilityURL)
    && !Blank(s.deploymentPipeline) && !Blank(s.language) && 0 <= s.tier <= 3 && !Blank(s.lifecycle)
    && 0.0 < s.sloPolicy.availability <= 100.0 && s.sloPolicy.latency > 0 && !Blank(s.sloPolicy.window)
  }

  lemma URLAcceptedIff(x: Syntax, field: Field, value: string)
    ensures ValidateURL(x, field, value).None? <==> GoodURL(x, value)
  {}

  /** Registration accepts an input exactly when the service made of it is fit to be stored. */
  lemma InputAcceptedIff(x: Syntax, id: Uuid, i: ServiceInput)
    ensures ValidateInput(x, i).None? <==> ValidService(x, Registered(id, i))
  {
    URLAcceptedIff(x, RepositoryURL, i.repositoryURL);
    URLAcceptedIff(x, RunbookURL, i.runbookURL);
    URLAcceptedIff(x, HealthEndpointURL, i.healthEndpointURL);
    URLAcceptedIff(x, ObservabilityURL, i.observabilityURL);
  }

  /** The patch validator accepts exactly the non-empty patches that leave a valid service valid,
      and it decides that without seeing the service. */
  lemma PatchAcceptedIff(x: Syntax, s: Service, p: ServicePatch)
    requires ValidService(x, s)
    ensures ValidatePatch(x, p).None? <==> p != EMPTY_PATCH && ValidService(x, Patched(s, p))
  {
    URLAcceptedIff(x, RepositoryURL, Or(p.repositoryURL, s.repositoryURL));
    URLAcceptedIff(x, RunbookURL, Or(p.runbookURL, s.runbookURL));
    URLAcceptedIff(x, HealthEndpointURL, Or(p.healthEndpointURL, s.healthEndpointURL));
    URLAcceptedIff(x, ObservabilityURL, Or(p.observabilityURL, s.observabilityURL));
  }

  // ----- Field by field -----

  datatype FieldValue = Text(text: string) | Flag(flag: bool) | Number(number: int) | Percent(percent: real)

  function FieldOf(s: Service, f: Field): FieldValue {
    match f
    case Name => Text(s.name)
    case Description => Text(s.description)
    case OwnerEmail => Text(s.ownerEmail)
    case RepositoryURL => Text(s.repositoryURL)
    case RunbookURL => Text(s.runbookURL)
    case HealthEndpointURL => Text(s.healthEndpointURL)
    case ObservabilityURL => Text(s.observabilityURL)
    case DeploymentPipeline => Text(s.deploymentPipeline)
    case HasCI => Flag(s.hasCI)
    case HasTracing => Flag(s.hasTracing)
    case HasMetrics => Flag(s.hasMetrics)
    case Language => Text(s.language)
    case Tier => Number(s.tier)
    case Lifecycle => Text(s.lifecycle)
    case Availability => Percent(s.sloPolicy.availability)
    case Latency => Number(s.sloPolicy.latency)
    case Window => Text(s.sloPolicy.window)
  }

  function InputField(i: ServiceInput, f: Field): FieldValue {
    match f
    case Name => Text(i.name)
    case Description => Text(i.description)
    case OwnerEmail => Text(i.ownerEmail)
    case RepositoryURL => Text(i.repositoryURL)
    case RunbookURL => Text(i.runbookURL)
    case HealthEndpointURL => Text(i.healthEndpointURL)
    case ObservabilityURL => Text(i.observabilityURL)
    case DeploymentPipeline => Text(i.deploymentPipeline)
    case HasCI => Flag(i.hasCI)
    case HasTracing => Flag(i.hasTracing)
    case HasMetrics => Flag(i.hasMetrics)
    case Language => Text(i.language)
    case Tier => Number(i.tier)
    case Lifecycle => Text(i.lifecycle)
    case Availability => Percent(i.sloPolicy.availability)
    case Latency => Number(i.sloPolicy.latency)
    case Window => Text(i.sloPolicy.window)
  }

  function OptionalField<T>(o: Option<T>, value: T -> FieldValue): Option<FieldValue> {
    if o.Some? then Some(value(o.value)) else None
  }

  /** What a patch says of a field, if anything. An SLO policy is patched as a whole. */
  function PatchField(p: ServicePatch, f: Field): Option<FieldValue> {
    match f
    case Name => None
    case Description => OptionalField(p.description, v => Text(v))
    case OwnerEmail => OptionalField(p.ownerEmail, v => Text(v))
    case RepositoryURL => OptionalField(p.repositoryURL, v => Text(v))
    case RunbookURL => OptionalField(p.runbookURL, v => Text(v))
    case HealthEndpointURL => OptionalField(p.healthEndpointURL, v => Text(v))
    case ObservabilityURL => OptionalField(p.observabilityURL, v => Text(v))
    case DeploymentPipeline => OptionalField(p.deploymentPipeline, v => Text(v))
    case HasCI => OptionalField(p.hasCI, v => Flag(v))
    case HasTracing => OptionalField(p.hasTracing, v => Flag(v))
    case HasMetrics => OptionalField(p.hasMetrics, v => Flag(v))
    case Language => OptionalField(p.language, v => Text(v))
    case Tier => OptionalField(p.tier, v => Number(v))
    case Lifecycle => OptionalField(p.lifecycle, v => Text(v))
    case Availability => OptionalField(p.sloPolicy, (v: SLOPolicy) => Percent(v.availability))
    case Latency => OptionalField(p.sloPolicy, (v: SLOPolicy) => Number(v.latency))
    case Window => OptionalField(p.sloPolicy, (v: SLOPolicy) => Text(v.window))
  }

  lemma RegisteredFields(id: Uuid, i: ServiceInput, f: Field)
    ensures Registered(id, i).id == id && FieldOf(Registered(id, i), f) == InputField(i, f)
  {}

  /** A patched service has the patch's fields where it has any, and the old ones elsewhere. */
  lemma PatchedFields(s: Service, p: ServicePatch, f: Field)
    ensures Patched(s, p).id == s.id && FieldOf(Patched(s, p), f) == Or(PatchField(p, f), FieldOf(s, f))
  {}

  /** What is wrong with a value for a field, taken by itself. */
  function Fault(x: Syntax, f: Field, v: FieldValue): Option<ValidationError> {
    match v
    case Flag(_) => None
    case Percent(percent) => if percent <= 0.0 || percent > 100.0 then Some(OutOfRange(f)) else None
    case Number(n) => if (if f == Tier then 0 <= n <= 3 else n > 0) then None else Some(OutOfRange(f))
    case Text(text) =>
      if Blank(text) then Some(Required(f))
      else if f == OwnerEmail && !x.isAddress(text) then Some(NotAnEmail(f))
      else if f !in {RepositoryURL, RunbookURL, HealthEndpointURL, ObservabilityURL} then None
      else if x.scheme(text).None? then Some(NotAURL(f))
      else if x.scheme(text).value !in {"http", "https"} then Some(NotHTTP(f))
      else None
  }

  /** Where a field comes in ServiceInput.Validate, and in ServicePatch.Validate, which looks at the tier
      before pipeline and language. */
  function Rank(f: Field, patch: bool): nat {
    match f
    case Name => 0
    case Description => 1
    case OwnerEmail => 2
    case RepositoryURL => 3
    case RunbookURL => 4
    case HealthEndpointURL => 5
    case ObservabilityURL => 6
    case Tier => if patch then 7 else 10
    case DeploymentPipeline => 8
    case Language => 9
    case Lifecycle => 11
    case Availability => 12
    case Latency => 13
    case Window => 14
    case HasCI => 15
    case HasTracing => 16
    case HasMetrics => 17
  }

  lemma ContactFaultFound(x: Syntax, i: ServiceInput)
    ensures match ValidateContacts(x, i)
            case None => true
            case Some(e) => e != EmptyPatch && Fault(x, e.field, InputField(i, e.field)) == Some(e)
  {}

  lemma OperationsFaultFound(x: Syntax, i: ServiceInput)
    ensures match ValidateOperations(i)
            case None => true
            case Some(e) => e != EmptyPatch && Fault(x, e.field, InputField(i, e.field)) == Some(e)
  {}

  lemma InputFaultFound(x: Syntax, i: ServiceInput)
    ensures match ValidateInput(x, i)
            case None => true
            case Some(e) => e != EmptyPatch && Fault(x, e.field, InputField(i, e.field)) == Some(e)
  {
    ContactFaultFound(x, i);
    OperationsFaultFound(x, i);
  }

  lemma InputFaultFirst(x: Syntax, i: ServiceInput, f: Field)
    ensures match ValidateInput(x, i)
            case None => Fault(x, f, InputField(i, f)).None?
            case Some(e) => e != EmptyPatch && (Rank(f, false) < Rank(e.field, false) ==> Fault(x, f, InputField(i, f)).None?)
  {}

  /** An input is refused for the first field, in that order, that has a fault. */
  lemma FirstFaultOfInput(x: Syntax, i: ServiceInput, f: Field)
    ensures match ValidateInput(x, i)
            case None => Fault(x, f, InputField(i, f)).None?
            case Some(e) =>
              && e != EmptyPatch && Fault(x, e.field, InputField(i, e.field)) == Some(e)
              && (Rank(f, false) < Rank(e.field, false) ==> Fault(x, f, InputField(i, f)).None?)
  {
    InputFaultFound(x, i);
    InputFaultFirst(x, i, f);
  }

  function PatchFault(x: Syntax, p: ServicePatch, f: Field): Option<ValidationError> {
    if PatchField(p, f).Some? then Fault(x, f, PatchField(p, f).value) else None
  }

  lemma PatchFaultFound(x: Syntax, p: ServicePatch)
    ensures match ValidateFields(x, p)
            case None => true
            case Some(e) => e != EmptyPatch && PatchFault(x, p, e.field) == Some(e)
  {}

  lemma PatchFaultFirst(x: Syntax, p: ServicePatch, f: Field)
    ensures match ValidateFields(x, p)
            case None => PatchFault(x, p, f).None?
            case Some(e) => e != EmptyPatch && (Rank(f, true) < Rank(e.field, true) ==> PatchFault(x, p, f).None?)
  {}

  /** A patch is refused for being empty, or for the first field it carries that has a fault. */
  lemma FirstFaultOfPatch(x: Syntax, p: ServicePatch, f: Field)
    ensures match ValidatePatch(x, p)
            case None => p != EMPTY_PATCH && PatchFault(x, p, f).None?
            case Some(e) =>
              if e == EmptyPatch then p == EMPTY_PATCH
              else PatchFault(x, p, e.field) == Some(e) && (Rank(f, true) < Rank(e.field, true) ==> PatchFault(x, p, f).None?)
  {
    PatchFaultFound(x, p);
    PatchFaultFirst(x, p, f);
  }

  // ----- The patch algebra -----

  function Later<T>(first: Option<T>, second: Option<T>): Option<T> { if second.Some? then second else first }

  /** One patch with the effect of p and then q. */
  function Merge(p: ServicePatch, q: ServicePatch): ServicePatch {
    ServicePatch(Later(p.description, q.description), Later(p.ownerEmail, q.ownerEmail),
      Later(p.repositoryURL, q.repositoryURL), Later(p.runbookURL, q.runbookURL),
      Later(p.healthEndpointURL, q.healthEndpointURL), Later(p.observabilityURL, q.observabilityURL),
      Later(p.deploymentPipeline, q.deploymentPipeline),
      Later(p.hasCI, q.hasCI), Later(p.hasTracing, q.hasTracing), Later(p.hasMetrics, q.hasMetrics),
      Later(p.language, q.language), Later(p.tier, q.tier), Later(p.lifecycle, q.lifecycle), Later(p.sloPolicy, q.sloPolicy))
  }

  function PatchedAll(s: Service, ps: seq<ServicePatch>): Service {
    if ps == [] then s else Patched(PatchedAll(s, ps[..|ps| - 1]), ps[|ps| - 1])
  }

  function MergeAll(ps: seq<ServicePatch>): ServicePatch {
    if ps == [] then EMPTY_PATCH else Merge(MergeAll(ps[..|ps| - 1]), ps[|ps| - 1])
  }

  lemma MergeIsComposition(s: Service, p: ServicePatch, q: ServicePatch)
    ensures Patched(Patched(s, p), q) == Patched(s, Merge(p, q))
  {}

  /** Any sequence of patches is one patch: the right-biased merge. */
  lemma {:induction false} PatchesAreOnePatch(s: Service, ps: seq<ServicePatch>)
    ensures PatchedAll(s, ps) == Patched(s, MergeAll(ps))
  {
    if ps != [] {
      PatchesAreOnePatch(s, ps[..|ps| - 1]);
      MergeIsComposition(s, MergeAll(ps[..|ps| - 1]), ps[|ps| - 1]);
    }
  }

  /** A patch applied again, whatever patches that leave out its fields came between, changes nothing. */
  lemma ReapplyingIsNoOp(s: Service, p: ServicePatch, q: ServicePatch)
    requires Merge(p, q) == Merge(q, p)
    ensures Patched(Patched(Patched(s, p), q), p) == Patched(Patched(s, p), q)
  {
    MergeIsComposition(s, p, q);
    MergeIsComposition(s, Merge(p, q), p);
    assert Merge(Merge(p, q), p) == Merge(p, q);
  }

  /** Accepted patches in any number keep a stored service valid. */
  lemma {:induction false} AcceptedPatchesKeepValid(x: Syntax, s: Service, ps: seq<ServicePatch>)
    requires ValidService(x, s) && forall p <- ps :: ValidatePatch(x, p).None?
    ensures ValidService(x, PatchedAll(s, ps)) && PatchedAll(s, ps).id == s.id && PatchedAll(s, ps).name == s.name
  {
    if ps != [] {
      var last := ps[|ps| - 1];
      assert forall p <- ps[..|ps| - 1] :: p in ps;
      AcceptedPatchesKeepValid(x, s, ps[..|ps| - 1]);
      assert last in ps;
      PatchAcceptedIff(x, PatchedAll(s, ps[..|ps| - 1]), last);
    }
  }
}
