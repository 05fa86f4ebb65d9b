/**
 One-call request dispatch with idempotency receipts.

 A dispatch is one transaction: a new store, or an error and the old store.  The payload digest is
 taken to be injective, so a receipt holds the normalised payload itself.
 */
module RequestDispatch {
  import opened Wrappers
  import opened Text
  import opened Addons

  datatype Origin = Origin(
    ingressKey: string,
    externalRequestId: string,
    actorId: Option<string>,
    conversationId: Option<string>)

  datatype Command = Command(
    project: int,
    origin: Origin,
    idempotencyKey: string,
    prompt: string,
    title: Option<string>,
    definitionKey: Option<string>,
    definitionVersion: Option<int>,
    addons: seq<Addon>,
    recommendation: Option<int>)

  datatype Version = Version(key: string, version: int)

  datatype Definition = Definition(id: int, nodes: seq<Node>, compatible: bool)

  /** What the digest is computed from. */
  datatype Payload = Payload(
    prompt: string,
    title: Option<string>,
    origin: Origin,
    workflow: Option<Version>,
    addons: seq<Addon>,
    recommendation: Option<int>)

  datatype Key = Key(project: int, ingress: string, idempotency: string)

  datatype Ids = Ids(request: int, run: int, execution: int)

  datatype Receipt = Receipt(payload: Payload, result: Option<Ids>)

  datatype RequestRow = RequestRow(project: int, prompt: string, title: Option<string>, state: int)

  datatype RunRow = RunRow(request: int, state: int)

  datatype ExecutionRow = ExecutionRow(run: int, nodes: seq<Node>, state: int)

  datatype Binding = Binding(version: Version, definitionId: int)

  datatype Recommendation = Recommendation(
    project: int,
    prompt: string,
    candidates: seq<Version>,
    requiresConfirmation: bool)

  datatype Store = Store(
    active: map<int, bool>,
    receipts: map<Key, Receipt>,
    requests: map<int, RequestRow>,
    runs: map<int, RunRow>,
    executions: map<int, ExecutionRow>,
    definitions: map<Version, Definition>,
    skills: set<SkillReference>,
    bindings: map<int, Binding>,
    recommendations: map<int, Recommendation>)

  datatype DispatchError =
    | IncompleteOverride
    | BadAddons(error: AddonError)
    | ProjectNotFound
    | InvalidIngress
    | InvalidIdempotencyKey
    | DifferentPayload
    | StillInProgress
    | ResultUnavailable
    | ProjectNotActive
    | RecommendationNotFound
    | RecommendationPromptDiffers
    | RecommendationNeedsConfirmation
    | RecommendationHasNoCandidate
    | NotACandidate
    | DefinitionNotFound
    | BindingNotConfigured
    | BindingUnavailable
    | Incompatible
    | EmptyPrompt
    | ExecutionNotCreated

  datatype Dispatched = Dispatched(ids: Ids, replayed: bool)

  // ---- normalisation ----------------------------------------------------------------

  /** `value.strip() if value else None`, then `or None`. */
  function StripOptional(value: Option<string>): Option<string>
  {
    if value.None? || Strip(value.value) == [] then None else Some(Strip(value.value))
  }

  predicate IngressChar(c: char)
  {
    'a' <= c <= 'z' || '0' <= c <= '9' || c == '.' || c == '_' || c == '-'
  }

  predicate ValidIngress(s: string)
  {
    1 <= |s| <= 64 && 'a' <= s[0] <= 'z' && forall i :: 0 <= i < |s| ==> IngressChar(s[i])
  }

  function KeyOf(c: Command): Key
  {
    Key(c.project, Strip(c.origin.ingressKey), Strip(c.idempotencyKey))
  }

  function OverrideOf(c: Command): Option<Version>
  {
    if StripOptional(c.definitionKey).Some? && c.definitionVersion.Some?
    then Some(Version(StripOptional(c.definitionKey).value, c.definitionVersion.value)) else None
  }

  /** The normalised payload, when the command has one. */
  ghost function PayloadOf(c: Command): Result<Payload, DispatchError>
  {
    if StripOptional(c.definitionKey).None? != c.definitionVersion.None? then Err(IncompleteOverride)
    else
      match Normalize(c.addons)
      case Err(x) => Err(BadAddons(x))
      case Ok(addons) =>
        Ok(Payload(Strip(c.prompt), StripOptional(c.title), c.origin, OverrideOf(c), addons, c.recommendation))
  }

  // ---- selection --------------------------------------------------------------------

  predicate RecommendedFor(s: Store, id: int, project: int)
  {
    id in s.recommendations && s.recommendations[id].project == project
  }

  /** The recommended version, when the command names a recommendation and no workflow. */
  function Recommended(s: Store, p: Payload, project: int): Result<Option<Version>, DispatchError>
  {
    if p.recommendation.None? then Ok(p.workflow)
    else if !RecommendedFor(s, p.recommendation.value, project) then Err(RecommendationNotFound)
    else
      var event := s.recommendations[p.recommendation.value];
      if event.prompt != p.prompt then Err(RecommendationPromptDiffers)
      else if p.workflow.None? then
        if event.requiresConfirmation then Err(RecommendationNeedsConfirmation)
        else if event.candidates == [] then Err(RecommendationHasNoCandidate)
        else Ok(Some(event.candidates[0]))
      else if p.workflow.value !in event.candidates then Err(NotACandidate)
      else Ok(p.workflow)
  }

  function Select(s: Store, p: Payload, project: int): Result<Definition, DispatchError>
  {
    match Recommended(s, p, project)
    case Err(x) => Err(x)
    case Ok(Some(version)) =>
      if version !in s.definitions then Err(DefinitionNotFound) else Ok(s.definitions[version])
    case Ok(None) =>
      if project !in s.bindings then Err(BindingNotConfigured)
      else
        var binding := s.bindings[project];
        if binding.version !in s.definitions then Err(BindingUnavailable)
        else if s.definitions[binding.version].id != binding.definitionId then Err(BindingUnavailable)
        else Ok(s.definitions[binding.version])
  }

  // ---- the transaction --------------------------------------------------------------

  /** What the environment contributes: new identifiers, and whether an execution can be created and started. */
  datatype Fresh = Fresh(ids: Ids, starts: Option<int>)

  ghost function Create(s: Store, c: Command, p: Payload, f: Fresh): Result<Store, DispatchError>
    requires c.project in s.active
  {
    if !s.active[c.project] then Err(ProjectNotActive)
    else
      match Select(s, p, c.project)
      case Err(x) => Err(x)
      case Ok(definition) =>
        match ApplyAddons(definition.nodes, s.skills, p.addons)
        case Err(x) => Err(BadAddons(x))
        case Ok(nodes) =>
          if !definition.compatible then Err(Incompatible)
          else if p.prompt == [] then Err(EmptyPrompt)
          else if f.starts.None? then Err(ExecutionNotCreated)
          else Ok(Commit(s, KeyOf(c), p, f, nodes))
  }

  /** The rows one accepted dispatch adds. */
  ghost function Commit(s: Store, k: Key, p: Payload, f: Fresh, nodes: seq<Node>): Store
    requires f.starts.Some?
  {
    s.(receipts := s.receipts[k := Receipt(p, Some(f.ids))],
       requests := s.requests[f.ids.request := RequestRow(k.project, p.prompt, p.title, f.starts.value)],
       runs := s.runs[f.ids.run := RunRow(f.ids.request, f.starts.value)],
       executions := s.executions[f.ids.execution := ExecutionRow(f.ids.run, nodes, f.starts.value)])
  }

  function Replay(s: Store, receipt: Receipt): Result<Dispatched, DispatchError>
  {
    if receipt.result.None? then Err(StillInProgress)
    else
      var ids := receipt.result.value;
      if ids.request !in s.requests || ids.run !in s.runs || ids.execution !in s.executions then Err(ResultUnavailable)
      else Ok(Dispatched(ids, true))
  }

  datatype Outcome = Outcome(store: Store, result: Result<Dispatched, DispatchError>)

  ghost function Dispatch(s: Store, c: Command, f: Fresh): Outcome
  {
    match PayloadOf(c)
    case Err(x) => Outcome(s, Err(x))
    case Ok(p) =>
      if c.project !in s.active then Outcome(s, Err(ProjectNotFound))
      else if !ValidIngress(Strip(c.origin.ingressKey)) then Outcome(s, Err(InvalidIngress))
      else if !(1 <= |Strip(c.idempotencyKey)| <= 128) then Outcome(s, Err(InvalidIdempotencyKey))
      else if KeyOf(c) in s.receipts then
        var receipt := s.receipts[KeyOf(c)];
        if receipt.payload != p then Outcome(s, Err(DifferentPayload)) else Outcome(s, Replay(s, receipt))
      else
        match Create(s, c, p, f)
        case Err(x) => Outcome(s, Err(x))
        case Ok(t) => Outcome(t, Ok(Dispatched(f.ids, false)))
  }
}
