/**
 Orchestration bundles: validating, planning and applying a bundle against the catalog server.

 The server's catalogs are append-only.  `norm` is what the server answers for a registered
 payload: it may sort or rewrite fields, and the client compares raw values.
 */
module Bundles {
  import opened Wrappers

  datatype Json = Null | Text(text: string) | Number(number: real) | Strings(strings: seq<string>) | Other(id: int)

  type Fields = map<string, Json>

  datatype Resource = Skill | Model | Pack | Workflow

  datatype Ident = Ident(resource: Resource, key: string, version: int)

  datatype Node = Node(skills: set<Ident>, pack: Option<Ident>, mapped: set<string>)

  /** The part of a payload that refers to other entries. */
  datatype Refs =
    | NoRefs
    | PackRefs(skills: set<Ident>, inputs: map<string, bool>)
    | WorkflowRefs(nodes: seq<Node>)

  datatype Item = Item(ident: Ident, fields: Fields, refs: Refs)

  type Norm = Item -> Fields

  datatype Stored = Stored(item: Item, response: Fields)

  datatype ProjectPayload = ProjectPayload(key: string, fields: Fields)

  datatype ProjectRow = ProjectRow(id: int, response: Fields)

  datatype Binding = Binding(projectKey: string, definition: Ident)

  datatype Bundle = Bundle(
    project: Option<ProjectPayload>,
    skills: seq<Item>,
    models: seq<Item>,
    packs: seq<Item>,
    workflows: seq<Item>,
    binding: Option<Binding>)

  datatype Server = Server(
    projects: map<string, ProjectRow>,
    catalog: map<Ident, Stored>,
    bindings: map<int, Ident>)

  datatype ServerError = AlreadyRegistered | ReferenceNotFound | BadInputMapping | ProjectNotFound

  // ---- the server -------------------------------------------------------------------

  /** `_validate_phase_inputs` for one node against the pack it names. */
  predicate MappingOk(mapped: set<string>, inputs: map<string, bool>)
  {
    && mapped <= inputs.Keys
    && forall k :: k in inputs && inputs[k] ==> k in mapped
  }

  predicate Registered(s: Server, refs: set<Ident>)
  {
    refs <= s.catalog.Keys
  }

  function PackInputs(s: Server, pack: Ident): map<string, bool>
    requires pack in s.catalog
  {
    match s.catalog[pack].item.refs
    case PackRefs(_, inputs) => inputs
    case _ => map[]
  }

  function PackSkills(s: Server, pack: Ident): set<Ident>
    requires pack in s.catalog
  {
    match s.catalog[pack].item.refs
    case PackRefs(skills, _) => skills
    case _ => {}
  }

  predicate NodeResolves(s: Server, n: Node)
  {
    && Registered(s, n.skills)
    && (n.pack.Some? ==> n.pack.value in s.catalog && Registered(s, PackSkills(s, n.pack.value)))
  }

  predicate NodeMaps(s: Server, n: Node)
    requires NodeResolves(s, n)
  {
    n.pack.Some? ==> MappingOk(n.mapped, PackInputs(s, n.pack.value))
  }

  predicate Resolves(s: Server, x: Item)
  {
    match x.refs
    case NoRefs => true
    case PackRefs(skills, _) => Registered(s, skills)
    case WorkflowRefs(nodes) => forall i :: 0 <= i < |nodes| ==> NodeResolves(s, nodes[i])
  }

  predicate Maps(s: Server, x: Item)
    requires Resolves(s, x)
  {
    x.refs.WorkflowRefs? ==> forall i :: 0 <= i < |x.refs.nodes| ==> NodeMaps(s, x.refs.nodes[i])
  }

  /** Registration of a catalog entry, with the guards of the four catalog services. */
  function Register(s: Server, norm: Norm, x: Item): Result<Server, ServerError>
  {
    if x.ident in s.catalog then Err(AlreadyRegistered)
    else if !Resolves(s, x) then Err(ReferenceNotFound)
    else if !Maps(s, x) then Err(BadInputMapping)
    else Ok(s.(catalog := s.catalog[x.ident := Stored(x, norm(x))]))
  }

  function RegisterProject(s: Server, p: ProjectPayload, response: Fields, newId: int): Result<Server, ServerError>
  {
    if p.key in s.projects then Err(AlreadyRegistered)
    else Ok(s.(projects := s.projects[p.key := ProjectRow(newId, response)]))
  }

  function Bind(s: Server, projectKey: string, definition: Ident): Result<Server, ServerError>
  {
    if projectKey !in s.projects then Err(ProjectNotFound)
    else if definition !in s.catalog then Err(ReferenceNotFound)
    else Ok(s.(bindings := s.bindings[s.projects[projectKey].id := definition]))
  }

  /** No entry and no binding refers to something that is not registered. */
  ghost predicate Closed(s: Server)
  {
    && (forall id :: id in s.catalog ==> Resolves(s, s.catalog[id].item))
    && (forall p :: p in s.bindings ==> s.bindings[p] in s.catalog)
  }

  // ---- the bundle -------------------------------------------------------------------

  function Items(b: Bundle): seq<Item>
  {
    b.skills + b.models + b.packs + b.workflows
  }

  ghost predicate Typed(b: Bundle)
  {
    && (forall i :: 0 <= i < |b.skills| ==> b.skills[i].ident.resource.Skill? && b.skills[i].refs.NoRefs?)
    && (forall i :: 0 <= i < |b.models| ==> b.models[i].ident.resource.Model? && b.models[i].refs.NoRefs?)
    && (forall i :: 0 <= i < |b.packs| ==>
          b.packs[i].ident.resource.Pack? && b.packs[i].refs.PackRefs?
          && forall id :: id in b.packs[i].refs.skills ==> id.resource.Skill?)
    && (forall i :: 0 <= i < |b.workflows| ==>
          b.workflows[i].ident.resource.Workflow? && b.workflows[i].refs.WorkflowRefs?
          && forall j :: 0 <= j < |b.workflows[i].refs.nodes| ==> TypedNode(b.workflows[i].refs.nodes[j]))
    && (b.binding.Some? ==> b.binding.value.definition.resource.Workflow?)
  }

  ghost predicate TypedNode(n: Node)
  {
    (forall id :: id in n.skills ==> id.resource.Skill?) && (n.pack.Some? ==> n.pack.value.resource.Pack?)
  }

  /** `identities_are_unique` */
  ghost predicate UniqueIdentities(b: Bundle)
  {
    && (forall i, j :: 0 <= i < j < |Items(b)| ==> Items(b)[i].ident != Items(b)[j].ident)
    && (b.project.Some? && b.binding.Some? ==> b.binding.value.projectKey == b.project.value.key)
  }

  predicate Bundled(b: Bundle, id: Ident)
  {
    exists i :: 0 <= i < |Items(b)| && Items(b)[i].ident == id
  }

  /** What `validate_bundle` checks of nodes whose pack is in the bundle. */
  ghost predicate BundledMappingsOk(b: Bundle)
  {
    forall i, j, k ::
      0 <= i < |b.workflows| && b.workflows[i].refs.WorkflowRefs? && 0 <= j < |b.workflows[i].refs.nodes|
      && 0 <= k < |b.packs| && b.packs[k].refs.PackRefs?
      && b.workflows[i].refs.nodes[j].pack == Some(b.packs[k].ident) ==>
        MappingOk(b.workflows[i].refs.nodes[j].mapped, b.packs[k].refs.inputs)
  }

  ghost predicate ValidBundle(b: Bundle)
  {
    Typed(b) && UniqueIdentities(b) && BundledMappingsOk(b)
  }

  /** Everything an item refers to. */
  function References(x: Item): set<Ident>
  {
    match x.refs
    case NoRefs => {}
    case PackRefs(skills, _) => skills
    case WorkflowRefs(nodes) => NodeReferences(nodes)
  }

  function NodeReferences(nodes: seq<Node>): set<Ident>
  {
    if nodes == [] then {}
    else nodes[0].skills + (if nodes[0].pack.Some? then {nodes[0].pack.value} else {}) + NodeReferences(nodes[1..])
  }

  /** `external_dependencies`: what the bundle refers to and does not contain. */
  ghost predicate External(b: Bundle, id: Ident)
  {
    && !Bundled(b, id)
    && ((exists i :: 0 <= i < |Items(b)| && id in References(Items(b)[i]))
        || (b.binding.Some? && b.binding.value.definition == id))
  }

  // ---- planning ---------------------------------------------------------------------

  function Get(current: Fields, key: string): Json
  {
    if key in current then current[key] else Null
  }

  predicate ContainsExpected(current: Fields, expected: Fields)
  {
    forall k :: k in expected ==> Get(current, k) == expected[k]
  }

  datatype ActionKind = Create | Update | Unchanged | Conflict

  function CompareItem(s: Server, x: Item): ActionKind
  {
    if x.ident !in s.catalog then Create
    else
      var stored := s.catalog[x.ident];
      if ContainsExpected(stored.response, x.fields) && stored.item.refs == x.refs then Unchanged else Conflict
  }

  function CompareProject(s: Server, p: ProjectPayload): ActionKind
  {
    if p.key !in s.projects then Create
    else if ContainsExpected(s.projects[p.key].response, p.fields) then Unchanged
    else Conflict
  }

  function CompareBinding(b: Bundle, s: Server): ActionKind
    requires b.binding.Some?
  {
    var binding := b.binding.value;
    if binding.projectKey !in s.projects then (if b.project.None? then Conflict else Update)
    else
      var id := s.projects[binding.projectKey].id;
      if id in s.bindings && s.bindings[id] == binding.definition then Unchanged else Update
  }

  ghost predicate ConflictFree(b: Bundle, s: Server)
  {
    && (b.project.Some? ==> !CompareProject(s, b.project.value).Conflict?)
    && (forall i :: 0 <= i < |Items(b)| ==> !CompareItem(s, Items(b)[i]).Conflict?)
    && (forall id :: External(b, id) ==> id in s.catalog)
    && (b.binding.Some? ==> !CompareBinding(b, s).Conflict?)
  }

  ghost predicate AllUnchanged(b: Bundle, s: Server)
  {
    && (b.project.Some? ==> CompareProject(s, b.project.value).Unchanged?)
    && (forall i :: 0 <= i < |Items(b)| ==> CompareItem(s, Items(b)[i]).Unchanged?)
    && (forall id :: External(b, id) ==> id in s.catalog)
    && (b.binding.Some? ==> CompareBinding(b, s).Unchanged?)
  }

  // ---- applying ---------------------------------------------------------------------

  datatype Write =
    | PostProject(payload: ProjectPayload)
    | PostItem(item: Item)
    | PutBinding(projectKey: string, definition: Ident)

  /** How the server answers, and the identifier it will hand to the bundle's project. */
  datatype Backend = Backend(norm: Norm, projectResponse: Fields, projectId: int)

  function ItemWrites(items: seq<Item>, s: Server): seq<Write>
  {
    if items == [] then []
    else (if CompareItem(s, items[0]).Create? then [PostItem(items[0])] else []) + ItemWrites(items[1..], s)
  }

  function ProjectWrites(b: Bundle, s: Server): seq<Write>
  {
    if b.project.Some? && CompareProject(s, b.project.value).Create? then [PostProject(b.project.value)] else []
  }

  function BindingWrites(b: Bundle, s: Server): seq<Write>
  {
    if b.binding.Some? && CompareBinding(b, s).Update? then
      [PutBinding(b.binding.value.projectKey, b.binding.value.definition)]
    else []
  }

  /** The writes `apply_bundle` sends after planning against `s`, in its fixed order. */
  function Writes(b: Bundle, s: Server): seq<Write>
  {
    ProjectWrites(b, s) + ItemWrites(Items(b), s) + BindingWrites(b, s)
  }

  function Do(s: Server, be: Backend, w: Write): Result<Server, ServerError>
  {
    match w
    case PostProject(p) => RegisterProject(s, p, be.projectResponse, be.projectId)
    case PostItem(x) => Register(s, be.norm, x)
    case PutBinding(projectKey, definition) => Bind(s, projectKey, definition)
  }

  /** All writes in order; the first one that is refused ends the run. */
  function Run(s: Server, be: Backend, writes: seq<Write>): Result<Server, ServerError>
    decreases |writes|
  {
    if writes == [] then Ok(s)
    else
      match Do(s, be, writes[0])
      case Err(x) => Err(x)
      case Ok(t) => Run(t, be, writes[1..])
  }
}
