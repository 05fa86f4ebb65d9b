/**
 The bundle commands as they run: validation grows a set of dependencies, planning grows a list of
 actions from reads of the server, and applying writes to the server, one request at a time.
 */
module BundleCli {
  import opened Wrappers
  import opened Bundles
  import opened BundleConvergence

  /** What an action is about: the pair (resource, identity). */
  datatype Target =
    | ProjectTarget(key: string)
    | ItemTarget(ident: Ident)
    | DependencyTarget(ident: Ident)
    | BindingTarget(projectKey: string)

  datatype Action = Action(target: Target, kind: ActionKind)

  datatype BundleError = InvalidContract | ImmutableConflicts | ProjectMissing | Refused(error: ServerError)

  // ---- the server -------------------------------------------------------------------

  class CatalogServer {
    var projects: map<string, ProjectRow>
    var catalog: map<Ident, Stored>
    var bindings: map<int, Ident>

    ghost function State(): Server
      reads this
    {
      Server(projects, catalog, bindings)
    }

    /** Looks every reference up; stops at the first that is missing. */
    method AllRegistered(references: set<Ident>) returns (ok: bool)
      ensures ok <==> Registered(State(), references)
    {
      var rest := references;
      while rest != {}
        invariant rest <= references && references - rest <= catalog.Keys
        decreases |rest|
      {
        var id :| id in rest;
        if id !in catalog {
          return false;
        }
        rest := rest - {id};
      }
      return true;
    }

    /** The references of a payload, node by node; a pack brings its own skills. */
    method ReferencesResolve(x: Item) returns (ok: bool)
      ensures ok <==> Resolves(State(), x)
    {
      match x.refs {
        case NoRefs => return true;
        case PackRefs(skills, _) => ok := AllRegistered(skills);
        case WorkflowRefs(nodes) =>
          for i := 0 to |nodes|
            invariant forall j :: 0 <= j < i ==> NodeResolves(State(), nodes[j])
          {
            ok := AllRegistered(nodes[i].skills);
            if ok && nodes[i].pack.Some? {
              ok := nodes[i].pack.value in catalog;
              if ok {
                ok := AllRegistered(PackSkills(Server(projects, catalog, bindings), nodes[i].pack.value));
              }
            }
            if !ok {
              assert !NodeResolves(State(), nodes[i]);
              return;
            }
          }
          return true;
      }
    }

    /** Every node maps declared inputs only, and all required ones. */
    method InputsAreMapped(x: Item) returns (ok: bool)
      requires Resolves(State(), x)
      ensures ok <==> Maps(State(), x)
    {
      if x.refs.WorkflowRefs? {
        var nodes := x.refs.nodes;
        for i := 0 to |nodes|
          invariant forall j :: 0 <= j < i ==> NodeMaps(State(), nodes[j])
        {
          if nodes[i].pack.Some? {
            ok := MappingIsValid(nodes[i].mapped, PackInputs(Server(projects, catalog, bindings), nodes[i].pack.value));
            if !ok {
              assert !NodeMaps(State(), nodes[i]);
              return;
            }
          }
        }
      }
      return true;
    }

    /** Registration of a payload: refused without effect when it exists, refers to nothing, or maps inputs wrongly. */
    method RegisterItem(norm: Norm, x: Item) returns (r: Result<(), ServerError>)
      modifies this`catalog
      ensures r.Ok? ==> Register(old(State()), norm, x) == Ok(State())
      ensures r.Err? ==> Register(old(State()), norm, x) == Err(r.error) && State() == old(State())
    {
      hide Resolves, Maps;
      if x.ident in catalog {
        return Err(AlreadyRegistered);
      }
      var resolves := ReferencesResolve(x);
      if !resolves {
        return Err(ReferenceNotFound);
      }
      var mapped := InputsAreMapped(x);
      if !mapped {
        return Err(BadInputMapping);
      }
      catalog := catalog[x.ident := Stored(x, norm(x))];
      return Ok(());
    }

    /** One write request: an atomic step that is refused without effect. */
    method Request(be: Backend, w: Write) returns (r: Result<(), ServerError>)
      modifies this
      ensures r.Ok? ==> Do(old(State()), be, w) == Ok(State())
      ensures r.Err? ==> Do(old(State()), be, w) == Err(r.error) && State() == old(State())
    {
      hide Register;
      match w {
        case PostItem(x) => r := RegisterItem(be.norm, x);
        case PostProject(p) =>
          if p.key in projects {
            return Err(AlreadyRegistered);
          }
          projects := projects[p.key := ProjectRow(be.projectId, be.projectResponse)];
          return Ok(());
        case PutBinding(projectKey, definition) =>
          if projectKey !in projects {
            return Err(ProjectNotFound);
          }
          if definition !in catalog {
            return Err(ReferenceNotFound);
          }
          bindings := bindings[projects[projectKey].id := definition];
          return Ok(());
      }
    }
  }

  /** The comparison of one node's mapped inputs with those its pack declares. */
  method MappingIsValid(mapped: set<string>, inputs: map<string, bool>) returns (ok: bool)
    ensures ok <==> MappingOk(mapped, inputs)
  {
    if !(mapped <= inputs.Keys) {
      return false;
    }
    var rest := inputs.Keys;
    while rest != {}
      invariant rest <= inputs.Keys && forall k :: k in inputs && k !in rest && inputs[k] ==> k in mapped
      decreases |rest|
    {
      var k :| k in rest;
      if inputs[k] && k !in mapped {
        return false;
      }
      rest := rest - {k};
    }
    return true;
  }

  // ---- validation -------------------------------------------------------------------

  method IncludedIdents(items: seq<Item>) returns (idents: set<Ident>)
    ensures forall id :: id in idents <==> exists i :: 0 <= i < |items| && items[i].ident == id
  {
    idents := {};
    for n := 0 to |items|
      invariant forall id :: id in idents <==> exists i :: 0 <= i < n && items[i].ident == id
    {
      idents := idents + {items[n].ident};
    }
  }

  /** The node-by-node comparison with the packs of the bundle. */
  method MappingsAreValid(b: Bundle) returns (ok: bool)
    requires Typed(b)
    ensures ok <==> BundledMappingsOk(b)
  {
    for i := 0 to |b.workflows|
      invariant forall i', j, k :: 0 <= i' < i && 0 <= j < |b.workflows[i'].refs.nodes| && 0 <= k < |b.packs| ==>
                  b.workflows[i'].refs.nodes[j].pack == Some(b.packs[k].ident) ==>
                    MappingOk(b.workflows[i'].refs.nodes[j].mapped, b.packs[k].refs.inputs)
    {
      var nodes := b.workflows[i].refs.nodes;
      for j := 0 to |nodes|
        invariant forall j', k :: 0 <= j' < j && 0 <= k < |b.packs| && nodes[j'].pack == Some(b.packs[k].ident) ==>
                    MappingOk(nodes[j'].mapped, b.packs[k].refs.inputs)
      {
        for k := 0 to |b.packs|
          invariant forall k' :: 0 <= k' < k && nodes[j].pack == Some(b.packs[k'].ident) ==>
                      MappingOk(nodes[j].mapped, b.packs[k'].refs.inputs)
        {
          if nodes[j].pack == Some(b.packs[k].ident) {
            ok := MappingIsValid(nodes[j].mapped, b.packs[k].refs.inputs);
            if !ok {
              return;
            }
          }
        }
      }
    }
    return true;
  }

  /** The set that is grown: everything referred to by the first `n` items. */
  ghost predicate Referred(items: seq<Item>, n: nat, id: Ident)
    requires n <= |items|
  {
    exists i :: 0 <= i < n && id in References(items[i])
  }

  /** `external_dependencies` holds exactly what the bundle refers to and does not contain. */
  method ValidateBundle(b: Bundle) returns (r: Result<set<Ident>, BundleError>)
    requires Typed(b) && UniqueIdentities(b)
    ensures r.Ok? <==> ValidBundle(b)
    ensures r.Ok? ==> forall id :: id in r.value <==> External(b, id)
  {
    var ok := MappingsAreValid(b);
    if !ok {
      return Err(InvalidContract);
    }
    var items := Items(b);
    var included := IncludedIdents(items);
    var dependencies: set<Ident> := {};
    for n := 0 to |items|
      invariant forall id :: id in dependencies <==> id !in included && Referred(items, n, id)
    {
      ghost var was := dependencies;
      dependencies := dependencies + (References(items[n]) - included);
      forall id
        ensures Referred(items, n + 1, id) <==> Referred(items, n, id) || id in References(items[n])
      {
        if Referred(items, n, id) {
          var i :| 0 <= i < n && id in References(items[i]);
        }
      }
    }
    if b.binding.Some? && b.binding.value.definition !in included {
      dependencies := dependencies + {b.binding.value.definition};
    }
    return Ok(dependencies);
  }

  // ---- planning ---------------------------------------------------------------------

  /** The action a bundle calls for, read off the server: one for each target. */
  ghost predicate CallsFor(b: Bundle, s: Server, a: Action)
  {
    match a.target
    case ProjectTarget(key) =>
      b.project.Some? && b.project.value.key == key && a.kind == CompareProject(s, b.project.value)
    case ItemTarget(id) => ItemCallsFor(Items(b), |Items(b)|, s, a)
    case DependencyTarget(id) => External(b, id) && id !in s.catalog && a.kind.Conflict?
    case BindingTarget(key) => b.binding.Some? && b.binding.value.projectKey == key && a.kind == CompareBinding(b, s)
  }

  ghost predicate ItemCallsFor(items: seq<Item>, n: nat, s: Server, a: Action)
    requires n <= |items|
  {
    exists i :: 0 <= i < n && a == ItemAction(s, items[i])
  }

  function ItemAction(s: Server, x: Item): Action
  {
    Action(ItemTarget(x.ident), CompareItem(s, x))
  }

  predicate HasConflicts(plan: seq<Action>)
  {
    exists i :: 0 <= i < |plan| && plan[i].kind.Conflict?
  }

  /** The plan holds exactly the actions the bundle calls for. */
  ghost predicate PlanFor(b: Bundle, s: Server, plan: seq<Action>)
  {
    forall a :: a in plan <==> CallsFor(b, s, a)
  }

  lemma MissingDependency(b: Bundle, s: Server, id: Ident)
    requires External(b, id) && id !in s.catalog
    ensures CallsFor(b, s, Action(DependencyTarget(id), Conflict))
  {
  }

  lemma PlanConflictsExactly(b: Bundle, s: Server, plan: seq<Action>)
    requires PlanFor(b, s, plan)
    ensures HasConflicts(plan) <==> !ConflictFree(b, s)
  {
    if HasConflicts(plan) {
      var i :| 0 <= i < |plan| && plan[i].kind.Conflict?;
      assert CallsFor(b, s, plan[i]);
    } else {
      forall a | CallsFor(b, s, a)
        ensures !a.kind.Conflict?
      {
        assert a in plan;
      }
      if b.project.Some? {
        assert CallsFor(b, s, Action(ProjectTarget(b.project.value.key), CompareProject(s, b.project.value)));
      }
      forall i | 0 <= i < |Items(b)|
        ensures !CompareItem(s, Items(b)[i]).Conflict?
      {
        assert CallsFor(b, s, ItemAction(s, Items(b)[i]));
      }
      forall id | External(b, id)
        ensures id in s.catalog
      {
        if id !in s.catalog {
          MissingDependency(b, s, id);
          assert false;
        }
      }
      if b.binding.Some? {
        assert CallsFor(b, s, Action(BindingTarget(b.binding.value.projectKey), CompareBinding(b, s)));
      }
    }
  }

  method PlanItems(items: seq<Item>, server: CatalogServer) returns (actions: seq<Action>)
    ensures forall a :: a in actions <==> ItemCallsFor(items, |items|, server.State(), a)
  {
    var s := Server(server.projects, server.catalog, server.bindings);
    actions := [];
    for n := 0 to |items|
      invariant forall a :: a in actions <==> ItemCallsFor(items, n, s, a)
    {
      actions := actions + [ItemAction(s, items[n])];
    }
  }

  method PlanDependencies(dependencies: set<Ident>, server: CatalogServer) returns (actions: seq<Action>)
    ensures forall a :: a in actions <==>
              && a.target.DependencyTarget? && a.target.ident in dependencies
              && a.target.ident !in server.catalog && a.kind.Conflict?
  {
    actions := [];
    var rest := dependencies;
    while rest != {}
      invariant rest <= dependencies
      invariant forall a :: a in actions <==>
                  && a.target.DependencyTarget? && a.target.ident in dependencies - rest
                  && a.target.ident !in server.catalog && a.kind.Conflict?
      decreases |rest|
    {
      var id :| id in rest;
      if id !in server.catalog {
        actions := actions + [Action(DependencyTarget(id), Conflict)];
      }
      rest := rest - {id};
    }
  }

  method PlanBundle(b: Bundle, server: CatalogServer) returns (r: Result<seq<Action>, BundleError>)
    requires Typed(b) && UniqueIdentities(b)
    ensures r.Ok? <==> ValidBundle(b)
    ensures r.Ok? ==> PlanFor(b, server.State(), r.value)
  {
    hide Typed, UniqueIdentities, ValidBundle, External;
    var validation := ValidateBundle(b);
    if validation.Err? {
      return Err(validation.error);
    }
    var s := Server(server.projects, server.catalog, server.bindings);
    var projectActions := [];
    if b.project.Some? {
      projectActions := [Action(ProjectTarget(b.project.value.key), CompareProject(s, b.project.value))];
    }
    var itemActions := PlanItems(Items(b), server);
    var dependencyActions := PlanDependencies(validation.value, server);
    var bindingActions := [];
    if b.binding.Some? {
      bindingActions := [Action(BindingTarget(b.binding.value.projectKey), CompareBinding(b, s))];
    }
    var plan := projectActions + itemActions + dependencyActions + bindingActions;
    forall a
      ensures a in plan <==> CallsFor(b, s, a)
    {
      assert a in plan <==> a in projectActions || a in itemActions || a in dependencyActions || a in bindingActions;
    }
    return Ok(plan);
  }

  // ---- applying ---------------------------------------------------------------------

  /** `action_by_identity`: a dictionary with one entry for each action. */
  method ByIdentity(b: Bundle, s: Server, plan: seq<Action>) returns (actions: map<Target, ActionKind>)
    requires UniqueIdentities(b) && PlanFor(b, s, plan)
    ensures forall a :: CallsFor(b, s, a) <==> a.target in actions && actions[a.target] == a.kind
  {
    actions := map[];
    for n := 0 to |plan|
      invariant forall t :: t in actions <==> exists i :: 0 <= i < n && plan[i].target == t
      invariant forall t :: t in actions ==> CallsFor(b, s, Action(t, actions[t]))
    {
      assert plan[n] in plan;
      assert CallsFor(b, s, Action(plan[n].target, plan[n].kind));
      actions := actions[plan[n].target := plan[n].kind];
    }
    forall a
      ensures CallsFor(b, s, a) <==> a.target in actions && actions[a.target] == a.kind
    {
      if CallsFor(b, s, a) {
        assert a in plan;
        OneActionEach(b, s, a, Action(a.target, actions[a.target]));
      }
      if a.target in actions && actions[a.target] == a.kind {
        assert a == Action(a.target, actions[a.target]);
      }
    }
  }

  /** No target has two actions: nothing in the dictionary overwrites anything. */
  lemma OneActionEach(b: Bundle, s: Server, a: Action, a': Action)
    requires UniqueIdentities(b) && CallsFor(b, s, a) && CallsFor(b, s, a') && a.target == a'.target
    ensures a == a'
  {
    if a.target.ItemTarget? {
      var i :| 0 <= i < |Items(b)| && a == ItemAction(s, Items(b)[i]);
      var j :| 0 <= j < |Items(b)| && a' == ItemAction(s, Items(b)[j]);
      assert i == j;
    }
  }

  lemma {:induction false} RunAppend(s: Server, be: Backend, writes: seq<Write>, more: seq<Write>)
    ensures Run(s, be, writes + more) ==
              match Run(s, be, writes)
              case Ok(t) => Run(t, be, more)
              case Err(x) => Err(x)
    decreases |writes|
  {
    if writes == [] {
      assert writes + more == more;
    } else {
      assert (writes + more)[1..] == writes[1..] + more;
      if Do(s, be, writes[0]).Ok? {
        RunAppend(Do(s, be, writes[0]).value, be, writes[1..], more);
      }
    }
  }

  lemma RunOne(t: Server, be: Backend, w: Write)
    ensures Run(t, be, [w]) == Do(t, be, w)
  {
    assert [w][1..] == [];
  }

  lemma {:induction false} ItemWritesAppend(a: seq<Item>, b: seq<Item>, s: Server)
    ensures ItemWrites(a + b, s) == ItemWrites(a, s) + ItemWrites(b, s)
  {
    hide CompareItem;
    if a == [] {
      assert a + b == b;
    } else {
      assert (a + b)[1..] == a[1..] + b;
      ItemWritesAppend(a[1..], b, s);
      var first := if CompareItem(s, a[0]).Create? then [PostItem(a[0])] else [];
      assert ItemWrites(a + b, s) == first + ItemWrites(a[1..] + b, s);
      assert first + (ItemWrites(a[1..], s) + ItemWrites(b, s)) == first + ItemWrites(a[1..], s) + ItemWrites(b, s);
    }
  }

  lemma ItemWritesSplit(items: seq<Item>, n: nat, s: Server)
    requires n <= |items|
    ensures ItemWrites(items, s) == ItemWrites(items[..n], s) + ItemWrites(items[n..], s)
  {
    hide ItemWrites;
    assert items[..n] + items[n..] == items;
    ItemWritesAppend(items[..n], items[n..], s);
  }

  lemma ItemWritesNext(items: seq<Item>, n: nat, s: Server)
    requires n < |items|
    ensures ItemWrites(items[..n + 1], s) ==
              ItemWrites(items[..n], s) + if items[n].ident !in s.catalog then [PostItem(items[n])] else []
  {
    var shorter := items[..n + 1];
    ItemWritesSplit(shorter, n, s);
    assert shorter[..n] == items[..n] && shorter[n..] == [items[n]] && [items[n]][1..] == [];
  }

  /** `t` is the server after the first `|done|` of the planned writes. */
  ghost predicate After(s: Server, be: Backend, writes: seq<Write>, done: seq<Write>, t: Server)
  {
    && |done| <= |writes| && done == writes[..|done|]
    && Run(s, be, done) == Ok(t)
  }

  /** The server was left after some prefix of the planned writes, the next one being refused. */
  ghost predicate StoppedAt(s: Server, be: Backend, writes: seq<Write>, k: nat, t: Server, error: ServerError)
  {
    k < |writes| && Run(s, be, writes[..k]) == Ok(t) && Do(t, be, writes[k]) == Err(error)
  }

  /** One more request: either the prefix grows, or the run stops here and never completes. */
  method Send(
    ghost s: Server, server: CatalogServer, be: Backend, ghost writes: seq<Write>, ghost done: seq<Write>, w: Write)
    returns (r: Result<(), BundleError>)
    requires After(s, be, writes, done, server.State())
    requires |done| < |writes| && writes[|done|] == w
    modifies server
    ensures r.Ok? ==> After(s, be, writes, done + [w], server.State())
    ensures r.Ok? ==> Do(old(server.State()), be, w) == Ok(server.State())
    ensures r.Err? ==> r.error.Refused? && StoppedAt(s, be, writes, |done|, server.State(), r.error.error)
    ensures r.Err? ==> server.State() == old(server.State())
    ensures r.Err? ==> Run(s, be, writes) == Err(r.error.error)
  {
    var answer := server.Request(be, w);
    RunAppend(s, be, done, [w]);
    RunOne(old(server.State()), be, w);
    if answer.Err? {
      RunAppend(s, be, done, writes[|done|..]);
      assert done == writes[..|done|];
      assert done + writes[|done|..] == writes;
      return Err(Refused(answer.error));
    }
    assert done + [w] == writes[..|done + [w]|];
    return Ok(());
  }

  /** The four catalog loops of `apply_bundle`. */
  method CreateItems(ghost s: Server, b: Bundle, server: CatalogServer, be: Backend, actions: map<Target, ActionKind>)
    returns (r: Result<(), BundleError>)
    requires forall a :: CallsFor(b, s, a) ==> a.target in actions && actions[a.target] == a.kind
    requires After(s, be, Writes(b, s), ProjectWrites(b, s), server.State())
    modifies server
    ensures server.projects == old(server.projects)
    ensures r.Ok? ==> After(s, be, Writes(b, s), ProjectWrites(b, s) + ItemWrites(Items(b), s), server.State())
    ensures r.Err? ==> r.error.Refused? && Run(s, be, Writes(b, s)) == Err(r.error.error)
    ensures r.Err? ==> exists k :: StoppedAt(s, be, Writes(b, s), k, server.State(), r.error.error)
  {
    hide After, StoppedAt;
    var items := Items(b);
    ghost var first := ProjectWrites(b, s);
    assert items[..0] == [] && first + [] == first;
    for n := 0 to |items|
      invariant server.projects == old(server.projects)
      invariant After(s, be, Writes(b, s), first + ItemWrites(items[..n], s), server.State())
    {
      ItemWritesNext(items, n, s);
      assert CallsFor(b, s, ItemAction(s, items[n]));
      if actions[ItemTarget(items[n].ident)].Create? {
        PlaceInWrites(b, s, n);
        r := Send(s, server, be, Writes(b, s), first + ItemWrites(items[..n], s), PostItem(items[n]));
        if r.Err? {
          return;
        }
        assert first + ItemWrites(items[..n], s) + [PostItem(items[n])] == first + ItemWrites(items[..n + 1], s);
      } else {
        assert ItemWrites(items[..n + 1], s) == ItemWrites(items[..n], s);
      }
    }
    assert items[..|items|] == items;
    return Ok(());
  }

  lemma PlaceInWrites(b: Bundle, s: Server, n: nat)
    requires n < |Items(b)| && Items(b)[n].ident !in s.catalog
    ensures var done := ProjectWrites(b, s) + ItemWrites(Items(b)[..n], s);
            |done| < |Writes(b, s)| && Writes(b, s)[|done|] == PostItem(Items(b)[n])
  {
    ItemWritesNext(Items(b), n, s);
    ItemWritesSplit(Items(b), n + 1, s);
  }

  /**
   `apply_bundle`.  With conflicts nothing is written; otherwise the server goes exactly through the
   planned writes, to their end or up to the first one it refuses.
   */
  method ApplyBundle(b: Bundle, server: CatalogServer, be: Backend) returns (r: Result<seq<Action>, BundleError>)
    requires Typed(b) && UniqueIdentities(b)
    modifies server
    ensures !ValidBundle(b) ==> r == Err(InvalidContract)
    ensures ValidBundle(b) && !ConflictFree(b, old(server.State())) ==> r == Err(ImmutableConflicts)
    ensures !ValidBundle(b) || !ConflictFree(b, old(server.State())) ==> server.State() == old(server.State())
    ensures r.Ok? ==> PlanFor(b, old(server.State()), r.value)
    ensures ValidBundle(b) && ConflictFree(b, old(server.State())) ==>
              var writes := Writes(b, old(server.State()));
              match r
              case Ok(_) => Run(old(server.State()), be, writes) == Ok(server.State())
              case Err(x) => x.Refused? && Run(old(server.State()), be, writes) == Err(x.error)
                             && exists k :: StoppedAt(old(server.State()), be, writes, k, server.State(), x.error)
    ensures ConflictFree(b, old(server.State())) && Prepared(b, old(server.State()), be) ==>
              && Prepared(b, server.State(), be)
              && (r.Ok? <==> PendingMapsOk(b, old(server.State())))
              && (r.Err? ==> r == Err(Refused(BadInputMapping)))
  {
    hide Typed, UniqueIdentities, ValidBundle, ConflictFree, CallsFor, PendingMapsOk, Run, Writes;
    ghost var s := server.State();
    var plan := PlanBundle(b, server);
    if plan.Err? {
      return Err(InvalidContract);
    }
    PlanConflictsExactly(b, s, plan.value);
    if HasConflicts(plan.value) {
      return Err(ImmutableConflicts);
    }
    var actions := ByIdentity(b, Server(server.projects, server.catalog, server.bindings), plan.value);
    var done := Perform(s, b, server, be, actions);
    if Prepared(b, s, be) {
      AppliedState(b, s, be, done, server.State());
    }
    if done.Err? {
      return Err(done.error);
    }
    return plan;
  }

  /** Whether it completed or was refused, an apply leaves a server it can be continued on. */
  lemma AppliedState(b: Bundle, s: Server, be: Backend, done: Result<(), BundleError>, t: Server)
    requires Prepared(b, s, be)
    requires done.Ok? ==> Run(s, be, Writes(b, s)) == Ok(t)
    requires done.Err? ==> done.error.Refused? && Run(s, be, Writes(b, s)) == Err(done.error.error)
    requires done.Err? ==> exists k :: StoppedAt(s, be, Writes(b, s), k, t, done.error.error)
    ensures Prepared(b, t, be) && (done.Ok? <==> PendingMapsOk(b, s))
    ensures (done.Err? ==> done == Err(Refused(BadInputMapping)))
  {
    hide Prepared, PendingMapsOk, Run, Writes;
    ApplyCompletesExactly(b, s, be);
    var writes := Writes(b, s);
    if done.Ok? {
      assert writes[..|writes|] == writes;
      CrashConverges(b, s, be, |writes|);
    } else {
      var k :| StoppedAt(s, be, writes, k, t, done.error.error);
      CrashConverges(b, s, be, k);
    }
  }

  method CreateProject(ghost s: Server, b: Bundle, server: CatalogServer, be: Backend, actions: map<Target, ActionKind>)
    returns (r: Result<(), BundleError>)
    requires forall a :: CallsFor(b, s, a) ==> a.target in actions && actions[a.target] == a.kind
    requires server.State() == s
    modifies server
    ensures r.Ok? ==> After(s, be, Writes(b, s), ProjectWrites(b, s), server.State())
    ensures r.Ok? ==>
              forall k :: k in server.projects <==> k in s.projects || (b.project.Some? && b.project.value.key == k)
    ensures r.Err? ==> r.error.Refused? && StoppedAt(s, be, Writes(b, s), 0, server.State(), r.error.error)
    ensures r.Err? ==> Run(s, be, Writes(b, s)) == Err(r.error.error)
  {
    hide External, ItemCallsFor, Register, ItemWrites, StoppedAt, ContainsExpected;
    assert After(s, be, Writes(b, s), [], s);
    if b.project.Some? {
      assert CallsFor(b, s, Action(ProjectTarget(b.project.value.key), CompareProject(s, b.project.value)));
      if actions[ProjectTarget(b.project.value.key)].Create? {
        r := Send(s, server, be, Writes(b, s), [], PostProject(b.project.value));
        assert [] + [PostProject(b.project.value)] == ProjectWrites(b, s);
        return;
      }
    }
    return Ok(());
  }

  method ConfigureBinding(
    ghost s: Server, b: Bundle, server: CatalogServer, be: Backend, actions: map<Target, ActionKind>)
    returns (r: Result<(), BundleError>)
    requires forall a :: CallsFor(b, s, a) ==> a.target in actions && actions[a.target] == a.kind
    requires After(s, be, Writes(b, s), ProjectWrites(b, s) + ItemWrites(Items(b), s), server.State())
    requires b.binding.Some? ==> b.binding.value.projectKey in server.projects
    modifies server
    ensures r.Ok? ==> Run(s, be, Writes(b, s)) == Ok(server.State())
    ensures r.Err? ==> r.error.Refused? && Run(s, be, Writes(b, s)) == Err(r.error.error)
    ensures r.Err? ==> exists k :: StoppedAt(s, be, Writes(b, s), k, server.State(), r.error.error)
  {
    hide External, ItemCallsFor, Register, ItemWrites, StoppedAt, ContainsExpected, ProjectWrites, Run;
    ghost var created := ProjectWrites(b, s) + ItemWrites(Items(b), s);
    assert Writes(b, s) == created + BindingWrites(b, s);
    if b.binding.Some? {
      assert CallsFor(b, s, Action(BindingTarget(b.binding.value.projectKey), CompareBinding(b, s)));
      if b.binding.value.projectKey !in server.projects {
        assert false;
        return Err(ProjectMissing);
      }
      if actions[BindingTarget(b.binding.value.projectKey)].Update? {
        var binding := PutBinding(b.binding.value.projectKey, b.binding.value.definition);
        r := Send(s, server, be, Writes(b, s), created, binding);
        return;
      }
    }
    assert created == Writes(b, s);
    return Ok(());
  }

  /** The writing half of `apply_bundle`. */
  method Perform(ghost s: Server, b: Bundle, server: CatalogServer, be: Backend, actions: map<Target, ActionKind>)
    returns (r: Result<(), BundleError>)
    requires forall a :: CallsFor(b, s, a) ==> a.target in actions && actions[a.target] == a.kind
    requires UniqueIdentities(b) && ConflictFree(b, s) && server.State() == s
    modifies server
    ensures r.Ok? ==> Run(s, be, Writes(b, s)) == Ok(server.State())
    ensures r.Err? ==> r.error.Refused? && Run(s, be, Writes(b, s)) == Err(r.error.error)
    ensures r.Err? ==> exists k :: StoppedAt(s, be, Writes(b, s), k, server.State(), r.error.error)
  {
    hide External, StoppedAt, CallsFor, Run, After, Writes, ItemWrites;
    assert b.binding.Some? ==> b.binding.value.projectKey in s.projects || b.project.Some?;
    r := CreateProject(s, b, server, be, actions);
    if r.Err? {
      return;
    }
    r := CreateItems(s, b, server, be, actions);
    if r.Err? {
      return;
    }
    r := ConfigureBinding(s, b, server, be, actions);
  }
}
