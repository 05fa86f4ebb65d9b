/**
 What a plan says and what an apply achieves, read off the catalog server before and after: the kind of every planned
 action, what is registered and bound after a completed apply, and that nothing else has changed.
 */
module BundleOutcome {
  import opened Wrappers
  import opened Bundles
  import opened BundleConvergence
  import opened BundleCli

  // ---- the plan ---------------------------------------------------------------------

  /** The server answers every field that is sent with the value that is sent; a missing field counts as null. */
  predicate Answered(response: Fields, fields: Fields)
  {
    forall k :: k in fields ==> if k in response then response[k] == fields[k] else fields[k] == Null
  }

  /** The project is registered and bound to the definition. */
  predicate IsBound(s: Server, projectKey: string, definition: Ident)
  {
    && projectKey in s.projects && s.projects[projectKey].id in s.bindings
    && s.bindings[s.projects[projectKey].id] == definition
  }

  lemma ProjectActionExactly(b: Bundle, s: Server, plan: seq<Action>, p: ProjectPayload)
    requires PlanFor(b, s, plan) && b.project == Some(p)
    ensures Action(ProjectTarget(p.key), Create) in plan <==> p.key !in s.projects
    ensures Action(ProjectTarget(p.key), Unchanged) in plan <==>
              p.key in s.projects && Answered(s.projects[p.key].response, p.fields)
    ensures Action(ProjectTarget(p.key), Conflict) in plan <==>
              p.key in s.projects && !Answered(s.projects[p.key].response, p.fields)
    ensures Action(ProjectTarget(p.key), Update) !in plan
  {
    forall kind
      ensures Action(ProjectTarget(p.key), kind) in plan <==> kind == CompareProject(s, p)
    {
      assert Action(ProjectTarget(p.key), kind) in plan <==> CallsFor(b, s, Action(ProjectTarget(p.key), kind));
    }
  }

  lemma ItemActionExactly(b: Bundle, s: Server, plan: seq<Action>, i: nat)
    requires PlanFor(b, s, plan) && UniqueIdentities(b) && i < |Items(b)|
    ensures var x, target := Items(b)[i], ItemTarget(Items(b)[i].ident);
            && (Action(target, Create) in plan <==> x.ident !in s.catalog)
            && (Action(target, Unchanged) in plan <==>
                  && x.ident in s.catalog && Answered(s.catalog[x.ident].response, x.fields)
                  && s.catalog[x.ident].item.refs == x.refs)
            && (Action(target, Conflict) in plan <==>
                  && x.ident in s.catalog
                  && (Answered(s.catalog[x.ident].response, x.fields) ==> s.catalog[x.ident].item.refs != x.refs))
            && Action(target, Update) !in plan
  {
    var x, target := Items(b)[i], ItemTarget(Items(b)[i].ident);
    forall kind
      ensures Action(target, kind) in plan <==> kind == CompareItem(s, x)
    {
      assert Action(target, kind) in plan <==> CallsFor(b, s, Action(target, kind));
      assert ItemCallsFor(Items(b), |Items(b)|, s, ItemAction(s, x));
      if CallsFor(b, s, Action(target, kind)) {
        var j :| 0 <= j < |Items(b)| && Action(target, kind) == ItemAction(s, Items(b)[j]);
        assert i == j;
      }
    }
  }

  /** A binding is unchanged exactly when the project is bound so already, and a conflict exactly without a project. */
  lemma BindingActionExactly(b: Bundle, s: Server, plan: seq<Action>, key: string, definition: Ident)
    requires PlanFor(b, s, plan) && b.binding == Some(Binding(key, definition))
    ensures Action(BindingTarget(key), Unchanged) in plan <==> IsBound(s, key, definition)
    ensures Action(BindingTarget(key), Conflict) in plan <==> key !in s.projects && b.project.None?
    ensures Action(BindingTarget(key), Update) in plan <==>
              !IsBound(s, key, definition) && (key in s.projects || b.project.Some?)
    ensures Action(BindingTarget(key), Create) !in plan
  {
    forall kind
      ensures Action(BindingTarget(key), kind) in plan <==> kind == CompareBinding(b, s)
    {
      assert Action(BindingTarget(key), kind) in plan <==> CallsFor(b, s, Action(BindingTarget(key), kind));
    }
  }

  // ---- one write --------------------------------------------------------------------

  /** A node of a workflow may be registered: all it names is there, and it maps the inputs of its pack. */
  ghost predicate NodeAccepted(s: Server, n: Node)
  {
    && (forall id :: id in n.skills ==> id in s.catalog)
    && (n.pack.Some? ==>
          && n.pack.value in s.catalog
          && match s.catalog[n.pack.value].item.refs
             case PackRefs(skills, inputs) =>
               && (forall id :: id in skills ==> id in s.catalog)
               && (forall k :: k in n.mapped ==> k in inputs)
               && (forall k :: k in inputs && inputs[k] ==> k in n.mapped)
             case _ => n.mapped == {})
  }

  /** The server accepts a new entry exactly when all it names is there and every node maps the inputs of its pack. */
  lemma RegistrationAcceptedExactly(s: Server, be: Backend, x: Item)
    ensures Do(s, be, PostItem(x)).Ok? <==>
              && x.ident !in s.catalog
              && match x.refs
                 case NoRefs => true
                 case PackRefs(skills, _) => forall id :: id in skills ==> id in s.catalog
                 case WorkflowRefs(nodes) => forall i :: 0 <= i < |nodes| ==> NodeAccepted(s, nodes[i])
  {
    if x.refs.WorkflowRefs? {
      var nodes := x.refs.nodes;
      forall i | 0 <= i < |nodes|
        ensures NodeAccepted(s, nodes[i]) <==> NodeResolves(s, nodes[i]) && NodeMaps(s, nodes[i])
      {
      }
      if Resolves(s, x) {
        assert forall i :: 0 <= i < |nodes| ==> NodeResolves(s, nodes[i]);
      }
    }
  }

  // ---- the server after an apply ----------------------------------------------------

  /** Everything the bundle asks for is there. */
  ghost predicate InPlace(b: Bundle, t: Server)
  {
    && (forall i :: 0 <= i < |Items(b)| ==> Items(b)[i].ident in t.catalog)
    && (b.project.Some? ==> b.project.value.key in t.projects)
    && (b.binding.Some? ==> IsBound(t, b.binding.value.projectKey, b.binding.value.definition))
  }

  ghost predicate CatalogGrew(b: Bundle, be: Backend, s: Server, t: Server)
  {
    && (forall id :: id in s.catalog ==> id in t.catalog && t.catalog[id] == s.catalog[id])
    && (forall id :: id in t.catalog && id !in s.catalog ==>
          exists i :: 0 <= i < |Items(b)| && Items(b)[i].ident == id
                      && t.catalog[id] == Stored(Items(b)[i], be.norm(Items(b)[i])))
  }

  ghost predicate ProjectsGrew(b: Bundle, be: Backend, s: Server, t: Server)
  {
    && (forall k :: k in s.projects ==> k in t.projects && t.projects[k] == s.projects[k])
    && (forall k :: k in t.projects && k !in s.projects ==>
          && b.project.Some? && b.project.value.key == k
          && t.projects[k] == ProjectRow(be.projectId, be.projectResponse))
  }

  /** A binding is as it was, or is that of the bundle. */
  ghost predicate BindingsKept(b: Bundle, s: Server, t: Server)
  {
    && s.bindings.Keys <= t.bindings.Keys
    && forall id :: id in t.bindings ==>
         || (id in s.bindings && t.bindings[id] == s.bindings[id])
         || (b.binding.Some? && b.binding.value.projectKey in t.projects
             && id == t.projects[b.binding.value.projectKey].id && t.bindings[id] == b.binding.value.definition)
  }

  /** Only what the bundle asks for was added, and nothing that was there was changed but its binding. */
  ghost predicate OnlyAdded(b: Bundle, be: Backend, s: Server, t: Server)
  {
    CatalogGrew(b, be, s, t) && ProjectsGrew(b, be, s, t) && BindingsKept(b, s, t)
  }

  lemma WriteOnlyAdds(b: Bundle, s: Server, be: Backend)
    requires Writes(b, s) != [] && Do(s, be, Writes(b, s)[0]).Ok?
    ensures OnlyAdded(b, be, s, Do(s, be, Writes(b, s)[0]).value)
  {
    hide Resolves, Maps, CompareBinding, CompareItem, CompareProject, ItemWrites, ProjectWrites, BindingWrites, Items;
    hide Writes;
    FirstWriteKinds(b, s);
    var m := FirstMissing(Items(b), s);
  }

  lemma OnlyAddedOn(b: Bundle, be: Backend, s: Server, t: Server, u: Server)
    requires OnlyAdded(b, be, s, t) && OnlyAdded(b, be, t, u)
    ensures OnlyAdded(b, be, s, u)
  {
    hide Items;
  }

  /** However far an apply got, it has only added what the bundle asks for. */
  lemma {:induction false} PrefixOnlyAdds(b: Bundle, s: Server, be: Backend, k: nat)
    requires Prepared(b, s, be) && k <= |Writes(b, s)| && Run(s, be, Writes(b, s)[..k]).Ok?
    ensures OnlyAdded(b, be, s, Run(s, be, Writes(b, s)[..k]).value)
    decreases k
  {
    hide Prepared, OnlyAdded, Do, Writes;
    var writes := Writes(b, s);
    if k > 0 {
      assert writes[..k][0] == writes[0] && writes[..k][1..] == writes[1..][..k - 1];
      var t := Do(s, be, writes[0]).value;
      WriteOnlyAdds(b, s, be);
      ReplanAfterWrite(b, s, be);
      PreparedAfterWrite(b, s, be);
      PrefixOnlyAdds(b, t, be, k - 1);
      OnlyAddedOn(b, be, s, t, Run(s, be, writes[..k]).value);
    } else {
      assert writes[..0] == [];
      NothingAdded(b, be, s);
    }
  }

  lemma NothingAdded(b: Bundle, be: Backend, s: Server)
    ensures OnlyAdded(b, be, s, s)
  {
  }

  /** Where nothing is left to write, everything is in place. */
  lemma NothingToWrite(b: Bundle, t: Server, be: Backend)
    requires Prepared(b, t, be) && Writes(b, t) == []
    ensures InPlace(b, t)
  {
    hide Closed, External, Typed, BundledMappingsOk, ContainsExpected;
    assert ProjectWrites(b, t) == [] && ItemWrites(Items(b), t) == [] && BindingWrites(b, t) == [];
    var m := FirstMissing(Items(b), t);
  }

  /**
   A completed apply: every item and the project are registered, the project is bound to the definition, new entries
   are those of the bundle, and everything else is as it was.
   */
  lemma AppliedExactly(b: Bundle, s: Server, be: Backend)
    requires Prepared(b, s, be) && Run(s, be, Writes(b, s)).Ok?
    ensures var t := Run(s, be, Writes(b, s)).value; InPlace(b, t) && OnlyAdded(b, be, s, t)
  {
    hide Prepared, OnlyAdded, InPlace, Writes;
    var k := |Writes(b, s)|;
    assert Writes(b, s)[..k] == Writes(b, s) && Writes(b, s)[k..] == [];
    CrashConverges(b, s, be, k);
    PrefixOnlyAdds(b, s, be, k);
    NothingToWrite(b, Run(s, be, Writes(b, s)).value, be);
  }
}
