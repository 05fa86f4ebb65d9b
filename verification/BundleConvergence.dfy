/**
 Applying a bundle converges.  After any prefix of its writes, planning again yields exactly the
 writes that are left; so re-applying reaches the state an uninterrupted apply reaches.  No write
 meets a missing reference, and the catalog stays closed under its references.
 */
module BundleConvergence {
  import opened Wrappers
  import opened Bundles

  // ---- the catalog stays closed -----------------------------------------------------

  /** `t` has every entry of `s`, unchanged. */
  ghost predicate Grows(s: Server, t: Server)
  {
    forall id :: id in s.catalog ==> id in t.catalog && t.catalog[id] == s.catalog[id]
  }

  lemma ResolvesMonotone(s: Server, t: Server, x: Item)
    requires Grows(s, t) && Resolves(s, x)
    ensures Resolves(t, x)
  {
    if x.refs.WorkflowRefs? {
      forall i | 0 <= i < |x.refs.nodes|
        ensures NodeResolves(t, x.refs.nodes[i])
      {
        assert NodeResolves(s, x.refs.nodes[i]);
      }
    }
  }

  /** Every accepted request keeps the catalog append-only and free of dangling references. */
  lemma DoKeepsClosed(s: Server, be: Backend, w: Write)
    requires Closed(s) && Do(s, be, w).Ok?
    ensures Grows(s, Do(s, be, w).value) && Closed(Do(s, be, w).value)
  {
    var t := Do(s, be, w).value;
    forall id | id in t.catalog
      ensures Resolves(t, t.catalog[id].item)
    {
      if id in s.catalog {
        ResolvesMonotone(s, t, s.catalog[id].item);
      } else {
        ResolvesMonotone(s, t, t.catalog[id].item);
      }
    }
  }

  // ---- pending items ----------------------------------------------------------------

  ghost predicate DistinctIdents(items: seq<Item>)
  {
    forall i, j :: 0 <= i < j < |items| ==> items[i].ident != items[j].ident
  }

  /** The first item to be created, if any, and what precedes it. */
  lemma {:induction false} FirstMissing(items: seq<Item>, s: Server) returns (i: nat)
    ensures i <= |items|
    ensures forall j :: 0 <= j < i ==> items[j].ident in s.catalog
    ensures i == |items| ==> ItemWrites(items, s) == []
    ensures i < |items| ==>
              && items[i].ident !in s.catalog
              && ItemWrites(items, s) != [] && ItemWrites(items, s)[0] == PostItem(items[i])
  {
    if items == [] {
      i := 0;
    } else if CompareItem(s, items[0]).Create? {
      i := 0;
    } else {
      var k := FirstMissing(items[1..], s);
      i := k + 1;
      forall j | 0 <= j < i
        ensures items[j].ident in s.catalog
      {
        if j > 0 {
          assert items[j] == items[1..][j - 1];
        }
      }
    }
  }

  /** Entries of other identities do not change what is missing. */
  lemma {:induction false} ItemWritesSame(items: seq<Item>, s: Server, t: Server)
    requires forall i :: 0 <= i < |items| ==> (items[i].ident in s.catalog <==> items[i].ident in t.catalog)
    ensures ItemWrites(items, s) == ItemWrites(items, t)
  {
    if items != [] {
      forall i | 0 <= i < |items[1..]|
        ensures items[1..][i].ident in s.catalog <==> items[1..][i].ident in t.catalog
      {
        assert items[1..][i] == items[i + 1];
      }
      ItemWritesSame(items[1..], s, t);
    }
  }

  /** Creating the first missing item removes exactly its write. */
  lemma {:induction false} ItemWritesAfter(items: seq<Item>, s: Server, t: Server, x: Item)
    requires DistinctIdents(items)
    requires ItemWrites(items, s) != [] && ItemWrites(items, s)[0] == PostItem(x)
    requires t.catalog.Keys == s.catalog.Keys + {x.ident} && x.ident !in s.catalog
    ensures ItemWrites(items, t) == ItemWrites(items, s)[1..]
  {
    if items != [] {
      if CompareItem(s, items[0]).Create? {
        assert x == items[0];
        forall i | 0 <= i < |items[1..]|
          ensures items[1..][i].ident in s.catalog <==> items[1..][i].ident in t.catalog
        {
          assert items[1..][i] == items[i + 1];
          assert items[0].ident != items[i + 1].ident;
        }
        ItemWritesSame(items[1..], s, t);
        assert ItemWrites(items, s)[1..] == ItemWrites(items[1..], s);
      } else {
        assert DistinctIdents(items[1..]) by {
          forall i, j | 0 <= i < j < |items[1..]|
            ensures items[1..][i].ident != items[1..][j].ident
          {
            assert items[i + 1].ident != items[j + 1].ident;
          }
        }
        ItemWritesAfter(items[1..], s, t, x);
      }
    }
  }

  // ---- the state between two writes -------------------------------------------------

  /** What a conflict-free plan establishes and every write keeps. */
  ghost predicate Prepared(b: Bundle, s: Server, be: Backend)
  {
    && ValidBundle(b)
    && Closed(s)
    && (forall i :: 0 <= i < |Items(b)| && Items(b)[i].ident in s.catalog ==>
          s.catalog[Items(b)[i].ident].item.refs == Items(b)[i].refs)
    && (forall id :: External(b, id) ==> id in s.catalog)
    && (b.binding.Some? ==> b.binding.value.projectKey in s.projects || b.project.Some?)
    && (b.project.Some? && b.project.value.key !in s.projects ==> be.projectId !in s.bindings)
  }

  lemma ConflictFreeIsPrepared(b: Bundle, s: Server, be: Backend)
    requires ValidBundle(b) && Closed(s) && ConflictFree(b, s)
    requires b.project.Some? && b.project.value.key !in s.projects ==> be.projectId !in s.bindings
    ensures Prepared(b, s, be)
  {
    forall i | 0 <= i < |Items(b)| && Items(b)[i].ident in s.catalog
      ensures s.catalog[Items(b)[i].ident].item.refs == Items(b)[i].refs
    {
      assert !CompareItem(s, Items(b)[i]).Conflict?;
    }
  }

  lemma FirstWriteKinds(b: Bundle, s: Server)
    requires Writes(b, s) != []
    ensures match Writes(b, s)[0]
            case PostProject(p) =>
              ProjectWrites(b, s) == [PostProject(p)] && b.project == Some(p) && p.key !in s.projects
            case PostItem(x) =>
              ProjectWrites(b, s) == [] && ItemWrites(Items(b), s) != [] && ItemWrites(Items(b), s)[0] == PostItem(x)
            case PutBinding(k, d) => ProjectWrites(b, s) == [] && ItemWrites(Items(b), s) == []
                                     && b.binding == Some(Binding(k, d)) && CompareBinding(b, s).Update?
    ensures Writes(b, s)[0].PostProject? ==> Writes(b, s)[1..] == ItemWrites(Items(b), s) + BindingWrites(b, s)
    ensures Writes(b, s)[0].PostItem? ==> Writes(b, s)[1..] == ItemWrites(Items(b), s)[1..] + BindingWrites(b, s)
    ensures Writes(b, s)[0].PutBinding? ==> Writes(b, s)[1..] == []
  {
    var i := FirstMissing(Items(b), s);
  }

  lemma ReplanAfterProject(b: Bundle, s: Server, be: Backend, p: ProjectPayload)
    requires Prepared(b, s, be) && b.project == Some(p) && Do(s, be, PostProject(p)).Ok?
    ensures var t := Do(s, be, PostProject(p)).value;
            ProjectWrites(b, t) == [] && BindingWrites(b, t) == BindingWrites(b, s) && t.catalog == s.catalog
  {
    hide Closed, External, Typed, BundledMappingsOk, Register, ContainsExpected;
  }

  lemma ReplanAfterItem(b: Bundle, s: Server, be: Backend, x: Item)
    requires Do(s, be, PostItem(x)).Ok?
    ensures var t := Do(s, be, PostItem(x)).value;
            && ProjectWrites(b, t) == ProjectWrites(b, s) && BindingWrites(b, t) == BindingWrites(b, s)
            && t.catalog.Keys == s.catalog.Keys + {x.ident} && x.ident !in s.catalog
  {
    hide ContainsExpected;
    var t := Do(s, be, PostItem(x)).value;
    assert t.projects == s.projects && t.bindings == s.bindings;
  }

  lemma ReplanAfterBinding(b: Bundle, s: Server, be: Backend, k: string, d: Ident)
    requires Do(s, be, PutBinding(k, d)).Ok? && b.binding == Some(Binding(k, d))
    ensures var t := Do(s, be, PutBinding(k, d)).value;
            ProjectWrites(b, t) == ProjectWrites(b, s) && BindingWrites(b, t) == [] && t.catalog == s.catalog
  {
    hide ContainsExpected, Register;
  }

  /** After an accepted first write, planning again yields exactly the writes that are left. */
  lemma ReplanAfterWrite(b: Bundle, s: Server, be: Backend)
    requires Prepared(b, s, be) && Writes(b, s) != [] && Do(s, be, Writes(b, s)[0]).Ok?
    ensures Writes(b, Do(s, be, Writes(b, s)[0]).value) == Writes(b, s)[1..]
  {
    hide Prepared, Do, ProjectWrites, BindingWrites, ItemWrites, CompareBinding;
    var w := Writes(b, s)[0];
    var t := Do(s, be, w).value;
    FirstWriteKinds(b, s);
    match w {
      case PostProject(p) =>
        ReplanAfterProject(b, s, be, p);
        ItemWritesSame(Items(b), s, t);
      case PostItem(x) =>
        ReplanAfterItem(b, s, be, x);
        assert DistinctIdents(Items(b)) by { PreparedDistinct(b, s, be); }
        ItemWritesAfter(Items(b), s, t, x);
      case PutBinding(k, d) =>
        ReplanAfterBinding(b, s, be, k, d);
        ItemWritesSame(Items(b), s, t);
    }
  }

  lemma PreparedDistinct(b: Bundle, s: Server, be: Backend)
    requires Prepared(b, s, be)
    ensures DistinctIdents(Items(b))
  {
    hide Closed, External, Typed, BundledMappingsOk;
  }

  lemma PreparedAfterWrite(b: Bundle, s: Server, be: Backend)
    requires Prepared(b, s, be) && Writes(b, s) != [] && Do(s, be, Writes(b, s)[0]).Ok?
    ensures Prepared(b, Do(s, be, Writes(b, s)[0]).value, be)
  {
    hide Closed, Typed, BundledMappingsOk, Resolves, Maps, ContainsExpected;
    var w := Writes(b, s)[0];
    var t := Do(s, be, w).value;
    FirstWriteKinds(b, s);
    DoKeepsClosed(s, be, w);
    var m := FirstMissing(Items(b), s);
    forall i | 0 <= i < |Items(b)| && Items(b)[i].ident in t.catalog
      ensures t.catalog[Items(b)[i].ident].item.refs == Items(b)[i].refs
    {
      if Items(b)[i].ident !in s.catalog {
        assert w == PostItem(Items(b)[m]);
        assert Items(b)[i].ident == Items(b)[m].ident;
        assert i == m;
      }
    }
  }

  // ---- which writes are accepted ----------------------------------------------------

  /** The nodes of `x` that use a pack from outside the bundle map its inputs correctly. */
  ghost predicate ExternalMapsOk(b: Bundle, s: Server, x: Item)
  {
    x.refs.WorkflowRefs? ==>
      forall i :: 0 <= i < |x.refs.nodes| && x.refs.nodes[i].pack.Some? && !Bundled(b, x.refs.nodes[i].pack.value) ==>
        x.refs.nodes[i].pack.value in s.catalog
        && MappingOk(x.refs.nodes[i].mapped, PackInputs(s, x.refs.nodes[i].pack.value))
  }

  /** The same for everything that is still to be created. */
  ghost predicate PendingMapsOk(b: Bundle, s: Server)
  {
    forall i :: 0 <= i < |Items(b)| && Items(b)[i].ident !in s.catalog ==> ExternalMapsOk(b, s, Items(b)[i])
  }

  lemma {:induction false} NodeReferencesHas(nodes: seq<Node>, i: nat)
    requires i < |nodes|
    ensures nodes[i].skills <= NodeReferences(nodes)
    ensures nodes[i].pack.Some? ==> nodes[i].pack.value in NodeReferences(nodes)
  {
    if i > 0 {
      assert nodes[i] == nodes[1..][i - 1];
      NodeReferencesHas(nodes[1..], i - 1);
    }
  }

  /** Where the parts of a bundle sit in the fixed order. */
  lemma Regions(b: Bundle, i: nat)
    requires Typed(b) && i < |Items(b)|
    ensures Items(b)[i].ident.resource.Skill? ==> i < |b.skills|
    ensures Items(b)[i].ident.resource.Pack? ==>
              && |b.skills| + |b.models| <= i < |b.skills| + |b.models| + |b.packs|
              && Items(b)[i] == b.packs[i - |b.skills| - |b.models|]
    ensures Items(b)[i].refs.PackRefs? ==> |b.skills| <= i && Items(b)[i].ident.resource.Pack?
    ensures Items(b)[i].refs.WorkflowRefs? ==>
              && |b.skills| + |b.models| + |b.packs| <= i
              && Items(b)[i] == b.workflows[i - |b.skills| - |b.models| - |b.packs|]
  {
  }

  /** What an item refers to is registered when everything before it is. */
  lemma ReferenceRegistered(b: Bundle, s: Server, be: Backend, m: nat, id: Ident)
    requires Prepared(b, s, be) && m < |Items(b)| && id in References(Items(b)[m])
    requires forall j :: 0 <= j < m ==> Items(b)[j].ident in s.catalog
    requires id.resource.Skill? || id.resource.Pack?
    requires id.resource.Skill? ==> |b.skills| <= m
    requires id.resource.Pack? ==> |b.skills| + |b.models| + |b.packs| <= m
    ensures id in s.catalog
  {
    if Bundled(b, id) {
      var j :| 0 <= j < |Items(b)| && Items(b)[j].ident == id;
      Regions(b, j);
      assert j < m;
    } else {
      assert External(b, id);
    }
  }

  lemma NodeOfFirstResolves(b: Bundle, s: Server, be: Backend, m: nat, i: nat)
    requires Prepared(b, s, be) && m < |Items(b)|
    requires forall j :: 0 <= j < m ==> Items(b)[j].ident in s.catalog
    requires Items(b)[m].refs.WorkflowRefs? && i < |Items(b)[m].refs.nodes|
    ensures NodeResolves(s, Items(b)[m].refs.nodes[i])
  {
    var n := Items(b)[m].refs.nodes[i];
    Regions(b, m);
    assert TypedNode(n);
    NodeReferencesHas(Items(b)[m].refs.nodes, i);
    forall id | id in n.skills
      ensures id in s.catalog
    {
      ReferenceRegistered(b, s, be, m, id);
    }
    if n.pack.Some? {
      ReferenceRegistered(b, s, be, m, n.pack.value);
      assert Resolves(s, s.catalog[n.pack.value].item);
    }
  }

  /** The first missing item always finds its references. */
  lemma FirstItemResolves(b: Bundle, s: Server, be: Backend, m: nat)
    requires Prepared(b, s, be) && m < |Items(b)|
    requires forall j :: 0 <= j < m ==> Items(b)[j].ident in s.catalog
    ensures Resolves(s, Items(b)[m])
  {
    var x := Items(b)[m];
    Regions(b, m);
    match x.refs {
      case NoRefs =>
      case PackRefs(skills, _) =>
        forall id | id in skills
          ensures id in s.catalog
        {
          ReferenceRegistered(b, s, be, m, id);
        }
      case WorkflowRefs(nodes) =>
        forall i | 0 <= i < |nodes|
          ensures NodeResolves(s, nodes[i])
        {
          NodeOfFirstResolves(b, s, be, m, i);
        }
    }
  }

  /** A node whose pack is in the bundle maps the inputs of the registered pack. */
  lemma BundledNodeMaps(b: Bundle, s: Server, be: Backend, m: nat, i: nat)
    requires Prepared(b, s, be) && m < |Items(b)|
    requires forall j :: 0 <= j < m ==> Items(b)[j].ident in s.catalog
    requires Items(b)[m].refs.WorkflowRefs? && i < |Items(b)[m].refs.nodes|
    requires Items(b)[m].refs.nodes[i].pack.Some? && Bundled(b, Items(b)[m].refs.nodes[i].pack.value)
    ensures var n := Items(b)[m].refs.nodes[i];
            n.pack.value in s.catalog && MappingOk(n.mapped, PackInputs(s, n.pack.value))
  {
    hide External, Resolves, MappingOk;
    var n := Items(b)[m].refs.nodes[i];
    Regions(b, m);
    assert TypedNode(n);
    var j :| 0 <= j < |Items(b)| && Items(b)[j].ident == n.pack.value;
    Regions(b, j);
    assert j < m;
    assert s.catalog[n.pack.value].item.refs == Items(b)[j].refs;
    var w, k := m - |b.skills| - |b.models| - |b.packs|, j - |b.skills| - |b.models|;
    assert b.workflows[w].refs.nodes[i].pack == Some(b.packs[k].ident);
  }

  /** The first missing item maps its inputs exactly when its external packs are mapped right. */
  lemma FirstItemMaps(b: Bundle, s: Server, be: Backend, m: nat)
    requires Prepared(b, s, be) && m < |Items(b)|
    requires forall j :: 0 <= j < m ==> Items(b)[j].ident in s.catalog
    requires Resolves(s, Items(b)[m])
    ensures Maps(s, Items(b)[m]) <==> ExternalMapsOk(b, s, Items(b)[m])
  {
    var x := Items(b)[m];
    if x.refs.WorkflowRefs? {
      forall i | 0 <= i < |x.refs.nodes|
        ensures NodeResolves(s, x.refs.nodes[i])
        ensures NodeMaps(s, x.refs.nodes[i]) <==>
                  (x.refs.nodes[i].pack.Some? && !Bundled(b, x.refs.nodes[i].pack.value) ==>
                     MappingOk(x.refs.nodes[i].mapped, PackInputs(s, x.refs.nodes[i].pack.value)))
      {
        assert NodeResolves(s, x.refs.nodes[i]);
        if x.refs.nodes[i].pack.Some? && Bundled(b, x.refs.nodes[i].pack.value) {
          BundledNodeMaps(b, s, be, m, i);
        }
      }
    }
  }

  lemma ItemAccepted(b: Bundle, s: Server, be: Backend, m: nat)
    requires Prepared(b, s, be) && m < |Items(b)| && Items(b)[m].ident !in s.catalog
    requires forall j :: 0 <= j < m ==> Items(b)[j].ident in s.catalog
    ensures Register(s, be.norm, Items(b)[m]).Ok? <==> ExternalMapsOk(b, s, Items(b)[m])
    ensures Register(s, be.norm, Items(b)[m]).Err? ==> Register(s, be.norm, Items(b)[m]).error.BadInputMapping?
  {
    hide Prepared, ExternalMapsOk, Resolves, Maps;
    FirstItemResolves(b, s, be, m);
    FirstItemMaps(b, s, be, m);
  }

  lemma BindingAccepted(b: Bundle, s: Server, be: Backend)
    requires Prepared(b, s, be) && b.binding.Some? && ProjectWrites(b, s) == []
    requires forall i :: 0 <= i < |Items(b)| ==> Items(b)[i].ident in s.catalog
    ensures Bind(s, b.binding.value.projectKey, b.binding.value.definition).Ok?
  {
    hide Closed, Typed, BundledMappingsOk, ContainsExpected;
    var d := b.binding.value.definition;
    if Bundled(b, d) {
      var j :| 0 <= j < |Items(b)| && Items(b)[j].ident == d;
    } else {
      assert External(b, d);
    }
  }

  /** The next write is refused exactly when it creates a workflow that maps an external pack wrongly. */
  lemma NextWriteAccepted(b: Bundle, s: Server, be: Backend)
    requires Prepared(b, s, be) && Writes(b, s) != []
    ensures Do(s, be, Writes(b, s)[0]).Ok? <==>
              (Writes(b, s)[0].PostItem? ==> ExternalMapsOk(b, s, Writes(b, s)[0].item))
    ensures Do(s, be, Writes(b, s)[0]).Err? ==> Do(s, be, Writes(b, s)[0]).error.BadInputMapping?
  {
    hide Prepared, ExternalMapsOk, Register, Bind, Items, Writes, ProjectWrites, ItemWrites, CompareBinding;
    FirstWriteKinds(b, s);
    var m := FirstMissing(Items(b), s);
    match Writes(b, s)[0] {
      case PostProject(p) =>
      case PostItem(x) => ItemAccepted(b, s, be, m);
      case PutBinding(k, d) => BindingAccepted(b, s, be);
    }
  }

  /** An accepted write leaves the external packs, and so the remaining check, as they were. */
  lemma PendingAfterWrite(b: Bundle, s: Server, be: Backend)
    requires Prepared(b, s, be) && Writes(b, s) != [] && Do(s, be, Writes(b, s)[0]).Ok?
    ensures PendingMapsOk(b, Do(s, be, Writes(b, s)[0]).value) <==> PendingMapsOk(b, s)
  {
    var w := Writes(b, s)[0];
    var t := Do(s, be, w).value;
    FirstWriteKinds(b, s);
    NextWriteAccepted(b, s, be);
    DoKeepsClosed(s, be, w);
    var m := FirstMissing(Items(b), s);
    forall i | 0 <= i < |Items(b)| && Items(b)[i].ident !in s.catalog
      ensures Items(b)[i].ident in t.catalog ==> ExternalMapsOk(b, s, Items(b)[i])
      ensures ExternalMapsOk(b, s, Items(b)[i]) <==> ExternalMapsOk(b, t, Items(b)[i])
    {
      ExternalPacksKept(b, s, t, be, i);
      if Items(b)[i].ident in t.catalog {
        assert w == PostItem(Items(b)[m]) && i == m;
      }
    }
  }

  lemma ExternalPacksKept(b: Bundle, s: Server, t: Server, be: Backend, i: nat)
    requires Prepared(b, s, be) && Grows(s, t) && i < |Items(b)|
    ensures ExternalMapsOk(b, s, Items(b)[i]) <==> ExternalMapsOk(b, t, Items(b)[i])
  {
    var x := Items(b)[i];
    if x.refs.WorkflowRefs? {
      forall j | 0 <= j < |x.refs.nodes| && x.refs.nodes[j].pack.Some? && !Bundled(b, x.refs.nodes[j].pack.value)
        ensures x.refs.nodes[j].pack.value in s.catalog
      {
        NodeReferencesHas(x.refs.nodes, j);
        assert External(b, x.refs.nodes[j].pack.value);
      }
    }
  }

  // ---- the theorems -----------------------------------------------------------------

  /**
   Applying a conflict-free plan completes exactly when every workflow it creates maps the inputs of
   packs from outside the bundle correctly; no write meets a missing reference or a duplicate.
   */
  lemma {:induction false} ApplyCompletesExactly(b: Bundle, s: Server, be: Backend)
    requires Prepared(b, s, be)
    ensures Run(s, be, Writes(b, s)).Ok? <==> PendingMapsOk(b, s)
    ensures Run(s, be, Writes(b, s)).Err? ==> Run(s, be, Writes(b, s)).error.BadInputMapping?
    decreases |Writes(b, s)|
  {
    hide Prepared, ExternalMapsOk, Do, Register;
    var writes := Writes(b, s);
    if writes == [] {
      var m := FirstMissing(Items(b), s);
    } else {
      NextWriteAccepted(b, s, be);
      FirstWriteKinds(b, s);
      if Do(s, be, writes[0]).Ok? {
        var t := Do(s, be, writes[0]).value;
        ReplanAfterWrite(b, s, be);
        PreparedAfterWrite(b, s, be);
        PendingAfterWrite(b, s, be);
        ApplyCompletesExactly(b, t, be);
      } else {
        var m := FirstMissing(Items(b), s);
      }
    }
  }

  /**
   Crash convergence: whatever prefix of the writes got through, planning again on the server it left
   yields exactly the remaining writes, and re-applying gives what the uninterrupted apply gives.
   */
  lemma {:induction false} CrashConverges(b: Bundle, s: Server, be: Backend, k: nat)
    requires Prepared(b, s, be) && k <= |Writes(b, s)|
    requires Run(s, be, Writes(b, s)[..k]).Ok?
    ensures var t := Run(s, be, Writes(b, s)[..k]).value;
            && Prepared(b, t, be)
            && Writes(b, t) == Writes(b, s)[k..]
            && Run(t, be, Writes(b, t)) == Run(s, be, Writes(b, s))
    decreases k
  {
    var writes := Writes(b, s);
    if k > 0 {
      assert writes[..k][0] == writes[0] && writes[..k][1..] == writes[1..][..k - 1];
      var t := Do(s, be, writes[0]).value;
      ReplanAfterWrite(b, s, be);
      PreparedAfterWrite(b, s, be);
      CrashConverges(b, t, be, k - 1);
      assert writes[1..][k - 1..] == writes[k..];
    } else {
      assert writes[..0] == [] && writes[0..] == writes;
    }
  }

  // ---- a bundle that does not apply -------------------------------------------------

  /** A server with one phase pack that requires an input. */
  function PackServer(pack: Ident, input: string): Server
  {
    Server(map[], map[pack := Stored(Item(pack, map[], PackRefs({}, map[input := true])), map[])], map[])
  }

  /** A bundle with one workflow that uses the pack and does not map its input. */
  function UnmappedBundle(pack: Ident, workflow: Ident): Bundle
  {
    Bundle(None, [], [], [], [Item(workflow, map[], WorkflowRefs([Node({}, Some(pack), {})]))], None)
  }

  /** Valid and free of conflicts, and yet refused when it is applied. */
  lemma UnmappedBundleIsRefused(pack: Ident, workflow: Ident, input: string, be: Backend)
    requires pack.resource.Pack? && workflow.resource.Workflow?
    ensures var b, s := UnmappedBundle(pack, workflow), PackServer(pack, input);
            && ValidBundle(b) && Closed(s) && ConflictFree(b, s)
            && Run(s, be, Writes(b, s)) == Err(BadInputMapping)
  {
    var b, s := UnmappedBundle(pack, workflow), PackServer(pack, input);
    var x := b.workflows[0];
    var nodes := x.refs.nodes;
    assert Items(b) == [x] && [x][1..] == [];
    assert nodes[1..] == [] && NodeReferences(nodes) == {pack};
    assert ItemWrites([x], s) == [PostItem(x)] + ItemWrites([x][1..], s);
    assert Writes(b, s) == [PostItem(x)];
    assert !Bundled(b, pack);
    assert PackInputs(s, pack) == map[input := true] && input in PackInputs(s, pack);
    assert !MappingOk(nodes[0].mapped, PackInputs(s, pack));
    assert NodeResolves(s, nodes[0]) && !NodeMaps(s, nodes[0]);
    assert Register(s, be.norm, x) == Err(BadInputMapping);
  }
}
