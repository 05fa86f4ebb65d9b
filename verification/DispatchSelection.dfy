/**
 Which workflow a dispatched request runs: the one it names, the recommended one, or the one its project is bound to;
 and when a dispatch under a new key is accepted at all.
 */
module DispatchSelection {
  import opened Wrappers
  import opened Text
  import opened Ordering
  import opened Addons
  import opened RequestDispatch
  import opened DispatchSafety

  /** The recommendation that the command names is for its project and its prompt. */
  predicate Recommends(s: Store, c: Command)
  {
    && c.recommendation.Some? && c.recommendation.value in s.recommendations
    && s.recommendations[c.recommendation.value].project == c.project
    && s.recommendations[c.recommendation.value].prompt == Strip(c.prompt)
  }

  /**
   The version a command is to run.  One that it names, which a recommendation it also names must offer; otherwise the
   first candidate of an unconfirmed recommendation that needs no confirmation; otherwise the bound version, while that
   is still the definition that was bound.
   */
  predicate Wants(s: Store, c: Command, v: Version)
  {
    if c.definitionVersion.Some? then
      && c.definitionKey.Some? && v.key == Strip(c.definitionKey.value) && v.version == c.definitionVersion.value
      && (c.recommendation.Some? ==> Recommends(s, c) && v in s.recommendations[c.recommendation.value].candidates)
    else if c.recommendation.Some? then
      && Recommends(s, c) && !s.recommendations[c.recommendation.value].requiresConfirmation
      && s.recommendations[c.recommendation.value].candidates != []
      && v == s.recommendations[c.recommendation.value].candidates[0]
    else
      && c.project in s.bindings && v == s.bindings[c.project].version
      && v in s.definitions && s.definitions[v].id == s.bindings[c.project].definitionId
  }

  /** Every add-on names a task of the definition and only registered skills. */
  ghost predicate Fits(nodes: seq<Node>, registry: set<SkillReference>, addons: seq<Addon>)
  {
    forall i :: 0 <= i < |addons| ==> FitsOne(nodes, registry, addons[i])
  }

  ghost predicate FitsOne(nodes: seq<Node>, registry: set<SkillReference>, a: Addon)
  {
    && (exists n :: n in nodes && n.key == Strip(a.nodeKey) && n.isTask)
    && forall x :: x in a.skills ==> x in registry
  }

  lemma OverrideFacts(c: Command)
    requires PayloadOf(c).Ok?
    ensures c.definitionVersion.Some? <==> StripOptional(c.definitionKey).Some?
    ensures c.definitionVersion.Some? ==> c.definitionKey.Some?
    ensures PayloadOf(c).value.workflow ==
              if c.definitionVersion.Some? then Some(Version(Strip(c.definitionKey.value), c.definitionVersion.value))
              else None
    ensures PayloadOf(c).value.recommendation == c.recommendation && PayloadOf(c).value.prompt == Strip(c.prompt)
    ensures Normalize(c.addons).Ok? && PayloadOf(c).value.addons == Normalize(c.addons).value
  {
    hide Normalize, Strip;
  }

  /** The selection answers with the wanted version, and refuses exactly when none is wanted and registered. */
  lemma SelectsWanted(s: Store, c: Command)
    requires PayloadOf(c).Ok?
    ensures forall d :: Select(s, PayloadOf(c).value, c.project) == Ok(d) <==>
                        exists v :: Wants(s, c, v) && v in s.definitions && s.definitions[v] == d
  {
    hide PayloadOf, Strip, StripOptional;
    OverrideFacts(c);
    var p := PayloadOf(c).value;
    forall d
      ensures Select(s, p, c.project) == Ok(d) <==>
                exists v :: Wants(s, c, v) && v in s.definitions && s.definitions[v] == d
    {
      if Select(s, p, c.project) == Ok(d) {
        var v := match Recommended(s, p, c.project).value
                 case Some(w) => w
                 case None => s.bindings[c.project].version;
        assert Wants(s, c, v);
      }
    }
  }

  lemma ApplicableExactly(nodes: seq<Node>, registry: set<SkillReference>, a: Addon)
    requires Strip(a.nodeKey) == a.nodeKey
    ensures Applicable(nodes, registry, a) <==> FitsOne(nodes, registry, a)
  {
    hide Strip;
    if n :| n in nodes && n.key == a.nodeKey && n.isTask {
      var j :| 0 <= j < |nodes| && nodes[j] == n;
    }
  }

  lemma FitsNormalised(nodes: seq<Node>, registry: set<SkillReference>, addons: seq<Addon>)
    requires Normalize(addons).Ok?
    ensures Fits(nodes, registry, addons) <==>
              forall i :: 0 <= i < |Normalize(addons).value| ==> Applicable(nodes, registry, Normalize(addons).value[i])
  {
    hide Normalize, Strip, Meaning, Distinct, Applicable, Says, FitsOne;
    NormalizeKeepsMeaning(addons);
    NormalizeAccepts(addons);
    NormalizedForApply(addons);
    var n, m := Normalize(addons).value, Meaning(addons);
    MeaningExactly(addons, m);
    MeaningExactly(n, m);
    assert Fits(nodes, registry, addons) == Fits(nodes, registry, n) by {
      hide Fits;
      FitsMeaning(nodes, registry, addons, m);
      FitsMeaning(nodes, registry, n, m);
    }
    forall i | 0 <= i < |n|
      ensures Applicable(nodes, registry, n[i]) <==> FitsOne(nodes, registry, n[i])
    {
      ApplicableExactly(nodes, registry, n[i]);
    }
  }

  /** Fitting depends only on what the add-ons ask for. */
  lemma FitsMeaning(
    nodes: seq<Node>, registry: set<SkillReference>, addons: seq<Addon>, m: map<string, set<SkillReference>>)
    requires Says(addons, m)
    ensures Fits(nodes, registry, addons) <==>
              forall k :: k in m ==> (exists n :: n in nodes && n.key == k && n.isTask) && m[k] <= registry
  {
    hide Strip;
    assert Fits(nodes, registry, addons) <==> forall i :: 0 <= i < |addons| ==> FitsOne(nodes, registry, addons[i]);
    forall i | 0 <= i < |addons|
      ensures (forall x :: x in addons[i].skills ==> x in registry) <==> m[Strip(addons[i].nodeKey)] <= registry
    {
      assert forall x :: x in addons[i].skills <==> x in Elements(addons[i].skills);
    }
  }

  /** Under a new key a well-formed command is accepted exactly when all of this holds. */
  ghost predicate MayRun(s: Store, c: Command, f: Fresh, v: Version)
  {
    && c.project in s.active && s.active[c.project] && !Blank(c.prompt) && f.starts.Some?
    && Wants(s, c, v) && v in s.definitions
    && s.definitions[v].compatible && Fits(s.definitions[v].nodes, s.skills, c.addons)
  }

  ghost predicate Unique(s: Store)
  {
    forall v :: v in s.definitions ==> UniqueNodes(s.definitions[v].nodes)
  }

  lemma AddonsAccepted(nodes: seq<Node>, registry: set<SkillReference>, addons: seq<Addon>)
    requires UniqueNodes(nodes) && Normalize(addons).Ok?
    ensures ApplyAddons(nodes, registry, Normalize(addons).value).Ok? <==> Fits(nodes, registry, addons)
    ensures ApplyAddons(nodes, registry, Normalize(addons).value).Ok? ==>
              AllEnriched(nodes, ApplyAddons(nodes, registry, Normalize(addons).value).value, Meaning(addons))
  {
    hide Normalize, ApplyAddons, Meaning, AllEnriched, Applicable, Fits, UniqueNodes;
    var n := Normalize(addons).value;
    FitsNormalised(nodes, registry, addons);
    NormalizeKeepsMeaning(addons);
    if ApplyAddons(nodes, registry, n).Ok? {
      ApplyExactly(nodes, registry, n, ApplyAddons(nodes, registry, n).value);
    }
    if Fits(nodes, registry, addons) {
      EnrichMeets(nodes, Meaning(n));
      ApplyExactly(nodes, registry, n, Enrich(nodes, Meaning(n)));
    }
  }

  /** A dispatch under a new key creates its rows exactly when some registered version may be run for it. */
  lemma DispatchAcceptedExactly(s: Store, c: Command, f: Fresh)
    requires Unique(s) && WellFormed(c) && c.project in s.active
    requires Key(c.project, Strip(c.origin.ingressKey), Strip(c.idempotencyKey)) !in s.receipts
    ensures Dispatch(s, c, f).result.Ok? <==> exists v :: MayRun(s, c, f, v)
  {
    hide PayloadOf, ApplyAddons, Strip, StripOptional, Select, Wants, Commit, UniqueNodes, Normalize, Fits, Blank;
    var p := PayloadOf(c).value;
    OverrideFacts(c);
    SelectsWanted(s, c);
    StripFacts(c.prompt);
    assert Dispatch(s, c, f).result.Ok? <==> Create(s, c, p, f).Ok?;
    if Select(s, p, c.project).Ok? {
      var d := Select(s, p, c.project).value;
      var v :| Wants(s, c, v) && v in s.definitions && s.definitions[v] == d;
      AddonsAccepted(d.nodes, s.skills, c.addons);
      assert Create(s, c, p, f).Ok? <==> MayRun(s, c, f, v);
    }
    if v :| MayRun(s, c, f, v) {
      assert Select(s, p, c.project) == Ok(s.definitions[v]);
      AddonsAccepted(s.definitions[v].nodes, s.skills, c.addons);
    }
  }

  /** What a created execution runs: the nodes of the wanted version, with exactly the requested skills added. */
  lemma CreatedExecution(s: Store, c: Command, f: Fresh)
    requires Unique(s) && Dispatch(s, c, f).result.Ok? && !Dispatch(s, c, f).result.value.replayed
    ensures var t := Dispatch(s, c, f).store;
            && f.ids.execution in t.executions && t.executions[f.ids.execution].run == f.ids.run
            && exists v ::
                 && MayRun(s, c, f, v)
                 && AllEnriched(s.definitions[v].nodes, t.executions[f.ids.execution].nodes, Meaning(c.addons))
  {
    hide PayloadOf, ApplyAddons, Strip, StripOptional, Select, Wants, UniqueNodes, Normalize, Fits, Blank, AllEnriched;
    var p := PayloadOf(c).value;
    OverrideFacts(c);
    SelectsWanted(s, c);
    StripFacts(c.prompt);
    var d := Select(s, p, c.project).value;
    var v :| Wants(s, c, v) && v in s.definitions && s.definitions[v] == d;
    AddonsAccepted(d.nodes, s.skills, c.addons);
    assert MayRun(s, c, f, v);
  }

  /** Only one version is ever wanted. */
  lemma WantedIsUnique(s: Store, c: Command, v: Version, w: Version)
    requires Wants(s, c, v) && Wants(s, c, w)
    ensures v == w
  {
  }
}
