/**
 Skill add-ons of a request: their canonical form, and their application to a workflow definition.
 */
module Addons {
  import opened Wrappers
  import opened Ordering
  import opened Text

  datatype SkillReference = SkillReference(key: string, version: int)

  datatype Addon = Addon(nodeKey: string, skills: seq<SkillReference>)

  datatype AddonError = DuplicateNode | EmptyNode | NoSkills | NodeNotFound | NotATask | SkillNotFound

  // ---- orders -----------------------------------------------------------------------

  /** The order of the pairs (key, version). */
  predicate SkillLe(a: SkillReference, b: SkillReference)
  {
    if a.key == b.key then a.version <= b.version else StringLe(a.key, b.key)
  }

  lemma SkillOrder()
    ensures TotalOrder(SkillLe)
  {
    StringOrder();
    forall a, b ensures SkillLe(a, b) || SkillLe(b, a) { assert StringLe(a.key, b.key) || StringLe(b.key, a.key); }
  }

  predicate NodeKeyLe(a: Addon, b: Addon)
  {
    StringLe(a.nodeKey, b.nodeKey)
  }

  lemma NodeKeyOrder()
    ensures TotalPreorder(NodeKeyLe)
  {
    StringOrder();
    forall a, b
      ensures NodeKeyLe(a, b) || NodeKeyLe(b, a)
    {
      assert StringLe(a.nodeKey, b.nodeKey) || StringLe(b.nodeKey, a.nodeKey);
    }
  }

  // ---- normalisation ----------------------------------------------------------------

  function StrippedKeys(addons: seq<Addon>): (keys: seq<string>)
    ensures |keys| == |addons| && forall i :: 0 <= i < |addons| ==> keys[i] == Strip(addons[i].nodeKey)
  {
    if addons == [] then [] else [Strip(addons[0].nodeKey)] + StrippedKeys(addons[1..])
  }

  function Entry(a: Addon): Addon
  {
    Addon(Strip(a.nodeKey), SortSet(a.skills, SkillLe))
  }

  /** The loop's list, or the error of the first add-on it rejects. */
  function Entries(addons: seq<Addon>): Result<seq<Addon>, AddonError>
  {
    if addons == [] then Ok([])
    else if Strip(addons[0].nodeKey) == [] then Err(EmptyNode)
    else if addons[0].skills == [] then Err(NoSkills)
    else
      match Entries(addons[1..])
      case Err(x) => Err(x)
      case Ok(rest) => Ok([Entry(addons[0])] + rest)
  }

  /** `_normalize_skill_addons` */
  ghost function Normalize(addons: seq<Addon>): Result<seq<Addon>, AddonError>
  {
    if !Distinct(StrippedKeys(addons)) then Err(DuplicateNode)
    else
      match Entries(addons)
      case Err(x) => Err(x)
      case Ok(entries) => Ok(Sort(entries, NodeKeyLe))
  }

  /** What a list of add-ons asks for: skills by node. */
  ghost function Meaning(addons: seq<Addon>): map<string, set<SkillReference>>
  {
    if addons == [] then map[]
    else Meaning(addons[1..])[Strip(addons[0].nodeKey) := Elements(addons[0].skills)]
  }

  ghost predicate Acceptable(addons: seq<Addon>)
  {
    && Distinct(StrippedKeys(addons))
    && forall i :: 0 <= i < |addons| ==> EntryOk(addons[i])
  }

  // ---- which lists are accepted -----------------------------------------------------

  predicate EntryOk(a: Addon)
  {
    !Blank(a.nodeKey) && a.skills != []
  }

  lemma {:induction false} EntriesAccepted(addons: seq<Addon>)
    ensures Entries(addons).Ok? <==> forall i :: 0 <= i < |addons| ==> EntryOk(addons[i])
    ensures Entries(addons).Ok? ==>
              && |Entries(addons).value| == |addons|
              && forall i :: 0 <= i < |addons| ==> Entries(addons).value[i] == Entry(addons[i])
  {
    hide Strip, Entry, Blank;
    if addons != [] {
      StripFacts(addons[0].nodeKey);
      EntriesAccepted(addons[1..]);
      assert addons == [addons[0]] + addons[1..];
      assert forall i :: 0 <= i < |addons[1..]| ==> addons[1..][i] == addons[i + 1];
      assert (forall i :: 0 <= i < |addons| ==> EntryOk(addons[i])) <==>
             EntryOk(addons[0]) && (forall i :: 0 <= i < |addons[1..]| ==> EntryOk(addons[1..][i]));
    }
  }

  lemma NormalizeAccepts(addons: seq<Addon>)
    ensures Normalize(addons).Ok? <==> Acceptable(addons)
  {
    EntriesAccepted(addons);
  }

  // ---- meaning ----------------------------------------------------------------------

  lemma {:induction false} MeaningAt(addons: seq<Addon>, i: nat)
    requires Distinct(StrippedKeys(addons)) && i < |addons|
    ensures Strip(addons[i].nodeKey) in Meaning(addons)
    ensures Meaning(addons)[Strip(addons[i].nodeKey)] == Elements(addons[i].skills)
  {
    assert StrippedKeys(addons)[1..] == StrippedKeys(addons[1..]);
    if i > 0 {
      assert addons[i] == addons[1..][i - 1];
      MeaningAt(addons[1..], i - 1);
      assert StrippedKeys(addons[1..])[i - 1] == Strip(addons[i].nodeKey);
    }
  }

  lemma {:induction false} MeaningFrom(addons: seq<Addon>, k: string) returns (i: nat)
    requires k in Meaning(addons)
    ensures i < |addons| && Strip(addons[i].nodeKey) == k
  {
    if k == Strip(addons[0].nodeKey) {
      i := 0;
    } else {
      i := MeaningFrom(addons[1..], k);
      i := i + 1;
    }
  }

  /** `m` says for each node what the add-ons say. */
  ghost predicate Says(addons: seq<Addon>, m: map<string, set<SkillReference>>)
  {
    && (forall i :: 0 <= i < |addons| ==>
          Strip(addons[i].nodeKey) in m && m[Strip(addons[i].nodeKey)] == Elements(addons[i].skills))
    && (forall k :: k in m ==> exists i :: 0 <= i < |addons| && Strip(addons[i].nodeKey) == k)
  }

  /** Without repeated nodes the meaning is the only such map. */
  lemma MeaningExactly(addons: seq<Addon>, m: map<string, set<SkillReference>>)
    requires Distinct(StrippedKeys(addons))
    ensures Says(addons, m) <==> m == Meaning(addons)
  {
    hide Strip, Meaning, Distinct;
    forall i | 0 <= i < |addons|
      ensures Strip(addons[i].nodeKey) in Meaning(addons)
      ensures Meaning(addons)[Strip(addons[i].nodeKey)] == Elements(addons[i].skills)
    {
      MeaningAt(addons, i);
    }
    forall k | k in Meaning(addons)
      ensures exists i :: 0 <= i < |addons| && Strip(addons[i].nodeKey) == k
    {
      var i := MeaningFrom(addons, k);
    }
    if Says(addons, m) {
      assert m.Keys == Meaning(addons).Keys;
      forall k | k in m
        ensures m[k] == Meaning(addons)[k]
      {
        var i :| 0 <= i < |addons| && Strip(addons[i].nodeKey) == k;
      }
    }
  }

  // ---- the canonical form -----------------------------------------------------------

  ghost predicate IsEntry(e: Addon)
  {
    && Strip(e.nodeKey) == e.nodeKey && e.nodeKey != []
    && e.skills != [] && Sorted(e.skills, SkillLe) && Distinct(e.skills)
  }

  lemma EntryFacts(a: Addon)
    requires !Blank(a.nodeKey) && a.skills != []
    ensures IsEntry(Entry(a)) && Elements(Entry(a).skills) == Elements(a.skills)
  {
    SkillOrder();
    SortSetCorrect(a.skills, SkillLe);
    StripIdempotent(a.nodeKey);
    StripFacts(a.nodeKey);
    assert a.skills[0] in Elements(a.skills);
    assert Entry(a).skills != [];
  }

  lemma {:induction false} DistinctIndices<T>(s: seq<T>)
    ensures Distinct(s) <==> forall i, j :: 0 <= i < j < |s| ==> s[i] != s[j]
  {
    if s != [] {
      DistinctIndices(s[1..]);
      if Distinct(s) {
        forall i, j | 0 <= i < j < |s|
          ensures s[i] != s[j]
        {
          assert s[1..][j - 1] == s[j];
          if i > 0 {
            assert s[1..][i - 1] == s[i];
          }
        }
      }
    }
  }

  /** Equal node keys mean equal entries. */
  lemma EntriesTell(addons: seq<Addon>)
    requires Acceptable(addons)
    ensures Entries(addons).Ok? && Distinct(Entries(addons).value) && KeysTell(Entries(addons).value, NodeKeyLe)
  {
    hide StrippedKeys;
    var entries := (EntriesAccepted(addons); Entries(addons).value);
    DistinctIndices(StrippedKeys(addons));
    forall i, j | 0 <= i < j < |entries|
      ensures entries[i].nodeKey != entries[j].nodeKey
    {
      assert StrippedKeys(addons)[i] != StrippedKeys(addons)[j];
    }
    DistinctIndices(entries);
    forall x, y | x in entries && y in entries && NodeKeyLe(x, y) && NodeKeyLe(y, x)
      ensures x == y
    {
      StringLeTotal(x.nodeKey, y.nodeKey);
      var i :| 0 <= i < |entries| && entries[i] == x;
      var j :| 0 <= j < |entries| && entries[j] == y;
    }
  }

  /** The canonical form: strictly ordered by node, each entry stripped and with its skills sorted. */
  lemma NormalForm(addons: seq<Addon>)
    requires Acceptable(addons)
    ensures Normalize(addons).Ok?
    ensures var n := Normalize(addons).value;
            && Sorted(n, NodeKeyLe) && Distinct(n) && KeysTell(n, NodeKeyLe)
            && (forall e :: e in n <==> e in Entries(addons).value)
            && (forall e :: e in n ==> IsEntry(e))
  {
    hide Acceptable;
    NormalizeAccepts(addons);
    EntriesTell(addons);
    EntriesAccepted(addons);
    NodeKeyOrder();
    var entries := Entries(addons).value;
    SortCorrect(entries, NodeKeyLe);
    SortDistinct(entries, NodeKeyLe);
    forall e
      ensures e in Sort(entries, NodeKeyLe) <==> e in entries
      ensures e in entries ==> IsEntry(e)
    {
      SortMembers(entries, NodeKeyLe, e);
      if e in entries {
        var i :| 0 <= i < |entries| && entries[i] == e;
        EntryFacts(addons[i]);
      }
    }
  }

  /** An entry is in the list exactly when it says what the list means for its node. */
  lemma EntryIffMeant(addons: seq<Addon>, e: Addon)
    requires Acceptable(addons) && IsEntry(e)
    ensures Entries(addons).Ok?
    ensures e in Entries(addons).value <==>
              e.nodeKey in Meaning(addons) && Meaning(addons)[e.nodeKey] == Elements(e.skills)
  {
    EntriesAccepted(addons);
    var entries := Entries(addons).value;
    if e in entries {
      var i :| 0 <= i < |entries| && entries[i] == e;
      MeaningAt(addons, i);
      EntryFacts(addons[i]);
    }
    if e.nodeKey in Meaning(addons) && Meaning(addons)[e.nodeKey] == Elements(e.skills) {
      var i := MeaningFrom(addons, e.nodeKey);
      MeaningAt(addons, i);
      EntryFacts(addons[i]);
      SkillOrder();
      StrictlySortedIsUnique(e.skills, entries[i].skills, SkillLe);
      assert e == entries[i];
    }
  }

  /** A list of entries with distinct nodes is acceptable, and what it means can be read off. */
  lemma NormalFormAcceptable(n: seq<Addon>)
    requires Distinct(n) && KeysTell(n, NodeKeyLe) && forall e :: e in n ==> IsEntry(e)
    ensures Acceptable(n)
  {
    hide Strip, Sorted, Distinct, StringLe, StrippedKeys;
    DistinctIndices(n);
    DistinctIndices(StrippedKeys(n));
    forall i, j | 0 <= i < j < |n|
      ensures StrippedKeys(n)[i] != StrippedKeys(n)[j]
    {
      assert n[i] in n && n[j] in n;
      StringLeTotal(n[i].nodeKey, n[i].nodeKey);
      assert IsEntry(n[i]) && IsEntry(n[j]);
    }
    forall i | 0 <= i < |n|
      ensures EntryOk(n[i])
    {
      assert n[i] in n;
      StripFacts(n[i].nodeKey);
    }
  }

  /** Normalising keeps the meaning and yields an acceptable list. */
  lemma NormalizeKeepsMeaning(addons: seq<Addon>)
    requires Normalize(addons).Ok?
    ensures Acceptable(Normalize(addons).value)
    ensures Meaning(Normalize(addons).value) == Meaning(addons)
  {
    NormalizeAccepts(addons);
    NormalForm(addons);
    var n := Normalize(addons).value;
    NormalFormAcceptable(n);
    assert Says(n, Meaning(addons)) by {
      forall i | 0 <= i < |n|
        ensures Strip(n[i].nodeKey) in Meaning(addons) && Meaning(addons)[Strip(n[i].nodeKey)] == Elements(n[i].skills)
      {
        assert n[i] in n && IsEntry(n[i]);
        EntryIffMeant(addons, n[i]);
      }
      forall k | k in Meaning(addons)
        ensures exists i :: 0 <= i < |n| && Strip(n[i].nodeKey) == k
      {
        var j := MeaningFrom(addons, k);
        EntriesAccepted(addons);
        var e := Entries(addons).value[j];
        assert e in n && IsEntry(e);
        var i :| 0 <= i < |n| && n[i] == e;
      }
    }
    MeaningExactly(n, Meaning(addons));
  }

  /** Two accepted lists normalise equally exactly when they ask for the same skills at the same nodes. */
  lemma CanonicalForm(a: seq<Addon>, b: seq<Addon>)
    requires Normalize(a).Ok? && Normalize(b).Ok?
    ensures Normalize(a) == Normalize(b) <==> Meaning(a) == Meaning(b)
  {
    hide Normalize, Meaning, Acceptable, Entries, IsEntry;
    NormalizeKeepsMeaning(a);
    NormalizeKeepsMeaning(b);
    if Meaning(a) == Meaning(b) {
      NormalizeAccepts(a);
      NormalizeAccepts(b);
      NormalForm(a);
      NormalForm(b);
      NodeKeyOrder();
      var m, n := Normalize(a).value, Normalize(b).value;
      forall e
        ensures e in m <==> e in n
      {
        if IsEntry(e) {
          EntryIffMeant(a, e);
          EntryIffMeant(b, e);
        }
      }
      assert Elements(m) == Elements(n);
      StrictlySortedIsUnique(m, n, NodeKeyLe);
    }
  }

  lemma NormalizeIdempotent(addons: seq<Addon>)
    requires Normalize(addons).Ok?
    ensures Normalize(Normalize(addons).value) == Normalize(addons)
  {
    var n := Normalize(addons).value;
    NormalizeKeepsMeaning(addons);
    NormalizeAccepts(n);
    CanonicalForm(n, addons);
  }

  /** `b` is `a` in another order, with each skill list reordered or repeated. */
  ghost predicate Rearranged(a: seq<Addon>, b: seq<Addon>, p: seq<nat>)
  {
    && |a| == |b| == |p| && Distinct(p)
    && (forall i :: 0 <= i < |p| ==> p[i] < |a|)
    && (forall i :: 0 <= i < |p| ==>
          b[i].nodeKey == a[p[i]].nodeKey && Elements(b[i].skills) == Elements(a[p[i]].skills))
  }

  /** Neither the order of the add-ons nor the order or repetition of their skills matters. */
  lemma NormalizeOrderBlind(a: seq<Addon>, b: seq<Addon>, p: seq<nat>)
    requires Normalize(a).Ok? && Rearranged(a, b, p)
    ensures Normalize(b) == Normalize(a)
  {
    NormalizeAccepts(a);
    NormalizeAccepts(b);
    RearrangedAcceptable(a, b, p);
    RearrangedSays(a, b, p);
    MeaningExactly(b, Meaning(a));
    CanonicalForm(a, b);
  }

  lemma RearrangedAcceptable(a: seq<Addon>, b: seq<Addon>, p: seq<nat>)
    requires Acceptable(a) && Rearranged(a, b, p)
    ensures Acceptable(b)
  {
    hide Strip, Distinct, Blank, StrippedKeys;
    DistinctIndices(p);
    DistinctIndices(StrippedKeys(a));
    DistinctIndices(StrippedKeys(b));
    forall i, j | 0 <= i < j < |b|
      ensures StrippedKeys(b)[i] != StrippedKeys(b)[j]
    {
      assert StrippedKeys(a)[p[i]] != StrippedKeys(a)[p[j]];
    }
    forall i | 0 <= i < |b|
      ensures EntryOk(b[i])
    {
      assert a[p[i]].skills[0] in Elements(b[i].skills);
    }
  }

  lemma RearrangedSays(a: seq<Addon>, b: seq<Addon>, p: seq<nat>)
    requires Acceptable(a) && Rearranged(a, b, p)
    ensures Says(b, Meaning(a))
  {
    hide Strip, Distinct, Blank, Meaning, StrippedKeys;
    MeaningExactly(a, Meaning(a));
    forall k | k in Meaning(a)
      ensures exists i :: 0 <= i < |b| && Strip(b[i].nodeKey) == k
    {
      var j :| 0 <= j < |a| && Strip(a[j].nodeKey) == k;
      var i := Preimage(p, j);
      assert Strip(b[i].nodeKey) == k;
    }
  }

  /** A sequence of `n` distinct numbers below `n` has them all. */
  lemma Preimage(p: seq<nat>, j: nat) returns (i: nat)
    requires Distinct(p) && j < |p| && forall i :: 0 <= i < |p| ==> p[i] < |p|
    ensures i < |p| && p[i] == j
  {
    if j !in p {
      ElementsCount(p);
      NumbersCount(|p|);
      assert Elements(p) <= Numbers(|p|) - {j};
      SubsetCount(Elements(p), Numbers(|p|) - {j});
      assert false;
    }
    i :| 0 <= i < |p| && p[i] == j;
  }

  /** The numbers below `n`. */
  ghost function Numbers(n: nat): set<nat>
  {
    if n == 0 then {} else Numbers(n - 1) + {n - 1}
  }

  lemma {:induction false} NumbersCount(n: nat)
    ensures |Numbers(n)| == n && forall x: int :: x in Numbers(n) <==> 0 <= x < n
  {
    if n > 0 {
      NumbersCount(n - 1);
    }
  }

  lemma {:induction false} SubsetCount<T>(a: set<T>, b: set<T>)
    requires a <= b
    ensures |a| <= |b|
  {
    if a != {} {
      var x :| x in a;
      SubsetCount(a - {x}, b - {x});
    }
  }

  lemma {:induction false} ElementsCount<T>(s: seq<T>)
    ensures |Elements(s)| <= |s|
    ensures |Elements(s)| == |s| <==> Distinct(s)
  {
    if s != [] {
      ElementsCount(s[1..]);
      assert Elements(s) == Elements(s[1..]) + {s[0]};
    }
  }

  // ---- the loop ---------------------------------------------------------------------

  lemma NoElements(s: seq<string>)
    requires s == []
    ensures Elements(s) == {}
  {
  }

  method CollectKeys(addons: seq<Addon>) returns (keys: seq<string>, seen: set<string>)
    ensures keys == StrippedKeys(addons) && seen == Elements(keys)
  {
    hide Strip, Elements, StrippedKeys;
    keys, seen := [], {};
    assert Elements(keys) == {} by { NoElements(keys); }
    for i := 0 to |addons|
      invariant |keys| == i && forall j :: 0 <= j < i ==> keys[j] == StrippedKeys(addons)[j]
      invariant seen == Elements(keys)
    {
      ElementsUnion(keys, [Strip(addons[i].nodeKey)]);
      ElementsOne(Strip(addons[i].nodeKey));
      keys := keys + [Strip(addons[i].nodeKey)];
      seen := seen + {Strip(addons[i].nodeKey)};
    }
  }

  lemma SortSetEmpty(skills: seq<SkillReference>)
    ensures SortSet(skills, SkillLe) == [] <==> skills == []
  {
    if skills != [] {
      SkillOrder();
      SortSetCorrect(skills, SkillLe);
      assert skills[0] in Elements(SortSet(skills, SkillLe));
    }
  }

  ghost function Prepend(done: seq<Addon>, rest: Result<seq<Addon>, AddonError>): Result<seq<Addon>, AddonError>
  {
    if rest.Ok? then Ok(done + rest.value) else rest
  }

  method CollectEntries(addons: seq<Addon>, keys: seq<string>) returns (r: Result<seq<Addon>, AddonError>)
    requires keys == StrippedKeys(addons)
    ensures r == Entries(addons)
  {
    hide SortSet, Strip;
    var normalized: seq<Addon> := [];
    assert addons[0..] == addons;
    assert Entries(addons).Ok? ==> [] + Entries(addons).value == Entries(addons).value;
    for i := 0 to |addons|
      invariant Entries(addons) == Prepend(normalized, Entries(addons[i..]))
    {
      ghost var rest := Entries(addons[i + 1..]);
      assert addons[i..][0] == addons[i] && addons[i..][1..] == addons[i + 1..];
      if keys[i] == [] {
        return Err(EmptyNode);
      }
      var skills := SortSet(addons[i].skills, SkillLe);
      SortSetEmpty(addons[i].skills);
      if skills == [] {
        return Err(NoSkills);
      }
      var entry := [Addon(keys[i], skills)];
      assert rest.Ok? ==> normalized + (entry + rest.value) == normalized + entry + rest.value;
      normalized := normalized + entry;
    }
    assert addons[|addons|..] == [] && normalized + [] == normalized;
    return Ok(normalized);
  }

  method NormalizeSkillAddons(addons: seq<Addon>) returns (r: Result<seq<Addon>, AddonError>)
    ensures r == Normalize(addons)
  {
    var keys, seen := CollectKeys(addons);
    ElementsCount(keys);
    if |keys| != |seen| {
      return Err(DuplicateNode);
    }
    var normalized := CollectEntries(addons, keys);
    if normalized.Err? {
      return normalized;
    }
    return Ok(Sort(normalized.value, NodeKeyLe));
  }

  // ---- application ------------------------------------------------------------------

  /** A node of a workflow definition; `rest` stands for its other fields. */
  datatype Node = Node(key: string, isTask: bool, skills: seq<SkillReference>, rest: int)

  ghost predicate UniqueNodes(nodes: seq<Node>)
  {
    forall i, j :: 0 <= i < j < |nodes| ==> nodes[i].key != nodes[j].key
  }

  /** The add-on may be applied: it names a task, and all its skills are registered. */
  ghost predicate Applicable(nodes: seq<Node>, registry: set<SkillReference>, a: Addon)
  {
    && (exists i :: 0 <= i < |nodes| && nodes[i].key == a.nodeKey && nodes[i].isTask)
    && Elements(a.skills) <= registry
  }

  /** `n` is what becomes of the node `m`: exactly the union of its own and the added skills. */
  ghost predicate Enriched(m: Node, n: Node, additions: map<string, set<SkillReference>>)
  {
    if m.key !in additions then n == m
    else
      && n == m.(skills := n.skills)
      && Sorted(n.skills, SkillLe) && Distinct(n.skills)
      && Elements(n.skills) == Elements(m.skills) + additions[m.key]
  }

  ghost predicate AllEnriched(nodes: seq<Node>, result: seq<Node>, additions: map<string, set<SkillReference>>)
  {
    |result| == |nodes| && forall i :: 0 <= i < |nodes| ==> Enriched(nodes[i], result[i], additions)
  }

  /** Only one list of nodes is the enriched one. */
  lemma EnrichedIsUnique(nodes: seq<Node>, a: seq<Node>, b: seq<Node>, additions: map<string, set<SkillReference>>)
    requires AllEnriched(nodes, a, additions) && AllEnriched(nodes, b, additions)
    ensures a == b
  {
    SkillOrder();
    forall i | 0 <= i < |nodes|
      ensures a[i] == b[i]
    {
      assert Enriched(nodes[i], a[i], additions) && Enriched(nodes[i], b[i], additions);
      if nodes[i].key in additions {
        StrictlySortedIsUnique(a[i].skills, b[i].skills, SkillLe);
      }
    }
  }

  ghost function AnyOrder(s: set<SkillReference>): (q: seq<SkillReference>)
    ensures Elements(q) == s
  {
    if s == {} then []
    else
      var x :| x in s;
      var rest := AnyOrder(s - {x});
      assert Elements([x] + rest) == {x} + Elements(rest);
      [x] + rest
  }

  ghost function EnrichNode(m: Node, additions: map<string, set<SkillReference>>): Node
  {
    if m.key in additions then m.(skills := SortSet(m.skills + AnyOrder(additions[m.key]), SkillLe)) else m
  }

  ghost function Enrich(nodes: seq<Node>, additions: map<string, set<SkillReference>>): (result: seq<Node>)
    ensures |result| == |nodes| && forall i :: 0 <= i < |nodes| ==> result[i] == EnrichNode(nodes[i], additions)
  {
    if nodes == [] then [] else [EnrichNode(nodes[0], additions)] + Enrich(nodes[1..], additions)
  }

  lemma EnrichMeets(nodes: seq<Node>, additions: map<string, set<SkillReference>>)
    ensures AllEnriched(nodes, Enrich(nodes, additions), additions)
  {
    SkillOrder();
    forall i | 0 <= i < |nodes|
      ensures Enriched(nodes[i], EnrichNode(nodes[i], additions), additions)
    {
      if nodes[i].key in additions {
        var all := nodes[i].skills + AnyOrder(additions[nodes[i].key]);
        SortSetCorrect(all, SkillLe);
        assert Elements(all) == Elements(nodes[i].skills) + additions[nodes[i].key];
      }
    }
  }

  /** The checks of one add-on, in their order. */
  ghost function Check(nodes: seq<Node>, registry: set<SkillReference>, a: Addon): Result<(), AddonError>
  {
    if forall i :: 0 <= i < |nodes| ==> nodes[i].key != a.nodeKey then Err(NodeNotFound)
    else if exists i :: 0 <= i < |nodes| && nodes[i].key == a.nodeKey && !nodes[i].isTask then Err(NotATask)
    else if !(Elements(a.skills) <= registry) then Err(SkillNotFound)
    else Ok(())
  }

  ghost function CheckAll(nodes: seq<Node>, registry: set<SkillReference>, addons: seq<Addon>): Result<(), AddonError>
  {
    if addons == [] then Ok(())
    else if Check(nodes, registry, addons[0]).Err? then Check(nodes, registry, addons[0])
    else CheckAll(nodes, registry, addons[1..])
  }

  /** `_apply_skill_addons` */
  ghost function ApplyAddons(
    nodes: seq<Node>, registry: set<SkillReference>, addons: seq<Addon>): Result<seq<Node>, AddonError>
  {
    match CheckAll(nodes, registry, addons)
    case Err(x) => Err(x)
    case Ok(_) => Ok(Enrich(nodes, Meaning(addons)))
  }

  lemma {:induction false} CheckAllExactly(nodes: seq<Node>, registry: set<SkillReference>, addons: seq<Addon>)
    requires UniqueNodes(nodes)
    ensures CheckAll(nodes, registry, addons).Ok? <==>
              forall i :: 0 <= i < |addons| ==> Applicable(nodes, registry, addons[i])
  {
    if addons != [] {
      assert Check(nodes, registry, addons[0]).Ok? <==> Applicable(nodes, registry, addons[0]);
      CheckAllExactly(nodes, registry, addons[1..]);
      assert addons == [addons[0]] + addons[1..];
      if forall i :: 0 <= i < |addons| ==> Applicable(nodes, registry, addons[i]) {
        assert forall i :: 0 <= i < |addons[1..]| ==> addons[1..][i] == addons[i + 1];
      }
    }
  }

  /** Accepted exactly when every add-on is applicable; the result is exactly the skill union, node by node. */
  lemma ApplyExactly(nodes: seq<Node>, registry: set<SkillReference>, addons: seq<Addon>, result: seq<Node>)
    requires UniqueNodes(nodes)
    ensures ApplyAddons(nodes, registry, addons) == Ok(result) <==>
              && (forall i :: 0 <= i < |addons| ==> Applicable(nodes, registry, addons[i]))
              && AllEnriched(nodes, result, Meaning(addons))
  {
    CheckAllExactly(nodes, registry, addons);
    EnrichMeets(nodes, Meaning(addons));
    if AllEnriched(nodes, result, Meaning(addons)) {
      EnrichedIsUnique(nodes, result, Enrich(nodes, Meaning(addons)), Meaning(addons));
    }
  }

  /** Applying the same add-ons again is accepted and changes nothing. */
  lemma ApplyIdempotent(nodes: seq<Node>, registry: set<SkillReference>, addons: seq<Addon>)
    requires UniqueNodes(nodes) && ApplyAddons(nodes, registry, addons).Ok?
    ensures var once := ApplyAddons(nodes, registry, addons).value;
            UniqueNodes(once) && ApplyAddons(once, registry, addons) == Ok(once)
  {
    var once := ApplyAddons(nodes, registry, addons).value;
    ApplyExactly(nodes, registry, addons, once);
    forall i | 0 <= i < |nodes|
      ensures once[i].key == nodes[i].key && once[i].isTask == nodes[i].isTask
      ensures Enriched(once[i], once[i], Meaning(addons))
    {
      assert Enriched(nodes[i], once[i], Meaning(addons));
    }
    forall a | Applicable(nodes, registry, a)
      ensures Applicable(once, registry, a)
    {
      var i :| 0 <= i < |nodes| && nodes[i].key == a.nodeKey && nodes[i].isTask;
      assert once[i].key == a.nodeKey && once[i].isTask;
    }
    ApplyExactly(once, registry, addons, once);
  }

  method AdditionsByNode(addons: seq<Addon>) returns (additions: map<string, seq<SkillReference>>)
    requires Acceptable(addons) && forall i :: 0 <= i < |addons| ==> Strip(addons[i].nodeKey) == addons[i].nodeKey
    ensures additions.Keys == Meaning(addons).Keys
    ensures forall k :: k in additions ==> Elements(additions[k]) == Meaning(addons)[k]
  {
    hide Strip, Meaning, Distinct, Blank, Elements;
    additions := map[];
    for i := 0 to |addons|
      invariant forall k :: k in additions ==> exists j :: 0 <= j < i && addons[j].nodeKey == k
      invariant forall j :: 0 <= j < i ==>
                  addons[j].nodeKey in additions && additions[addons[j].nodeKey] == addons[j].skills
    {
      OtherNodes(addons, i);
      additions := additions[addons[i].nodeKey := addons[i].skills];
    }
    AdditionsMean(addons, additions);
  }

  lemma OtherNodes(addons: seq<Addon>, i: nat)
    requires Acceptable(addons) && i < |addons| && forall j :: 0 <= j < |addons| ==>
               Strip(addons[j].nodeKey) == addons[j].nodeKey
    ensures forall j :: 0 <= j < i ==> addons[j].nodeKey != addons[i].nodeKey
  {
    hide Strip, Blank, StrippedKeys;
    DistinctIndices(StrippedKeys(addons));
    forall j | 0 <= j < i
      ensures addons[j].nodeKey != addons[i].nodeKey
    {
      assert StrippedKeys(addons)[j] != StrippedKeys(addons)[i];
    }
  }

  lemma AdditionsMean(addons: seq<Addon>, additions: map<string, seq<SkillReference>>)
    requires Acceptable(addons) && forall i :: 0 <= i < |addons| ==> Strip(addons[i].nodeKey) == addons[i].nodeKey
    requires forall k :: k in additions ==> exists j :: 0 <= j < |addons| && addons[j].nodeKey == k
    requires forall j :: 0 <= j < |addons| ==>
               addons[j].nodeKey in additions && additions[addons[j].nodeKey] == addons[j].skills
    ensures additions.Keys == Meaning(addons).Keys
    ensures forall k :: k in additions ==> Elements(additions[k]) == Meaning(addons)[k]
  {
    hide Strip, Meaning, Elements, Says, Distinct, Blank, StrippedKeys;
    var m := AdditionSets(additions);
    AdditionsSay(addons, additions);
    MeaningExactly(addons, m);
  }

  ghost function AdditionSets(additions: map<string, seq<SkillReference>>): map<string, set<SkillReference>>
  {
    map k | k in additions :: Elements(additions[k])
  }

  lemma AdditionsSay(addons: seq<Addon>, additions: map<string, seq<SkillReference>>)
    requires forall i :: 0 <= i < |addons| ==> Strip(addons[i].nodeKey) == addons[i].nodeKey
    requires forall k :: k in additions ==> exists j :: 0 <= j < |addons| && addons[j].nodeKey == k
    requires forall j :: 0 <= j < |addons| ==>
               addons[j].nodeKey in additions && additions[addons[j].nodeKey] == addons[j].skills
    ensures Says(addons, AdditionSets(additions))
  {
    hide Strip, Elements;
    forall k | k in additions
      ensures exists i :: 0 <= i < |addons| && Strip(addons[i].nodeKey) == k
    {
      var j :| 0 <= j < |addons| && addons[j].nodeKey == k;
      assert Strip(addons[j].nodeKey) == k;
    }
  }

  method CheckAddons(nodes: seq<Node>, registry: set<SkillReference>, addons: seq<Addon>)
    returns (r: Result<(), AddonError>)
    requires UniqueNodes(nodes)
    ensures r == CheckAll(nodes, registry, addons)
  {
    hide Check;
    assert addons[0..] == addons;
    for n := 0 to |addons|
      invariant CheckAll(nodes, registry, addons) == CheckAll(nodes, registry, addons[n..])
    {
      assert addons[n..][0] == addons[n] && addons[n..][1..] == addons[n + 1..];
      r := CheckAddon(nodes, registry, addons[n]);
      if r.Err? {
        return;
      }
    }
    return Ok(());
  }

  method CheckAddon(nodes: seq<Node>, registry: set<SkillReference>, a: Addon) returns (r: Result<(), AddonError>)
    requires UniqueNodes(nodes)
    ensures r == Check(nodes, registry, a)
  {
    var found := 0;
    while found < |nodes| && nodes[found].key != a.nodeKey
      invariant 0 <= found <= |nodes|
      invariant forall i :: 0 <= i < found ==> nodes[i].key != a.nodeKey
    {
      found := found + 1;
    }
    if found == |nodes| {
      return Err(NodeNotFound);
    }
    if !nodes[found].isTask {
      return Err(NotATask);
    }
    for j := 0 to |a.skills|
      invariant forall i :: 0 <= i < j ==> a.skills[i] in registry
    {
      if a.skills[j] !in registry {
        assert a.skills[j] in Elements(a.skills);
        return Err(SkillNotFound);
      }
    }
    return Ok(());
  }

  /** Given normalised add-ons. */
  method ApplySkillAddons(nodes: seq<Node>, registry: set<SkillReference>, addons: seq<Addon>)
    returns (r: Result<seq<Node>, AddonError>)
    requires UniqueNodes(nodes)
    requires Acceptable(addons) && forall i :: 0 <= i < |addons| ==> Strip(addons[i].nodeKey) == addons[i].nodeKey
    ensures r == ApplyAddons(nodes, registry, addons)
  {
    hide Acceptable, Applicable, UniqueNodes, Elements, SortSet, Strip, CheckAll, SkillLe;
    CheckAllExactly(nodes, registry, addons);
    if addons == [] {
      assert AllEnriched(nodes, nodes, Meaning(addons));
      ApplyExactly(nodes, registry, addons, nodes);
      return Ok(nodes);
    }
    var additions := AdditionsByNode(addons);
    var check := CheckAddons(nodes, registry, addons);
    if check.Err? {
      return Err(check.error);
    }
    var result: seq<Node> := [];
    for i := 0 to |nodes|
      invariant |result| == i && forall j :: 0 <= j < i ==> Enriched(nodes[j], result[j], Meaning(addons))
    {
      var node := nodes[i];
      if node.key in additions {
        var all := node.skills + additions[node.key];
        SkillOrder();
        SortSetCorrect(all, SkillLe);
        ElementsUnion(node.skills, additions[node.key]);
        node := node.(skills := SortSet(all, SkillLe));
      }
      result := result + [node];
    }
    ApplyExactly(nodes, registry, addons, result);
    return Ok(result);
  }

  /** A normal form is acceptable, and its keys are stripped. */
  lemma NormalizedForApply(addons: seq<Addon>)
    requires Normalize(addons).Ok?
    ensures var n := Normalize(addons).value;
            Acceptable(n) && forall i :: 0 <= i < |n| ==> Strip(n[i].nodeKey) == n[i].nodeKey
  {
    NormalizeKeepsMeaning(addons);
    NormalizeAccepts(addons);
    NormalForm(addons);
    var n := Normalize(addons).value;
    forall i | 0 <= i < |n|
      ensures Strip(n[i].nodeKey) == n[i].nodeKey
    {
      assert n[i] in n && IsEntry(n[i]);
    }
  }
}
