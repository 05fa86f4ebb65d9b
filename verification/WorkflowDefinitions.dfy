/**
 Validation of workflow definitions: the two graph searches, the rules on routes, what the
 rules are good for (routing does not depend on the order edges are listed in), and what
 they do not rule out (a valid definition whose execution gets stuck behind a join).
 */
module WorkflowDefinitions {
  import opened Wrappers
  import opened Ordering
  import opened Workflows

  type Adjacency = map<string, set<string>>

  // ---- graph search -----------------------------------------------------------------

  ghost predicate ClosedUnder(adjacency: Adjacency, c: set<string>)
  {
    forall k :: k in c && k in adjacency ==> adjacency[k] <= c
  }

  /** `target` lies in every set that contains `start` and follows all edges. */
  ghost predicate Reaches(adjacency: Adjacency, start: set<string>, target: string)
  {
    forall c :: start <= c && ClosedUnder(adjacency, c) ==> target in c
  }

  predicate KnownTargets(adjacency: Adjacency)
  {
    forall k :: k in adjacency ==> adjacency[k] <= adjacency.Keys
  }

  /** Everything in `s` is reachable from `start`. */
  ghost predicate Within(adjacency: Adjacency, start: set<string>, s: set<string>)
  {
    forall c :: start <= c && ClosedUnder(adjacency, c) ==> s <= c
  }

  /** The state of a search: `done` has been followed, `pending` has not. */
  ghost predicate Searching(adjacency: Adjacency, start: set<string>, done: set<string>, pending: set<string>)
  {
    && start <= done + pending <= adjacency.Keys
    && (forall k :: k in done && k in adjacency ==> adjacency[k] <= done + pending)
    && Within(adjacency, start, done + pending)
  }

  lemma SearchStart(adjacency: Adjacency, start: set<string>)
    requires start <= adjacency.Keys
    ensures Searching(adjacency, start, {}, start)
  {
    assert {} + start == start;
  }

  lemma SearchSkip(adjacency: Adjacency, start: set<string>, done: set<string>, pending: set<string>, current: string)
    requires Searching(adjacency, start, done, pending) && current in done
    ensures Searching(adjacency, start, done, pending - {current})
  {
    assert done + (pending - {current}) == done + pending;
  }

  lemma SearchFollow(adjacency: Adjacency, start: set<string>, done: set<string>, pending: set<string>, current: string)
    requires Searching(adjacency, start, done, pending) && current in pending && KnownTargets(adjacency)
    ensures Searching(adjacency, start, done + {current},
              pending - {current} + (adjacency[current] - (done + {current})))
    ensures current !in done ==> |adjacency.Keys - (done + {current})| < |adjacency.Keys - done|
  {
    var done', pending' := done + {current}, pending - {current} + (adjacency[current] - (done + {current}));
    assert done' + pending' == done + pending + adjacency[current];
    if current !in done {
      assert adjacency.Keys - done == (adjacency.Keys - done') + {current};
    }
  }

  /** A search that has run out of work has found exactly what is reachable. */
  lemma SearchComplete(adjacency: Adjacency, start: set<string>, done: set<string>)
    requires Searching(adjacency, start, done, {})
    ensures forall k :: k in done <==> Reaches(adjacency, start, k)
  {
    assert done + {} == done;
    assert ClosedUnder(adjacency, done);
  }

  lemma SearchSound(adjacency: Adjacency, start: set<string>, done: set<string>, pending: set<string>, k: string)
    requires Searching(adjacency, start, done, pending) && k in pending
    ensures Reaches(adjacency, start, k)
  {
  }

  /** The search for nodes reachable from the entry; the work list is taken in any order. */
  method ReachableFrom(adjacency: Adjacency, entry: string) returns (reachable: set<string>)
    requires entry in adjacency && KnownTargets(adjacency)
    ensures forall k :: k in reachable <==> Reaches(adjacency, {entry}, k)
  {
    hide Within, Reaches;
    reachable := {};
    var pending := {entry};
    SearchStart(adjacency, {entry});
    while pending != {}
      invariant Searching(adjacency, {entry}, reachable, pending)
      decreases |adjacency.Keys - reachable|, |pending|
    {
      var current :| current in pending;
      if current in reachable {
        SearchSkip(adjacency, {entry}, reachable, pending, current);
        pending := pending - {current};
      } else {
        SearchFollow(adjacency, {entry}, reachable, pending, current);
        reachable := reachable + {current};
        pending := pending - {current} + (adjacency[current] - reachable);
      }
    }
    SearchComplete(adjacency, {entry}, reachable);
  }

  /** `_can_reach`, with `start` either the source itself or its direct successors. */
  method CanReach(adjacency: Adjacency, start: set<string>, target: string) returns (found: bool)
    requires start <= adjacency.Keys && KnownTargets(adjacency)
    ensures found <==> Reaches(adjacency, start, target)
  {
    hide Within, Reaches;
    var pending := start;
    var visited: set<string> := {};
    SearchStart(adjacency, start);
    while pending != {}
      invariant Searching(adjacency, start, visited, pending) && target !in visited
      decreases |adjacency.Keys - visited|, |pending|
    {
      var current :| current in pending;
      if current == target {
        SearchSound(adjacency, start, visited, pending, target);
        return true;
      }
      if current in visited {
        SearchSkip(adjacency, start, visited, pending, current);
        pending := pending - {current};
      } else {
        SearchFollow(adjacency, start, visited, pending, current);
        visited := visited + {current};
        pending := pending - {current} + (adjacency[current] - visited);
      }
    }
    SearchComplete(adjacency, start, visited);
    return false;
  }

  // ---- the rules --------------------------------------------------------------------

  function AdjacencyOf(s: Snapshot): Adjacency
  {
    map k | k in s.nodes :: AdjacencyFrom(s.edges, k)
  }

  /** The edges of one (source, outcome) pair leave the engine exactly one choice. */
  ghost predicate Unambiguous(edges: seq<Edge>)
  {
    || (forall x :: x in edges ==> x.condition.None?)
    || (&& (forall x, y :: x in edges && y in edges && x.condition.None? && y.condition.None? ==> x == y)
        && (forall x, y :: x in edges && y in edges && x.condition.Some? && y.condition.Some? ==>
              x.condition.value.path == y.condition.value.path
              && (x.condition.value.equals == y.condition.value.equals ==> x == y)))
  }

  ghost predicate ValidEdges(s: Snapshot)
    requires WellFormed(s)
  {
    && Distinct(s.edges)
    && forall i :: 0 <= i < |s.edges| ==>
         && AllowedOutcome(s.nodes[s.edges[i].source].kind, s.edges[i].outcome)
         && (s.edges[i].condition.Some? ==> s.nodes[s.edges[i].source].kind.Task?)
  }

  ghost predicate ValidRoutes(s: Snapshot)
    requires WellFormed(s)
  {
    forall k, o :: k in s.nodes ==>
      && Unambiguous(RouteEdges(s.edges, k, o))
      && (!s.nodes[k].kind.Fork? && !HasConditional(RouteEdges(s.edges, k, o)) ==> |RouteEdges(s.edges, k, o)| <= 1)
  }

  ghost predicate ValidPlace(s: Snapshot, k: string)
    requires WellFormed(s) && k in s.nodes
  {
    var kind := s.nodes[k].kind;
    && (kind.Terminal? <==> AdjacencyFrom(s.edges, k) == {})
    && (kind.Fork? ==> |AdjacencyFrom(s.edges, k)| >= 2)
    && (kind.Join? ==> |IncomingSources(s.edges, k)| >= 2)
    && Reaches(AdjacencyOf(s), {s.entry}, k)
    && (kind.Fork? || kind.Join? ==> !Reaches(AdjacencyOf(s), AdjacencyFrom(s.edges, k), k))
  }

  ghost predicate ValidDefinition(s: Snapshot)
  {
    WellFormed(s) && ValidEdges(s) && ValidRoutes(s) && forall k :: k in s.nodes ==> ValidPlace(s, k)
  }

  // ---- routing is deterministic -----------------------------------------------------

  lemma RemoveAt<T>(s: seq<T>, i: nat)
    requires i < |s|
    ensures multiset(s[..i] + s[i + 1..]) == multiset(s) - multiset{s[i]}
  {
    assert s == s[..i] + [s[i]] + s[i + 1..];
  }

  /** `b` without its `i`-th edge. */
  function Without(b: seq<Edge>, i: nat): seq<Edge>
    requires i < |b|
  {
    b[..i] + b[i + 1..]
  }

  lemma WithoutFacts(b: seq<Edge>, i: nat)
    requires i < |b|
    ensures |Without(b, i)| == |b| - 1
    ensures multiset(Without(b, i)) == multiset(b) - multiset{b[i]}
    ensures multiset(Targets(b)) == multiset{b[i].target} + multiset(Targets(Without(b, i)))
  {
    RemoveAt(b, i);
    assert Targets(b[..i] + b[i + 1..]) == Targets(b[..i]) + Targets(b[i + 1..]);
    assert Targets(b) == Targets(b[..i]) + [b[i].target] + Targets(b[i + 1..]);
  }

  lemma {:induction false} TargetsOfPermutation(a: seq<Edge>, b: seq<Edge>)
    requires multiset(a) == multiset(b)
    ensures multiset(Targets(a)) == multiset(Targets(b))
    decreases |a|
  {
    hide Targets, Without;
    assert |a| == |multiset(a)| == |b|;
    if a == [] {
      assert b == [];
    } else {
      assert a[0] in multiset(b);
      var i :| 0 <= i < |b| && b[i] == a[0];
      WithoutFacts(a, 0);
      WithoutFacts(b, i);
      TargetsOfPermutation(Without(a, 0), Without(b, i));
    }
  }

  /** The targets chosen do not depend on the order in which the edges are listed. */
  lemma RoutingIsOrderBlind(a: seq<Edge>, b: seq<Edge>, output: Artifact)
    requires multiset(a) == multiset(b) && Unambiguous(a)
    ensures SelectTargets(a, output) == SelectTargets(b, output)
  {
    assert forall x :: x in a <==> x in multiset(a);
    assert forall x :: x in b <==> x in multiset(b);
    assert HasConditional(a) <==> exists x :: x in a && x.condition.Some?;
    assert HasConditional(b) <==> exists x :: x in b && x.condition.Some?;
    if HasConditional(a) {
      FirstMatchSound(a, output);
      FirstMatchSound(b, output);
      FirstDefaultSound(a);
      FirstDefaultSound(b);
    } else {
      StringOrder();
      TargetsOfPermutation(a, b);
      SortCorrect(Targets(a), StringLe);
      SortCorrect(Targets(b), StringLe);
      SortedIsUnique(Sort(Targets(a), StringLe), Sort(Targets(b), StringLe), StringLe);
    }
  }

  /** An edge is taken for an output: its condition holds, or it has none and no other condition of the list holds. */
  ghost predicate Taken(edges: seq<Edge>, x: Edge, output: Artifact)
  {
    match x.condition
    case Some(c) => c.path in output && output[c.path] == c.equals
    case None => forall y :: y in edges && y.condition.Some? ==>
        y.condition.value.path !in output || output[y.condition.value.path] != y.condition.value.equals
  }

  /** The targets chosen are those of the edges that are taken; several, in order, only without conditions. */
  lemma SelectedExactly(edges: seq<Edge>, output: Artifact)
    requires Unambiguous(edges)
    ensures forall t :: t in SelectTargets(edges, output) <==>
                        exists x :: x in edges && Taken(edges, x, output) && x.target == t
    ensures Sorted(SelectTargets(edges, output), StringLe)
    ensures (exists x :: x in edges && x.condition.Some?) ==> |SelectTargets(edges, output)| <= 1
    ensures (forall x :: x in edges ==> x.condition.None?) ==>
              multiset(SelectTargets(edges, output)) == multiset(Targets(edges))
  {
    assert HasConditional(edges) <==> exists x :: x in edges && x.condition.Some?;
    if HasConditional(edges) {
      FirstMatchSound(edges, output);
      FirstDefaultSound(edges);
      SelectedConditional(edges, output);
    } else {
      StringOrder();
      SortCorrect(Targets(edges), StringLe);
      SelectedPlain(edges, output);
    }
  }

  lemma SelectedConditional(edges: seq<Edge>, output: Artifact)
    requires Unambiguous(edges) && HasConditional(edges)
    ensures forall t :: t in SelectTargets(edges, output) <==>
                        exists x :: x in edges && Taken(edges, x, output) && x.target == t
    ensures Sorted(SelectTargets(edges, output), StringLe)
  {
    FirstMatchSound(edges, output);
    FirstDefaultSound(edges);
    assert forall x :: x in edges && x.condition.Some? ==> (Taken(edges, x, output) <==> Matches(x, output));
    var targets := SelectTargets(edges, output);
    assert targets != [] ==> targets[1..] == [];
    if m :| m in edges && Matches(m, output) {
      assert forall x :: x in edges && Taken(edges, x, output) ==> x == m;
    } else {
      forall x | x in edges
        ensures Taken(edges, x, output) <==> x.condition.None?
      {
      }
    }
  }

  lemma SelectedPlain(edges: seq<Edge>, output: Artifact)
    requires !HasConditional(edges)
    ensures forall t :: t in SelectTargets(edges, output) <==>
                        exists x :: x in edges && Taken(edges, x, output) && x.target == t
  {
    StringOrder();
    forall t
      ensures t in SelectTargets(edges, output) <==>
                exists x :: x in edges && Taken(edges, x, output) && x.target == t
    {
      SortMembers(Targets(edges), StringLe, t);
      if x :| x in edges && Taken(edges, x, output) && x.target == t {
        var i :| 0 <= i < |edges| && edges[i] == x;
        assert Targets(edges)[i] == t;
      }
      if t in Targets(edges) {
        var i :| 0 <= i < |edges| && Targets(edges)[i] == t;
        assert edges[i] in edges && Taken(edges, edges[i], output);
      }
    }
  }

  /** Where a valid definition leads from a node: along exactly the edges of the outcome that are taken. */
  lemma RoutingExactly(s: Snapshot, k: string, o: Outcome, output: Artifact, t: string)
    requires ValidDefinition(s) && k in s.nodes
    ensures var edges := RouteEdges(s.edges, k, o);
            && (forall x :: x in edges <==> x in s.edges && x.source == k && x.outcome == o)
            && (t in SelectTargets(edges, output) <==>
                  exists x :: x in edges && Taken(edges, x, output) && x.target == t)
  {
    hide ValidPlace, ValidEdges, Unambiguous, Taken;
    RouteEdgesSound(s.edges, k, o);
    SelectedExactly(RouteEdges(s.edges, k, o), output);
  }

  // ---- definitions in layers --------------------------------------------------------

  /**
   A way to see that a definition is valid: its edges have no conditions, differ, and lead from lower to higher
   layers; every node but the entry has one coming in, every node but the terminals one going out; only forks have two
   for one outcome; and forks lead to, and joins wait for, at least two nodes.
   */
  ghost predicate Layered(s: Snapshot, layer: map<string, nat>)
  {
    && WellFormed(s) && s.nodes.Keys <= layer.Keys && EdgesRise(s, layer) && EdgesDiffer(s)
    && (forall k :: k in s.nodes ==> Connected(s, k))
  }

  ghost predicate EdgesRise(s: Snapshot, layer: map<string, nat>)
    requires WellFormed(s) && s.nodes.Keys <= layer.Keys
  {
    forall i :: 0 <= i < |s.edges| ==>
      && s.edges[i].condition.None?
      && AllowedOutcome(s.nodes[s.edges[i].source].kind, s.edges[i].outcome)
      && layer[s.edges[i].source] < layer[s.edges[i].target]
  }

  ghost predicate EdgesDiffer(s: Snapshot)
    requires WellFormed(s)
  {
    forall i, j :: 0 <= i < j < |s.edges| ==>
      && s.edges[i] != s.edges[j]
      && (s.edges[i].source == s.edges[j].source && s.edges[i].outcome == s.edges[j].outcome ==>
            s.nodes[s.edges[i].source].kind.Fork?)
  }

  ghost predicate Connected(s: Snapshot, k: string)
    requires k in s.nodes
  {
    && (k != s.entry ==> HasEdgeInto(s, k))
    && (!s.nodes[k].kind.Terminal? ==> HasEdgeFrom(s, k))
    && (s.nodes[k].kind.Fork? ==> LeadsToTwo(s, k))
    && (s.nodes[k].kind.Join? ==> WaitsForTwo(s, k))
  }

  ghost predicate HasEdgeInto(s: Snapshot, k: string)
  {
    exists i :: 0 <= i < |s.edges| && s.edges[i].target == k
  }

  ghost predicate HasEdgeFrom(s: Snapshot, k: string)
  {
    exists i :: 0 <= i < |s.edges| && s.edges[i].source == k
  }

  ghost predicate LeadsToTwo(s: Snapshot, k: string)
  {
    exists a, b :: a in AdjacencyFrom(s.edges, k) && b in AdjacencyFrom(s.edges, k) && a != b
  }

  ghost predicate WaitsForTwo(s: Snapshot, k: string)
  {
    exists a, b :: a in IncomingSources(s.edges, k) && b in IncomingSources(s.edges, k) && a != b
  }

  lemma TwoMembers<T>(c: set<T>, a: T, b: T)
    requires a in c && b in c && a != b
    ensures |c| >= 2
  {
    var rest := c - {a};
    assert b in rest && |c| == |rest| + 1;
  }

  lemma {:induction false} PairwiseDistinct<T>(s: seq<T>)
    requires forall i, j :: 0 <= i < j < |s| ==> s[i] != s[j]
    ensures Distinct(s)
  {
    if s != [] {
      PairwiseDistinct(s[1..]);
    }
  }

  lemma {:induction false} OneRoute(edges: seq<Edge>, k: string, o: Outcome)
    requires forall i, j :: 0 <= i < j < |edges| ==>
               !(edges[i].source == edges[j].source == k && edges[i].outcome == edges[j].outcome == o)
    ensures |RouteEdges(edges, k, o)| <= 1
  {
    if edges != [] {
      OneRoute(edges[1..], k, o);
      if edges[0].source == k && edges[0].outcome == o {
        NoRoute(edges[1..], k, o);
      }
    }
  }

  lemma {:induction false} NoRoute(edges: seq<Edge>, k: string, o: Outcome)
    requires forall i :: 0 <= i < |edges| ==> !(edges[i].source == k && edges[i].outcome == o)
    ensures RouteEdges(edges, k, o) == []
  {
    if edges != [] {
      NoRoute(edges[1..], k, o);
    }
  }

  lemma LayeredRoutes(s: Snapshot, layer: map<string, nat>)
    requires Layered(s, layer)
    ensures ValidRoutes(s)
  {
    forall k, o | k in s.nodes
      ensures Unambiguous(RouteEdges(s.edges, k, o))
      ensures !s.nodes[k].kind.Fork? ==> |RouteEdges(s.edges, k, o)| <= 1
    {
      RouteEdgesSound(s.edges, k, o);
      if !s.nodes[k].kind.Fork? {
        OneRoute(s.edges, k, o);
      }
    }
  }

  lemma EntryReached(s: Snapshot)
    ensures Reaches(AdjacencyOf(s), {s.entry}, s.entry)
  {
  }

  lemma ReachesStep(s: Snapshot, k: string, t: string)
    requires k in s.nodes && t in AdjacencyFrom(s.edges, k) && Reaches(AdjacencyOf(s), {s.entry}, k)
    ensures Reaches(AdjacencyOf(s), {s.entry}, t)
  {
    forall c | {s.entry} <= c && ClosedUnder(AdjacencyOf(s), c)
      ensures t in c
    {
      assert AdjacencyOf(s)[k] <= c;
    }
  }

  lemma {:induction false} LayeredReaches(s: Snapshot, layer: map<string, nat>, k: string)
    requires Layered(s, layer) && k in s.nodes
    ensures Reaches(AdjacencyOf(s), {s.entry}, k)
    decreases layer[k]
  {
    hide Reaches, AdjacencyOf;
    if k == s.entry {
      EntryReached(s);
    } else {
      assert Connected(s, k);
      var i :| 0 <= i < |s.edges| && s.edges[i].target == k;
      LayeredReaches(s, layer, s.edges[i].source);
      ReachesStep(s, s.edges[i].source, k);
    }
  }

  lemma LayeredNoCycle(s: Snapshot, layer: map<string, nat>, k: string)
    requires Layered(s, layer) && k in s.nodes
    ensures !Reaches(AdjacencyOf(s), AdjacencyFrom(s.edges, k), k)
  {
    var c := set t | t in s.nodes && layer[t] > layer[k];
    forall t | t in AdjacencyFrom(s.edges, k)
      ensures t in c
    {
      var i :| 0 <= i < |s.edges| && s.edges[i].source == k && s.edges[i].target == t;
    }
    forall l | l in c && l in AdjacencyOf(s)
      ensures AdjacencyOf(s)[l] <= c
    {
      forall t | t in AdjacencyFrom(s.edges, l)
        ensures t in c
      {
        var i :| 0 <= i < |s.edges| && s.edges[i].source == l && s.edges[i].target == t;
      }
    }
    assert ClosedUnder(AdjacencyOf(s), c);
  }

  lemma LayeredPlace(s: Snapshot, layer: map<string, nat>, k: string)
    requires Layered(s, layer) && k in s.nodes
    ensures ValidPlace(s, k)
  {
    hide Reaches, AdjacencyOf;
    assert Connected(s, k);
    LayeredReaches(s, layer, k);
    LayeredNoCycle(s, layer, k);
    var adjacent, sources := AdjacencyFrom(s.edges, k), IncomingSources(s.edges, k);
    if s.nodes[k].kind.Terminal? {
      assert adjacent == {};
    } else {
      assert HasEdgeFrom(s, k);
      var i :| 0 <= i < |s.edges| && s.edges[i].source == k;
      assert s.edges[i].target in adjacent;
    }
    if s.nodes[k].kind.Fork? {
      assert LeadsToTwo(s, k);
      var a, b :| a in adjacent && b in adjacent && a != b;
      TwoMembers(adjacent, a, b);
    }
    if s.nodes[k].kind.Join? {
      assert WaitsForTwo(s, k);
      var a, b :| a in sources && b in sources && a != b;
      TwoMembers(sources, a, b);
    }
  }

  lemma LayeredEdges(s: Snapshot, layer: map<string, nat>)
    requires Layered(s, layer)
    ensures WellFormed(s) && ValidEdges(s)
  {
    hide Distinct, Connected;
    PairwiseDistinct(s.edges);
  }

  lemma LayeredIsValid(s: Snapshot, layer: map<string, nat>)
    requires Layered(s, layer)
    ensures ValidDefinition(s)
  {
    hide Layered, WellFormed, ValidEdges, ValidRoutes, ValidPlace;
    LayeredEdges(s, layer);
    LayeredRoutes(s, layer);
    forall k | k in s.nodes
      ensures ValidPlace(s, k)
    {
      LayeredPlace(s, layer, k);
    }
  }

  // ---- a valid definition can get stuck ---------------------------------------------

  /** Task `p` goes straight to the join `j` on success, and through the repair task `r` on failure. */
  function Detour(p: string, r: string, j: string, d: string): Snapshot
  {
    var task := NodeDefinition(Task, 1, 1, None);
    Snapshot(p,
             map[p := task, r := task, j := NodeDefinition(Join, 1, 1, None),
                 d := NodeDefinition(Terminal, 1, 1, Some(WorkflowSucceeded))],
             [Edge(p, Success, j, None), Edge(p, Failure, r, None),
              Edge(r, Success, j, None), Edge(j, Success, d, None)])
  }

  ghost predicate FourKeys(p: string, r: string, j: string, d: string)
  {
    p != r && p != j && p != d && r != j && r != d && j != d
  }

  /** The routes of the definition, one by one. */
  lemma DetourRoutes(p: string, r: string, j: string, d: string, k: string, o: Outcome)
    requires FourKeys(p, r, j, d)
    ensures var edges := Detour(p, r, j, d).edges;
            RouteEdges(edges, k, o) ==
              if k == p && o == Success then [edges[0]]
              else if k == p && o == Failure then [edges[1]]
              else if k == r && o == Success then [edges[2]]
              else if k == j && o == Success then [edges[3]]
              else []
  {
    var edges := Detour(p, r, j, d).edges;
    var e1, e2, e3 := edges[1], edges[2], edges[3];
    assert edges[1..] == [e1, e2, e3] && [e1, e2, e3][1..] == [e2, e3] && [e2, e3][1..] == [e3] && [e3][1..] == [];
    assert RouteEdges([e3], k, o) == if k == j && o == Success then [e3] else [];
    assert RouteEdges([e2, e3], k, o) == (if k == r && o == Success then [e2] else []) + RouteEdges([e3], k, o);
    assert RouteEdges([e1, e2, e3], k, o) == (if k == p && o == Failure then [e1] else []) + RouteEdges([e2, e3], k, o);
  }

  lemma DetourNeighbours(p: string, r: string, j: string, d: string)
    requires FourKeys(p, r, j, d)
    ensures var edges := Detour(p, r, j, d).edges;
            && AdjacencyFrom(edges, p) == {j, r} && AdjacencyFrom(edges, r) == {j}
            && AdjacencyFrom(edges, j) == {d} && AdjacencyFrom(edges, d) == {}
            && IncomingSources(edges, j) == {p, r}
  {
    var edges := Detour(p, r, j, d).edges;
    assert edges[0].target in AdjacencyFrom(edges, p) && edges[1].target in AdjacencyFrom(edges, p);
    assert edges[2].target in AdjacencyFrom(edges, r) && edges[3].target in AdjacencyFrom(edges, j);
    assert edges[0].source in IncomingSources(edges, j) && edges[2].source in IncomingSources(edges, j);
  }

  lemma DetourShape(p: string, r: string, j: string, d: string)
    requires FourKeys(p, r, j, d)
    ensures var s := Detour(p, r, j, d);
            && WellFormed(s) && s.entry == p && s.nodes.Keys == {p, r, j, d}
            && s.nodes[p].kind.Task? && s.nodes[r].kind.Task? && s.nodes[j].kind.Join? && s.nodes[d].kind.Terminal?
  {
  }

  lemma DetourEdgesRise(p: string, r: string, j: string, d: string, layer: map<string, nat>)
    requires FourKeys(p, r, j, d) && layer == map[p := 0, r := 1, j := 2, d := 3] && WellFormed(Detour(p, r, j, d))
    requires Detour(p, r, j, d).nodes.Keys <= layer.Keys
    ensures EdgesRise(Detour(p, r, j, d), layer)
  {
    hide WellFormed;
  }

  lemma DetourEdgesDiffer(p: string, r: string, j: string, d: string)
    requires FourKeys(p, r, j, d) && WellFormed(Detour(p, r, j, d))
    ensures EdgesDiffer(Detour(p, r, j, d))
  {
    hide WellFormed;
  }

  lemma DetourConnected(p: string, r: string, j: string, d: string, k: string)
    requires FourKeys(p, r, j, d) && k in {p, r, j, d}
    ensures k in Detour(p, r, j, d).nodes && Connected(Detour(p, r, j, d), k)
  {
    hide AdjacencyFrom, IncomingSources;
    var s := Detour(p, r, j, d);
    DetourNeighbours(p, r, j, d);
    assert s.edges[0].source == p && s.edges[1].target == r && s.edges[2].source == r && s.edges[3].source == j;
    assert s.edges[0].target == j && s.edges[3].target == d;
    assert WaitsForTwo(s, j);
  }

  lemma DetourIsValid(p: string, r: string, j: string, d: string)
    requires FourKeys(p, r, j, d)
    ensures ValidDefinition(Detour(p, r, j, d))
  {
    hide Detour, ValidDefinition, WellFormed, EdgesRise, EdgesDiffer, Connected;
    var layer := map[p := 0, r := 1, j := 2, d := 3];
    DetourShape(p, r, j, d);
    DetourEdgesRise(p, r, j, d, layer);
    DetourEdgesDiffer(p, r, j, d);
    forall k | k in Detour(p, r, j, d).nodes
      ensures Connected(Detour(p, r, j, d), k)
    {
      DetourConnected(p, r, j, d, k);
    }
    LayeredIsValid(Detour(p, r, j, d), layer);
  }
}
