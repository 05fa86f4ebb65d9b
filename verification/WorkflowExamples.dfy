/**
 Two valid definitions and what becomes of them: `Panel`, where an open approval is forgotten and a join is entered
 although one of its sources was routed elsewhere, and `Twice`, which fails when it is started.
 */
module WorkflowExamples {
  import opened Wrappers
  import opened Ordering
  import opened Workflows
  import opened WorkflowSafety
  import opened WorkflowDefinitions
  import opened WorkflowStarvation
  import opened WorkflowPreview
  import opened WorkflowApprovals
  import opened WorkflowTraps

  // ---- routes of a list of edges ----------------------------------------------------

  function RouteOf(e: Edge, k: string, o: Outcome): seq<Edge>
  {
    if e.source == k && e.outcome == o then [e] else []
  }

  lemma FirstRoute(e: Edge, rest: seq<Edge>, k: string, o: Outcome)
    ensures RouteEdges([e] + rest, k, o) == RouteOf(e, k, o) + RouteEdges(rest, k, o)
  {
    assert ([e] + rest)[1..] == rest;
  }

  lemma SevenRoutes(edges: seq<Edge>, k: string, o: Outcome)
    requires |edges| == 7
    ensures RouteEdges(edges, k, o) ==
            RouteOf(edges[0], k, o) + (RouteOf(edges[1], k, o) + (RouteOf(edges[2], k, o) + (RouteOf(edges[3], k, o) +
            (RouteOf(edges[4], k, o) + (RouteOf(edges[5], k, o) + RouteOf(edges[6], k, o))))))
  {
    hide RouteOf;
    forall i | 0 <= i < 7
      ensures RouteEdges(edges[i..], k, o) == RouteOf(edges[i], k, o) + RouteEdges(edges[i + 1..], k, o)
    {
      FirstRoute(edges[i], edges[i + 1..], k, o);
      assert edges[i..] == [edges[i]] + edges[i + 1..];
    }
    assert edges[0..] == edges && RouteEdges(edges[7..], k, o) == [];
  }

  /** Two edges without conditions lead to both targets. */
  lemma SelectPair(x: Edge, y: Edge)
    requires x.condition.None? && y.condition.None?
    ensures SelectTargets([x, y], map[]) ==
            if StringLe(x.target, y.target) then [x.target, y.target] else [y.target, x.target]
  {
    assert !HasConditional([x, y]);
    assert Targets([x, y]) == [x.target, y.target];
    assert [x.target, y.target][1..] == [y.target] && [y.target][1..] == [];
    assert Sort([y.target], StringLe) == Insert(y.target, [], StringLe);
    assert Sort([x.target, y.target], StringLe) == Insert(x.target, [y.target], StringLe);
  }

  predicate SixKeys(a: string, b: string, c: string, d: string, e: string, f: string)
  {
    a != b && a != c && a != d && a != e && a != f && b != c && b != d && b != e && b != f && c != d && c != e && c != f
    && d != e && d != f && e != f
  }

  // ---- two approvals ----------------------------------------------------------------

  /** Both approvals are asked for at once; `j` waits for both, and rejecting `a` leads to `t`. */
  function Panel(f: string, a: string, b: string, t: string, j: string, d: string): Snapshot
  {
    var approval := NodeDefinition(Approval, 1, 1, None);
    Snapshot(f,
             map[f := NodeDefinition(Fork, 1, 1, None), a := approval, b := approval,
                 t := NodeDefinition(Task, 1, 1, None), j := NodeDefinition(Join, 1, 1, None),
                 d := NodeDefinition(Terminal, 1, 1, Some(WorkflowSucceeded))],
             [Edge(f, Success, a, None), Edge(f, Success, b, None),
              Edge(a, Approved, j, None), Edge(a, Rejected, t, None), Edge(b, Approved, j, None),
              Edge(t, Success, d, None), Edge(j, Success, d, None)])
  }

  lemma PanelShape(f: string, a: string, b: string, t: string, j: string, d: string)
    requires SixKeys(f, a, b, t, j, d)
    ensures var s := Panel(f, a, b, t, j, d);
            && WellFormed(s) && s.entry == f && s.nodes.Keys == {f, a, b, t, j, d}
            && s.nodes[f].kind.Fork? && s.nodes[a].kind.Approval? && s.nodes[b].kind.Approval?
            && s.nodes[t].kind.Task? && s.nodes[j].kind.Join? && s.nodes[d].kind.Terminal?
            && TerminalStatusOf(s.nodes[d]) == WorkflowSucceeded
            && forall k :: k in s.nodes ==> s.nodes[k].maxVisits == 1
  {
  }

  lemma PanelEdgesRise(f: string, a: string, b: string, t: string, j: string, d: string, layer: map<string, nat>)
    requires SixKeys(f, a, b, t, j, d) && layer == map[f := 0, a := 1, b := 1, t := 2, j := 2, d := 3]
    requires WellFormed(Panel(f, a, b, t, j, d)) && Panel(f, a, b, t, j, d).nodes.Keys <= layer.Keys
    ensures EdgesRise(Panel(f, a, b, t, j, d), layer)
  {
    hide WellFormed;
  }

  lemma PanelEdgesDiffer(f: string, a: string, b: string, t: string, j: string, d: string)
    requires SixKeys(f, a, b, t, j, d) && WellFormed(Panel(f, a, b, t, j, d))
    ensures EdgesDiffer(Panel(f, a, b, t, j, d))
  {
    hide WellFormed;
  }

  lemma PanelSources(f: string, a: string, b: string, t: string, j: string, d: string)
    requires SixKeys(f, a, b, t, j, d)
    ensures IncomingSources(Panel(f, a, b, t, j, d).edges, j) == {a, b}
    ensures a in AdjacencyFrom(Panel(f, a, b, t, j, d).edges, f) && b in AdjacencyFrom(Panel(f, a, b, t, j, d).edges, f)
  {
    var edges := Panel(f, a, b, t, j, d).edges;
    assert edges[0].source == f && edges[0].target == a && edges[1].source == f && edges[1].target == b;
    assert edges[2].source == a && edges[2].target == j && edges[4].source == b && edges[4].target == j;
  }

  lemma PanelConnected(f: string, a: string, b: string, t: string, j: string, d: string, k: string)
    requires SixKeys(f, a, b, t, j, d) && k in {f, a, b, t, j, d}
    ensures k in Panel(f, a, b, t, j, d).nodes && Connected(Panel(f, a, b, t, j, d), k)
  {
    hide AdjacencyFrom, IncomingSources;
    var s := Panel(f, a, b, t, j, d);
    PanelSources(f, a, b, t, j, d);
    assert s.edges[0].target == a && s.edges[1].target == b && s.edges[2].target == j && s.edges[3].target == t;
    assert s.edges[5].target == d;
    assert s.edges[0].source == f && s.edges[2].source == a && s.edges[4].source == b && s.edges[5].source == t;
    assert s.edges[6].source == j;
    assert LeadsToTwo(s, f) && WaitsForTwo(s, j);
  }

  lemma PanelIsValid(f: string, a: string, b: string, t: string, j: string, d: string)
    requires SixKeys(f, a, b, t, j, d)
    ensures ValidDefinition(Panel(f, a, b, t, j, d))
  {
    hide Panel, ValidDefinition, WellFormed, EdgesRise, EdgesDiffer, Connected;
    var layer := map[f := 0, a := 1, b := 1, t := 2, j := 2, d := 3];
    PanelShape(f, a, b, t, j, d);
    PanelEdgesRise(f, a, b, t, j, d, layer);
    PanelEdgesDiffer(f, a, b, t, j, d);
    forall k | k in Panel(f, a, b, t, j, d).nodes
      ensures Connected(Panel(f, a, b, t, j, d), k)
    {
      PanelConnected(f, a, b, t, j, d, k);
    }
    LayeredIsValid(Panel(f, a, b, t, j, d), layer);
  }

  lemma PanelChosen(f: string, a: string, b: string, t: string, j: string, d: string)
    requires SixKeys(f, a, b, t, j, d)
    ensures var s := Panel(f, a, b, t, j, d);
            && Chosen(s, f, Choice(Success, map[])) in {[a, b], [b, a]}
            && Chosen(s, a, Choice(Rejected, map[])) == [t]
            && Chosen(s, b, Choice(Approved, map[])) == [j]
            && Chosen(s, j, Choice(Success, map[])) == [d]
  {
    hide RouteEdges, SelectTargets;
    var s := Panel(f, a, b, t, j, d);
    SevenRoutes(s.edges, f, Success);
    SelectPair(s.edges[0], s.edges[1]);
    assert RouteEdges(s.edges, f, Success) == [s.edges[0], s.edges[1]];
    SevenRoutes(s.edges, a, Rejected);
    assert RouteEdges(s.edges, a, Rejected) == [s.edges[3]];
    SelectSingle(s.edges[3]);
    SevenRoutes(s.edges, b, Approved);
    assert RouteEdges(s.edges, b, Approved) == [s.edges[4]];
    SelectSingle(s.edges[4]);
    SevenRoutes(s.edges, j, Success);
    assert RouteEdges(s.edges, j, Success) == [s.edges[6]];
    SelectSingle(s.edges[6]);
  }

  /** The preview of a definition that leads to two approvals from a fork, whichever comes first. */
  lemma PreviewPair(s: Snapshot, v: Preview, a: string, b: string, targets: seq<string>)
    requires Fits(s, v) && a in s.nodes && b in s.nodes && a != b && targets in {[a, b], [b, a]}
    requires s.nodes[a].kind.Approval? && s.nodes[b].kind.Approval? && v.visits[a] == 0 && v.visits[b] == 0
    ensures PreviewAll(s, v, targets) == Goes(v.visits[a := 1][b := 1], v.done - {a} - {b}, true)
  {
    hide PreviewRoute;
    assert ValidNode(s.nodes[a]) && ValidNode(s.nodes[b]);
    assert [a, b][1..] == [b] && [b][1..] == [] && [b, a][1..] == [a] && [a][1..] == [];
    var first, second := targets[0], targets[1];
    var v1 := PreviewNode(s, v, first);
    assert v1 == Goes(v.visits[first := 1], v.done - {first}, true);
    var v2 := PreviewNode(s, v1, second);
    assert v2 == Goes(v.visits[first := 1][second := 1], v.done - {first} - {second}, true);
    assert targets[1..] == [second] && [second][1..] == [];
    assert PreviewAll(s, v2, []) == v2 && PreviewAll(s, v1, [second]) == v2;
    assert v2 == Goes(v.visits[a := 1][b := 1], v.done - {a} - {b}, true);
  }

  /** The preview of leading to one target only. */
  lemma PreviewSingle(s: Snapshot, v: Preview, source: string, c: Choice, t: string)
    requires Fits(s, v) && t in s.nodes && Chosen(s, source, c) == [t]
    ensures PreviewRoute(s, v, source, c) == PreviewNode(s, v, t)
  {
    hide PreviewNode, Chosen;
    assert [t][1..] == [];
    var v1 := PreviewNode(s, v, t);
    assert v1.Goes? ==> PreviewAll(s, v1, []) == v1;
    assert PreviewAll(s, v, [t]) == v1;
  }

  /** An entered approval that is not completed is open. */
  lemma OpenApproval(e: Execution, k: string)
    requires Settled(e) && !IsTerminal(e) && !e.status.WorkflowPending? && k in e.nodes && Shaped(e)
    requires e.snapshot.nodes[k].kind.Approval? && e.nodes[k].visits > 0 && !Done(e, k)
    ensures Awaiting(e, k)
  {
    assert NodeOk(e.snapshot.nodes[k], e.nodes[k]);
  }

  /** What is known of an execution that goes on. */
  ghost predicate Stands(e: Execution, s: Snapshot, visits: map<string, nat>, done: set<string>)
  {
    Settled(e) && Shaped(e) && e.snapshot == s && !IsTerminal(e) && !e.status.WorkflowPending?
    && VisitsOf(e) == visits && DoneIn(e) == done
  }

  lemma PreviewFork(s: Snapshot, v: Preview, f: string)
    requires WellFormed(s) && f in s.nodes && s.nodes[f].kind.Fork? && Fits(s, v)
    requires v == Goes(Fresh(s).visits[f := 1], {f}, false) && Chosen(s, f, Choice(Success, map[])) != []
    ensures forall t :: t in Chosen(s, f, Choice(Success, map[])) ==> t in s.nodes
    ensures PreviewNode(s, Fresh(s), f) == PreviewAll(s, v, Chosen(s, f, Choice(Success, map[])))
  {
    hide PreviewAll, Chosen;
    ChosenKnown(s, f, Choice(Success, map[]));
    assert ValidNode(s.nodes[f]);
    assert Fresh(s).done + {f} == {f};
  }

  lemma StartOf(s: Snapshot) returns (e: Execution)
    requires WellFormed(s)
    ensures Settled(Create(s, 0)) && Apply(Create(s, 0), Start, 0) == Ok(e)
    ensures Settled(e) && Shaped(e) && e.snapshot == s && !e.status.WorkflowPending?
    ensures var r := PreviewNode(s, Fresh(s), s.entry);
            VisitsOf(e) == r.visits && (IsTerminal(e) <==> r.Ends?) && (r.Goes? ==> DoneIn(e) == r.done)
  {
    hide PreviewNode, Activate, Potential, Flowing, Finished, HasActive, HasStarvedJoin;
    StartFailsExactly(s, 0, 0);
    StartSettles(Create(s, 0), 0);
    e := StartExecution(Create(s, 0), 0).value;
    SettledShaped(e);
  }

  lemma PanelPreview(f: string, a: string, b: string, t: string, j: string, d: string)
    requires SixKeys(f, a, b, t, j, d)
    ensures var s := Panel(f, a, b, t, j, d);
            && WellFormed(s) && f in s.nodes
            && PreviewNode(s, Fresh(s), f) == Goes(map[f := 1, a := 1, b := 1, t := 0, j := 0, d := 0], {f}, true)
  {
    hide Panel, PreviewRoute, PreviewAll, PreviewNode, Chosen, WellFormed, ValidNode;
    var s := Panel(f, a, b, t, j, d);
    PanelShape(f, a, b, t, j, d);
    PanelChosen(f, a, b, t, j, d);
    var v := Goes(Fresh(s).visits[f := 1], {f}, false);
    assert v.visits == map[f := 1, a := 0, b := 0, t := 0, j := 0, d := 0];
    PreviewFork(s, v, f);
    PreviewPair(s, v, a, b, Chosen(s, f, Choice(Success, map[])));
    assert v.visits[a := 1][b := 1] == map[f := 1, a := 1, b := 1, t := 0, j := 0, d := 0];
    assert v.done - {a} - {b} == {f};
  }

  lemma PanelStarts(f: string, a: string, b: string, t: string, j: string, d: string) returns (e: Execution)
    requires SixKeys(f, a, b, t, j, d)
    ensures WellFormed(Panel(f, a, b, t, j, d)) && Settled(Create(Panel(f, a, b, t, j, d), 0))
    ensures Apply(Create(Panel(f, a, b, t, j, d), 0), Start, 0) == Ok(e)
    ensures Stands(e, Panel(f, a, b, t, j, d), map[f := 1, a := 1, b := 1, t := 0, j := 0, d := 0], {f})
  {
    hide Panel, Apply, PreviewNode, Settled, WellFormed, Shaped;
    PanelShape(f, a, b, t, j, d);
    PanelPreview(f, a, b, t, j, d);
    e := StartOf(Panel(f, a, b, t, j, d));
  }

  lemma StandsFacts(e: Execution, s: Snapshot, visits: map<string, nat>, done: set<string>, k: string)
    requires Stands(e, s, visits, done) && k in visits
    ensures k in e.nodes && k in s.nodes && e.nodes[k].visits == visits[k] && (Done(e, k) <==> k in done)
  {
    hide Settled, NodeOk;
    assert k in DoneIn(e) <==> k in done;
  }

  /** Resolving an open approval leads to the one target it has for the decision. */
  lemma Resolution(
    e: Execution, s: Snapshot, visits: map<string, nat>, done: set<string>, k: string, approved: bool, t: string)
    returns (f: Execution)
    requires Stands(e, s, visits, done) && Awaiting(e, k) && t in s.nodes
    requires Chosen(s, k, Choice(if approved then Approved else Rejected, map[])) == [t]
    ensures Settled(e) && Apply(e, Resolve(k, approved), 0) == Ok(f) && Settled(f) && Shaped(f)
    ensures f.snapshot == s && !f.status.WorkflowPending? && Fits(s, Goes(visits, done + {k}, false))
    ensures var r := PreviewNode(s, Goes(visits, done + {k}, false), t);
            && (IsTerminal(f) <==> r.Ends?) && VisitsOf(f) == r.visits
            && match r
               case Ends(_, status) => f.status == status
               case Goes(_, done, opens) => DoneIn(f) == done && (f.status.WorkflowAwaitingApproval? <==> opens)
  {
    hide PreviewNode, PreviewRoute, Route, Potential, NodeOk, Flowing, Finished, HasActive, HasStarvedJoin, Chosen;
    var op := Resolve(k, approved);
    assert Apply(e, op, 0).Ok?;
    CallForetold(e, op, 0);
    ApplySettles(e, op, 0);
    f := Apply(e, op, 0).value;
    SettledShaped(f);
    PreviewSingle(s, With(e, k), k, Choice(if approved then Approved else Rejected, map[]), t);
  }

  /**
   The failing history: both approvals are open when one of them is rejected, which leads to a task; the execution
   then shows running while the other is still open.
   */
  lemma PanelForgets(f: string, a: string, b: string, t: string, j: string, d: string) returns (e: Execution)
    requires SixKeys(f, a, b, t, j, d)
    ensures ValidDefinition(Panel(f, a, b, t, j, d)) && WellFormed(Panel(f, a, b, t, j, d))
    ensures Settled(Create(Panel(f, a, b, t, j, d), 0))
    ensures e == Replay(Create(Panel(f, a, b, t, j, d), 0), [(Start, 0), (Resolve(a, false), 0)])
    ensures e.status.WorkflowRunning? && Awaiting(e, b) && !Agreed(e)
    ensures Stands(e, Panel(f, a, b, t, j, d), map[f := 1, a := 1, b := 1, t := 1, j := 0, d := 0], {f, a})
  {
    hide Panel, Apply, Settled, WellFormed, Shaped, Chosen, ValidDefinition, PreviewNode;
    var s := Panel(f, a, b, t, j, d);
    PanelShape(f, a, b, t, j, d);
    PanelIsValid(f, a, b, t, j, d);
    PanelChosen(f, a, b, t, j, d);
    var e1 := PanelStarts(f, a, b, t, j, d);
    var visits := map[f := 1, a := 1, b := 1, t := 0, j := 0, d := 0];
    StandsFacts(e1, s, visits, {f}, a);
    OpenApproval(e1, a);
    e := Resolution(e1, s, visits, {f}, a, false, t);
    PreviewTask(s, Goes(visits, {f} + {a}, false), t);
    assert visits[t := 1] == map[f := 1, a := 1, b := 1, t := 1, j := 0, d := 0];
    assert {f} + {a} - {t} == {f, a};
    StandsFacts(e, s, visits[t := 1], {f, a}, b);
    OpenApproval(e, b);
    ReplayStep(Create(s, 0), Start, e1, [(Resolve(a, false), 0)]);
    ReplayStep(e1, Resolve(a, false), e, []);
    assert [(Resolve(a, false), 0)] == [(Resolve(a, false), 0)] + [];
    assert [(Start, 0), (Resolve(a, false), 0)] == [(Start, 0)] + [(Resolve(a, false), 0)];
  }

  lemma PreviewTask(s: Snapshot, v: Preview, t: string)
    requires Fits(s, v) && t in s.nodes && s.nodes[t].kind.Task? && v.visits[t] == 0
    ensures PreviewNode(s, v, t) == Goes(v.visits[t := 1], v.done - {t}, v.opens)
  {
    assert ValidNode(s.nodes[t]);
  }

  /** The join is entered although one of its two sources was routed elsewhere, and the workflow succeeds. */
  lemma JoinIgnoresRoutes(f: string, a: string, b: string, t: string, j: string, d: string) returns (e: Execution)
    requires SixKeys(f, a, b, t, j, d)
    ensures ValidDefinition(Panel(f, a, b, t, j, d)) && WellFormed(Panel(f, a, b, t, j, d))
    ensures Settled(Create(Panel(f, a, b, t, j, d), 0))
    ensures e == Replay(Create(Panel(f, a, b, t, j, d), 0),
                        [(Start, 0), (Resolve(a, false), 0), (Resolve(b, true), 0)])
    ensures j !in Chosen(Panel(f, a, b, t, j, d), a, Choice(Rejected, map[]))
    ensures a in IncomingSources(Panel(f, a, b, t, j, d).edges, j)
    ensures e.status.WorkflowSucceeded? && j in e.nodes && e.nodes[j].visits == 1
  {
    hide Panel, Apply, Settled, WellFormed, Shaped, Chosen, ValidDefinition, PreviewNode, IncomingSources;
    var s := Panel(f, a, b, t, j, d);
    PanelShape(f, a, b, t, j, d);
    PanelChosen(f, a, b, t, j, d);
    PanelSources(f, a, b, t, j, d);
    var e1 := PanelForgets(f, a, b, t, j, d);
    var visits := map[f := 1, a := 1, b := 1, t := 1, j := 0, d := 0];
    e := Resolution(e1, s, visits, {f, a}, b, true, j);
    PreviewJoin(s, Goes(visits, {f, a} + {b}, false), j, d);
    assert j in VisitsOf(e) && VisitsOf(e)[j] == 1;
    var first, last := [(Start, 0), (Resolve(a, false), 0)], [(Resolve(b, true), 0)];
    ReplayStep(e1, Resolve(b, true), e, []);
    assert last == last + [];
    ReplayOn(Create(s, 0), first, last);
    assert first + last == [(Start, 0), (Resolve(a, false), 0), (Resolve(b, true), 0)];
  }

  lemma {:induction false} ReplayOn(e: Execution, first: seq<(Operation, int)>, last: seq<(Operation, int)>)
    requires Settled(e)
    ensures Replay(e, first + last) == Replay(Replay(e, first), last)
    decreases |first|
  {
    hide Apply, Settled;
    if first == [] {
      assert first + last == last;
    } else {
      assert (first + last)[1..] == first[1..] + last;
      ApplySettles(e, first[0].0, first[0].1);
      assert Shaped(e) by { SettledShaped(e); }
      match Apply(e, first[0].0, first[0].1) {
        case Ok(f) => ReplayOn(f, first[1..], last);
        case Err(_) => ReplayOn(e, first[1..], last);
      }
    }
  }

  /** A join whose sources are completed, before a terminal node. */
  lemma PreviewJoin(s: Snapshot, v: Preview, j: string, d: string)
    requires Fits(s, v) && j in s.nodes && s.nodes[j].kind.Join? && v.visits[j] == 0
    requires IncomingSources(s.edges, j) <= v.done && Chosen(s, j, Choice(Success, map[])) == [d]
    requires d in s.nodes && s.nodes[d].kind.Terminal? && v.visits[d] == 0 && d != j
    ensures PreviewNode(s, v, j) == Ends(v.visits[j := 1][d := 1], TerminalStatusOf(s.nodes[d]))
  {
    hide PreviewRoute, Chosen, IncomingSources;
    assert ValidNode(s.nodes[j]) && ValidNode(s.nodes[d]);
    PreviewSingle(s, Goes(v.visits[j := 1], v.done + {j}, v.opens), j, Choice(Success, map[]), d);
  }

  // ---- a join entered twice ---------------------------------------------------------

  /** The fork `f` leads to the fork `g` and to the join `j`, which waits for both and which `g` leads to as well. */
  function Twice(f: string, g: string, j: string, b: string, c: string, d: string): Snapshot
  {
    var fork, task := NodeDefinition(Fork, 1, 1, None), NodeDefinition(Task, 1, 1, None);
    Snapshot(f,
             map[f := fork, g := fork, j := NodeDefinition(Join, 1, 1, None), b := task, c := task,
                 d := NodeDefinition(Terminal, 1, 1, Some(WorkflowSucceeded))],
             [Edge(f, Success, g, None), Edge(f, Success, j, None),
              Edge(g, Success, b, None), Edge(g, Success, j, None), Edge(j, Success, c, None),
              Edge(b, Success, d, None), Edge(c, Success, d, None)])
  }

  lemma TwiceShape(f: string, g: string, j: string, b: string, c: string, d: string)
    requires SixKeys(f, g, j, b, c, d)
    ensures var s := Twice(f, g, j, b, c, d);
            && WellFormed(s) && s.entry == f && s.nodes.Keys == {f, g, j, b, c, d}
            && s.nodes[f].kind.Fork? && s.nodes[g].kind.Fork? && s.nodes[j].kind.Join?
            && s.nodes[b].kind.Task? && s.nodes[c].kind.Task? && s.nodes[d].kind.Terminal?
  {
  }

  lemma TwiceEdgesRise(f: string, g: string, j: string, b: string, c: string, d: string, layer: map<string, nat>)
    requires SixKeys(f, g, j, b, c, d) && layer == map[f := 0, g := 1, j := 2, b := 2, c := 3, d := 4]
    requires WellFormed(Twice(f, g, j, b, c, d)) && Twice(f, g, j, b, c, d).nodes.Keys <= layer.Keys
    ensures EdgesRise(Twice(f, g, j, b, c, d), layer)
  {
    hide WellFormed;
  }

  lemma TwiceEdgesDiffer(f: string, g: string, j: string, b: string, c: string, d: string)
    requires SixKeys(f, g, j, b, c, d) && WellFormed(Twice(f, g, j, b, c, d))
    ensures EdgesDiffer(Twice(f, g, j, b, c, d))
  {
    hide WellFormed;
  }

  lemma TwiceSources(f: string, g: string, j: string, b: string, c: string, d: string)
    requires SixKeys(f, g, j, b, c, d)
    ensures var edges := Twice(f, g, j, b, c, d).edges;
            && IncomingSources(edges, j) == {f, g} && g in AdjacencyFrom(edges, f) && j in AdjacencyFrom(edges, f)
            && b in AdjacencyFrom(edges, g) && j in AdjacencyFrom(edges, g)
  {
    var edges := Twice(f, g, j, b, c, d).edges;
    assert edges[0].source == f && edges[0].target == g && edges[1].source == f && edges[1].target == j;
    assert edges[2].source == g && edges[2].target == b && edges[3].source == g && edges[3].target == j;
  }

  lemma TwiceConnected(f: string, g: string, j: string, b: string, c: string, d: string, k: string)
    requires SixKeys(f, g, j, b, c, d) && k in {f, g, j, b, c, d}
    ensures k in Twice(f, g, j, b, c, d).nodes && Connected(Twice(f, g, j, b, c, d), k)
  {
    hide AdjacencyFrom, IncomingSources;
    var s := Twice(f, g, j, b, c, d);
    TwiceSources(f, g, j, b, c, d);
    assert s.edges[0].target == g && s.edges[1].target == j && s.edges[2].target == b && s.edges[4].target == c;
    assert s.edges[5].target == d;
    assert s.edges[0].source == f && s.edges[2].source == g && s.edges[4].source == j && s.edges[5].source == b;
    assert s.edges[6].source == c;
    assert LeadsToTwo(s, f) && LeadsToTwo(s, g) && WaitsForTwo(s, j);
  }

  lemma TwiceIsValid(f: string, g: string, j: string, b: string, c: string, d: string)
    requires SixKeys(f, g, j, b, c, d)
    ensures ValidDefinition(Twice(f, g, j, b, c, d))
  {
    hide Twice, ValidDefinition, WellFormed, EdgesRise, EdgesDiffer, Connected;
    var layer := map[f := 0, g := 1, j := 2, b := 2, c := 3, d := 4];
    TwiceShape(f, g, j, b, c, d);
    TwiceEdgesRise(f, g, j, b, c, d, layer);
    TwiceEdgesDiffer(f, g, j, b, c, d);
    forall k | k in Twice(f, g, j, b, c, d).nodes
      ensures Connected(Twice(f, g, j, b, c, d), k)
    {
      TwiceConnected(f, g, j, b, c, d, k);
    }
    LayeredIsValid(Twice(f, g, j, b, c, d), layer);
  }

  lemma TwiceChosen(f: string, g: string, j: string, b: string, c: string, d: string)
    requires SixKeys(f, g, j, b, c, d) && StringLe(g, j)
    ensures var s := Twice(f, g, j, b, c, d);
            && Chosen(s, f, Choice(Success, map[])) == [g, j]
            && Chosen(s, g, Choice(Success, map[])) in {[b, j], [j, b]}
            && Chosen(s, j, Choice(Success, map[])) == [c]
  {
    hide RouteEdges, SelectTargets, StringLe;
    var s := Twice(f, g, j, b, c, d);
    SevenRoutes(s.edges, f, Success);
    assert RouteEdges(s.edges, f, Success) == [s.edges[0], s.edges[1]];
    SelectPair(s.edges[0], s.edges[1]);
    SevenRoutes(s.edges, g, Success);
    assert RouteEdges(s.edges, g, Success) == [s.edges[2], s.edges[3]];
    SelectPair(s.edges[2], s.edges[3]);
    SevenRoutes(s.edges, j, Success);
    assert RouteEdges(s.edges, j, Success) == [s.edges[4]];
    SelectSingle(s.edges[4]);
  }

  /** Within the call, `g` leads to the join, for which everything is completed. */
  lemma TwiceInner(f: string, g: string, j: string, b: string, c: string, d: string, v: Preview) returns (r: Preview)
    requires SixKeys(f, g, j, b, c, d) && StringLe(g, j)
    requires v == Goes(map[f := 1, g := 1, j := 0, b := 0, c := 0, d := 0], {f, g}, false)
    ensures var s := Twice(f, g, j, b, c, d);
            && Fits(s, v) && g in s.nodes && r == PreviewRoute(s, v, g, Choice(Success, map[]))
            && r.Goes? && r.visits.Keys == {f, g, j, b, c, d}
            && r.visits[j] == 1 && r.visits[d] == 0 && {f, g} <= r.done
  {
    hide Twice, Chosen, PreviewRoute, PreviewNode, IncomingSources;
    var s := Twice(f, g, j, b, c, d);
    TwiceShape(f, g, j, b, c, d);
    TwiceChosen(f, g, j, b, c, d);
    TwiceSources(f, g, j, b, c, d);
    if Chosen(s, g, Choice(Success, map[])) == [b, j] {
      PreviewTask(s, v, b);
      var v1 := Goes(v.visits[b := 1], v.done - {b}, false);
      r := JoinToTask(s, v1, j, c);
      PreviewTwo(s, v, g, b, j, v1, r);
    } else {
      var v1 := JoinToTask(s, v, j, c);
      PreviewTask(s, v1, b);
      r := Goes(v1.visits[b := 1], v1.done - {b}, false);
      PreviewTwo(s, v, g, j, b, v1, r);
    }
  }

  lemma JoinToTask(s: Snapshot, v: Preview, j: string, c: string) returns (r: Preview)
    requires Fits(s, v) && j in s.nodes && s.nodes[j].kind.Join? && v.visits[j] == 0
    requires IncomingSources(s.edges, j) <= v.done && Chosen(s, j, Choice(Success, map[])) == [c]
    requires c in s.nodes && s.nodes[c].kind.Task? && v.visits[c] == 0 && c != j
    ensures r == Goes(v.visits[j := 1][c := 1], v.done + {j} - {c}, v.opens) == PreviewNode(s, v, j)
  {
    hide PreviewRoute, Chosen, IncomingSources;
    assert ValidNode(s.nodes[j]);
    var v1 := Goes(v.visits[j := 1], v.done + {j}, v.opens);
    PreviewSingle(s, v1, j, Choice(Success, map[]), c);
    PreviewTask(s, v1, c);
    r := PreviewNode(s, v, j);
  }

  /** The preview of leading to two targets, one after the other. */
  lemma PreviewTwo(s: Snapshot, v: Preview, source: string, x: string, y: string, v1: Preview, r: Preview)
    requires Fits(s, v) && x in s.nodes && y in s.nodes && Chosen(s, source, Choice(Success, map[])) == [x, y]
    requires v1.Goes? && v1 == PreviewNode(s, v, x) && r == PreviewNode(s, v1, y)
    ensures r == PreviewRoute(s, v, source, Choice(Success, map[]))
  {
    hide PreviewNode, Chosen;
    assert [x, y][1..] == [y] && [y][1..] == [];
    assert r.Goes? ==> PreviewAll(s, r, []) == r;
    assert PreviewAll(s, v1, [y]) == r;
    assert PreviewAll(s, v, [x, y]) == r;
  }

  lemma TwicePreview(f: string, g: string, j: string, b: string, c: string, d: string)
    requires SixKeys(f, g, j, b, c, d) && StringLe(g, j)
    ensures var s := Twice(f, g, j, b, c, d);
            && WellFormed(s) && f in s.nodes && j in s.nodes
            && var r := PreviewNode(s, Fresh(s), f);
               && r.Ends? && r.status.WorkflowFailed?
               && j in r.visits && r.visits[j] == 1 && d in r.visits && r.visits[d] == 0
  {
    hide Twice, Chosen, PreviewRoute, PreviewNode, IncomingSources;
    var s := Twice(f, g, j, b, c, d);
    TwiceShape(f, g, j, b, c, d);
    TwiceChosen(f, g, j, b, c, d);
    TwiceSources(f, g, j, b, c, d);
    var v := Goes(map[f := 1, g := 0, j := 0, b := 0, c := 0, d := 0], {f}, false);
    assert Fresh(s).visits[f := 1] == v.visits;
    var v1 := Goes(map[f := 1, g := 1, j := 0, b := 0, c := 0, d := 0], {f, g}, false);
    assert v.visits[g := 1] == v1.visits && v.done + {g} == v1.done;
    var v2 := TwiceInner(f, g, j, b, c, d, v1);
    PassFork(s, v, g, v1);
    EnteredAgain(s, v2, j);
    PreviewTwo(s, v, f, g, j, v2, Ends(v2.visits, WorkflowFailed));
    PassFork(s, Fresh(s), f, v);
  }

  lemma PassFork(s: Snapshot, v: Preview, f: string, v1: Preview)
    requires Fits(s, v) && f in s.nodes && s.nodes[f].kind.Fork? && v.visits[f] == 0
    requires v1 == Goes(v.visits[f := 1], v.done + {f}, v.opens)
    ensures PreviewNode(s, v, f) == PreviewRoute(s, v1, f, Choice(Success, map[]))
  {
    hide PreviewRoute;
    assert ValidNode(s.nodes[f]);
  }

  lemma EnteredAgain(s: Snapshot, v: Preview, j: string)
    requires Fits(s, v) && j in s.nodes && s.nodes[j].kind.Join? && v.visits[j] == 1
    requires IncomingSources(s.edges, j) <= v.done
    ensures PreviewNode(s, v, j) == Ends(v.visits, WorkflowFailed)
  {
    hide PreviewRoute, IncomingSources;
    assert ValidNode(s.nodes[j]);
  }

  /**
   Validation does not rule out that a join is reached twice within one call: these definitions fail when they are
   started, without having come to a terminal node.
   */
  lemma ValidDefinitionFailsAtStart(
    f: string, g: string, j: string, b: string, c: string, d: string, createdAt: int, at: int)
    requires SixKeys(f, g, j, b, c, d) && StringLe(g, j)
    ensures ValidDefinition(Twice(f, g, j, b, c, d)) && WellFormed(Twice(f, g, j, b, c, d))
    ensures Settled(Create(Twice(f, g, j, b, c, d), createdAt))
    ensures var r := StartExecution(Create(Twice(f, g, j, b, c, d), createdAt), at);
            && r.Ok? && r.value.status.WorkflowFailed?
            && j in r.value.nodes && r.value.nodes[j].visits == 1 && d in r.value.nodes && r.value.nodes[d].visits == 0
  {
    hide Twice, Chosen, PreviewNode, StartExecution, ValidDefinition, WellFormed;
    var s := Twice(f, g, j, b, c, d);
    TwiceIsValid(f, g, j, b, c, d);
    TwicePreview(f, g, j, b, c, d);
    TwiceShape(f, g, j, b, c, d);
    StartFailsExactly(s, createdAt, at);
    var e := StartExecution(Create(s, createdAt), at).value;
    assert j in VisitsOf(e) && VisitsOf(e)[j] == 1 && d in VisitsOf(e) && VisitsOf(e)[d] == 0;
  }

  /** An execution that ends when it is started never runs out of work. */
  lemma {:induction false} EndedAtStartNeverStuck(s: Snapshot, createdAt: int, history: seq<(Operation, int)>)
    requires WellFormed(s) && PreviewNode(s, Fresh(s), s.entry).Ends?
    ensures Settled(Create(s, createdAt)) && !Stuck(Replay(Create(s, createdAt), history))
    decreases |history|
  {
    hide PreviewNode, StartExecution, Settled, Shaped;
    var e := Create(s, createdAt);
    CreateSettled(s, createdAt);
    SettledShaped(e);
    if history != [] {
      var op, at := history[0].0, history[0].1;
      ApplySettles(e, op, at);
      if Apply(e, op, at).Ok? {
        PendingStarts(e, op, at);
        StartFailsExactly(s, createdAt, at);
        TerminalIsFinal(Apply(e, op, at).value, history[1..]);
      } else {
        EndedAtStartNeverStuck(s, createdAt, history[1..]);
      }
    }
  }

  /** These definitions fail, but they do not get stuck, and they have no starving set. */
  lemma TwiceNeverStuck(f: string, g: string, j: string, b: string, c: string, d: string)
    requires SixKeys(f, g, j, b, c, d) && StringLe(g, j)
    ensures WellFormed(Twice(f, g, j, b, c, d))
    ensures !CanGetStuck(Twice(f, g, j, b, c, d)) && !CanStarve(Twice(f, g, j, b, c, d))
  {
    hide Twice, PreviewNode, ValidDefinition, WellFormed, Settled, Stuck, Starving;
    var s := Twice(f, g, j, b, c, d);
    TwiceIsValid(f, g, j, b, c, d);
    TwicePreview(f, g, j, b, c, d);
    TwiceShape(f, g, j, b, c, d);
    forall createdAt: int, history: seq<(Operation, int)>
      ensures !(Settled(Create(s, createdAt)) && Stuck(Replay(Create(s, createdAt), history)))
    {
      EndedAtStartNeverStuck(s, createdAt, history);
    }
    StuckExactlyWhenStarving(s);
  }
}
