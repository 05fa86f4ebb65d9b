/**
 The converse: every definition with a starving set does get stuck, by making its choices in its order.
 */
module WorkflowTraps {
  import opened Wrappers
  import opened Ordering
  import opened Workflows
  import opened WorkflowSafety
  import opened WorkflowProgress
  import opened WorkflowDefinitions
  import opened WorkflowStarvation

  type Credit = set<(Option<string>, string)>

  ghost predicate ValidPlan(w: Plan)
  {
    ValidDefinition(w.s) && Starving(w)
  }

  // ---- what a plan says about one node ----------------------------------------------

  lemma {:induction false} RouteEdgesDistinct(edges: seq<Edge>, source: string, outcome: Outcome)
    requires Distinct(edges)
    ensures Distinct(RouteEdges(edges, source, outcome))
  {
    if edges != [] {
      RouteEdgesDistinct(edges[1..], source, outcome);
      RouteEdgesSound(edges[1..], source, outcome);
      var rest := RouteEdges(edges[1..], source, outcome);
      assert ([edges[0]] + rest)[1..] == rest;
    }
  }

  lemma {:induction false} TargetsDistinct(edges: seq<Edge>, source: string, outcome: Outcome)
    requires Distinct(edges) && forall x :: x in edges ==>
               x.source == source && x.outcome == outcome && x.condition.None?
    ensures Distinct(Targets(edges))
  {
    if edges != [] {
      TargetsDistinct(edges[1..], source, outcome);
      var targets := Targets(edges);
      assert targets[1..] == Targets(edges[1..]);
      forall i | 0 <= i < |edges[1..]|
        ensures targets[1..][i] != targets[0]
      {
        assert edges[1..][i] in edges[1..] && edges[1..][i] in edges && edges[0] in edges;
      }
    }
  }

  /** No choice names a target twice. */
  lemma ChosenDistinct(s: Snapshot, k: string, c: Choice)
    requires ValidDefinition(s)
    ensures Distinct(Chosen(s, k, c))
  {
    var edges := RouteEdges(s.edges, k, c.outcome);
    if !HasConditional(edges) {
      RouteEdgesSound(s.edges, k, c.outcome);
      RouteEdgesDistinct(s.edges, k, c.outcome);
      TargetsDistinct(edges, k, c.outcome);
      StringOrder();
      SortDistinct(Targets(edges), StringLe);
    } else {
      assert |Chosen(s, k, c)| <= 1;
    }
  }

  /** Between `time` and `next` the plan has `t` entered, or the join `t` wait. */
  ghost predicate Steps(w: Plan, t: string, time: nat, next: nat)
    requires Mapped(w)
  {
    && t in w.s.nodes && time <= next
    && match w.s.nodes[t].kind
       case Terminal => false
       case Fork => Passes(w, t, time, next)
       case Join => Passes(w, t, time, next) || (Waits(w, t, time) && next == time)
       case _ => t in w.V && w.rank[t] >= time && next == time + 1
  }

  predicate Passes(w: Plan, t: string, time: nat, next: nat)
    requires Mapped(w)
  {
    t in w.V && w.rank[t] == time && next == w.end[t]
  }

  lemma WalksStep(w: Plan, targets: seq<string>, time: nat, stop: nat) returns (next: nat)
    requires Starving(w) && targets != [] && Walks(w, targets, time, stop)
    ensures Steps(w, targets[0], time, next) && Walks(w, targets[1..], next, stop)
  {
    hide Led, Waits, Choosers, PossibleChoice;
    PlanTimes(w);
    var t, rest := targets[0], targets[1..];
    var kind := w.s.nodes[t].kind;
    if (kind.Fork? || kind.Join?) && t in w.V && w.rank[t] == time && Walks(w, rest, w.end[t], stop) {
      next := w.end[t];
    } else {
      next := if kind.Join? then time else time + 1;
    }
  }

  lemma PlanShape(w: Plan)
    requires ValidPlan(w)
    ensures Mapped(w) && WellFormed(w.s) && w.s.entry in w.V && !w.s.nodes[w.s.entry].kind.Join?
    ensures forall k, l :: k in w.V && l in w.V && w.rank[k] == w.rank[l] ==> k == l
    ensures forall k :: k in w.V ==> !w.s.nodes[k].kind.Terminal?
  {
    hide Choosers, Walks, Led, PossibleChoice, ValidEdges, ValidRoutes, ValidPlace;
  }

  lemma PlanChoice(w: Plan, k: string)
    requires ValidPlan(w) && k in w.V
    ensures Mapped(w) && PossibleChoice(w.s.nodes[k].kind, w.choice[k])
    ensures Led(w, k) != [] && Distinct(Led(w, k)) && Walks(w, Led(w, k), w.rank[k] + 1, w.end[k])
    ensures w.rank[k] < w.end[k]
  {
    hide ValidDefinition, Choosers, Walks, Distinct, Chosen, PossibleChoice;
    PlanTimes(w);
    ChosenDistinct(w.s, k, w.choice[k]);
  }

  /** Forks and joins have no choice. */
  lemma PassChoice(w: Plan, k: string)
    requires ValidPlan(w) && k in w.V && (w.s.nodes[k].kind.Fork? || w.s.nodes[k].kind.Join?)
    ensures k in w.choice && w.choice[k] == Choice(Success, map[])
  {
    hide ValidDefinition, Starving, Walks, Led;
    PlanChoice(w, k);
  }

  // ---- following a plan -------------------------------------------------------------

  ghost function Givers(credit: Credit, t: string): set<Option<string>>
  {
    set c | c in credit && c.1 == t :: c.0
  }

  /** A credit stands for one completed node of the plan that leads to the target, or for the start. */
  ghost predicate Booked(e: Execution, w: Plan, c: (Option<string>, string))
    requires Mapped(w)
  {
    match c.0
    case None => c.1 == w.s.entry
    case Some(p) => p in w.V && p in e.nodes && Done(e, p) && c.1 in Led(w, p)
  }

  /** The order is kept: what is done comes before `now`, what is active at `fin` or later. */
  ghost predicate InOrder(e: Execution, w: Plan, now: nat, fin: nat)
    requires Shaped(e) && Mapped(w)
  {
    && (forall k :: k in e.nodes && e.nodes[k].visits > 0 ==>
          && k in w.V
          && (Done(e, k) ==> w.rank[k] < now) && (Active(e.nodes[k]) ==> w.rank[k] >= fin))
    && (forall k :: k in w.V && IsWork(w.s.nodes[k].kind) && w.rank[k] >= now ==> w.rank[k] >= fin)
  }

  /** At `now`, within a call that lasts until `fin`, the execution is where the plan has it, or behind. */
  ghost predicate Followed(e: Execution, w: Plan, credit: Credit, now: nat, fin: nat)
    requires Shaped(e) && Mapped(w)
  {
    && e.snapshot == w.s
    && (forall k :: k in e.nodes ==> !e.nodes[k].status.Running?)
    && InOrder(e, w, now, fin)
    && (forall t :: t in e.nodes && !e.snapshot.nodes[t].kind.Join? ==> e.nodes[t].visits <= |Givers(credit, t)|)
    && (forall c :: c in credit ==> Booked(e, w, c))
  }

  lemma FollowedFacts(e: Execution, w: Plan, credit: Credit, now: nat, fin: nat)
    requires Shaped(e) && Mapped(w) && Followed(e, w, credit, now, fin)
    ensures e.snapshot == w.s && InOrder(e, w, now, fin)
  {
  }

  /** Time may pass. */
  lemma FollowedLater(e: Execution, w: Plan, credit: Credit, now: nat, fin: nat, next: nat)
    requires Shaped(e) && Mapped(w) && Followed(e, w, credit, now, fin) && now <= next
    ensures Followed(e, w, credit, next, fin)
  {
    hide NodeOk, WellFormed, Givers, Booked;
  }

  lemma {:induction false} GiversCount(givers: set<Option<string>>, choosers: set<string>, first: bool)
    requires forall g :: g in givers ==> (g.Some? && g.value in choosers) || (g.None? && first)
    ensures |givers| <= |choosers| + if first then 1 else 0
  {
    if g :| g in givers && g.Some? {
      GiversCount(givers - {g}, choosers - {g.value}, first);
    } else {
      assert givers <= {None};
      if givers != {} {
        assert givers == {None};
      }
    }
  }

  /** A node that has a chooser left has a visit left. */
  lemma VisitLeft(e: Execution, w: Plan, credit: Credit, now: nat, fin: nat, giver: Option<string>, key: string)
    requires ValidPlan(w) && Shaped(e) && Mapped(w) && Followed(e, w, credit, now, fin) && key in e.nodes
    requires key in w.V && !w.s.nodes[key].kind.Join? && (giver, key) !in credit && Booked(e, w, (giver, key))
    ensures e.nodes[key].visits < e.snapshot.nodes[key].maxVisits
  {
    hide NodeOk, ValidDefinition, InOrder, Walks, PossibleChoice, Led;
    var givers, choosers := Givers(credit, key) + {giver}, Choosers(w, key);
    forall g | g in givers
      ensures (g.Some? && g.value in choosers) || (g.None? && key == w.s.entry)
    {
      assert Booked(e, w, (g, key));
    }
    GiversCount(givers, choosers, key == w.s.entry);
    assert giver !in Givers(credit, key);
  }

  // ---- one activation ---------------------------------------------------------------

  /** The plan is followed up to `giver` leading to `key`, which comes next. */
  ghost predicate Leads(
    e: Execution, w: Plan, credit: Credit, now: nat, fin: nat, giver: Option<string>, key: string, next: nat)
    requires Shaped(e) && Mapped(w)
  {
    && Followed(e, w, credit, now, fin) && key in e.nodes && Steps(w, key, now, next)
    && Booked(e, w, (giver, key)) && (giver, key) !in credit
    && (giver.None? ==> !w.s.nodes[key].kind.Join?)
  }

  /** What following the plan through one activation, or one routing, keeps. */
  ghost predicate Follows(
    e: Execution, w: Plan, credit: Credit, f: Execution, credit': Credit, next: nat, fin: nat,
    own: (Option<string>, string))
    requires Shaped(e) && Shaped(f) && Mapped(w)
  {
    && !IsTerminal(f) && Flowing(f) && Followed(f, w, credit', next, fin)
    && (forall k :: k in e.nodes && Done(e, k) ==> k in f.nodes && Done(f, k))
    && (forall c :: c in credit' && c !in credit ==> c == own || NewGiver(e, c))
  }

  /** The giver was not done before. */
  ghost predicate NewGiver(e: Execution, c: (Option<string>, string))
  {
    c.0.Some? && c.0.value in e.nodes && !Done(e, c.0.value)
  }

  /** A node other than a join: it is in the plan, not done yet, and may be entered. */
  lemma MayEnter(
    e: Execution, w: Plan, credit: Credit, now: nat, fin: nat, giver: Option<string>, key: string, next: nat)
    requires ValidPlan(w) && Shaped(e) && Mapped(w) && Leads(e, w, credit, now, fin, giver, key, next)
    requires !w.s.nodes[key].kind.Join?
    ensures key in w.V && w.rank[key] >= now && !w.s.nodes[key].kind.Terminal?
    ensures e.nodes[key].visits < e.snapshot.nodes[key].maxVisits && !Done(e, key)
  {
    hide NodeOk, ValidDefinition, Starving, Led, Givers;
    VisitLeft(e, w, credit, now, fin, giver, key);
    if Done(e, key) {
      DoneVisited(e, key);
    }
  }

  lemma DoneVisited(e: Execution, k: string)
    requires Shaped(e) && k in e.nodes && Done(e, k)
    ensures e.nodes[k].visits > 0
  {
    assert NodeOk(e.snapshot.nodes[k], e.nodes[k]);
  }

  function AddTo(credit: Credit, giver: Option<string>, key: string): Credit
  {
    credit + {(giver, key)}
  }

  lemma GiversAfter(credit: Credit, giver: Option<string>, key: string, t: string)
    requires (giver, key) !in credit
    ensures |Givers(AddTo(credit, giver, key), t)| == |Givers(credit, t)| + if t == key then 1 else 0
  {
    var credit' := AddTo(credit, giver, key);
    if t == key {
      assert Givers(credit', t) == Givers(credit, t) + {giver};
      assert giver !in Givers(credit, t);
    } else {
      assert Givers(credit', t) == Givers(credit, t);
    }
  }

  /** Entering a node that is not a join, as the plan says; a fork is passed at once. */
  lemma EnterFollows(
    e: Execution, w: Plan, credit: Credit, now: nat, fin: nat, giver: Option<string>, key: string, next: nat,
    f: Execution, later: nat)
    requires ValidPlan(w) && Shaped(e) && Shaped(f) && Mapped(w) && Leads(e, w, credit, now, fin, giver, key, next)
    requires Enters(e, f, key) && !f.nodes[key].status.Running? && Flowing(f)
    requires key in w.V && !w.s.nodes[key].kind.Join? && !Done(e, key)
    requires later == if IsWork(w.s.nodes[key].kind) then now else now + 1
    ensures Follows(e, w, credit, f, AddTo(credit, giver, key), later, fin, (giver, key))
  {
    hide NodeOk, ValidDefinition, Starving, Led, Givers, WellFormed, InOrder, AwaitingIsBacked, NothingAborted;
    var credit' := AddTo(credit, giver, key);
    EnterOrder(e, w, now, fin, key, next, f, later);
    forall t | t in f.nodes && !f.snapshot.nodes[t].kind.Join?
      ensures f.nodes[t].visits <= |Givers(credit', t)|
    {
      GiversAfter(credit, giver, key, t);
    }
    forall c | c in credit'
      ensures Booked(f, w, c)
    {
      assert Booked(e, w, c);
    }
  }

  lemma EnterOrder(e: Execution, w: Plan, now: nat, fin: nat, key: string, next: nat, f: Execution, later: nat)
    requires Shaped(e) && Shaped(f) && Mapped(w) && key in e.nodes && e.snapshot == w.s && InOrder(e, w, now, fin)
    requires Enters(e, f, key) && key in w.V && Steps(w, key, now, next) && Flowing(f)
    requires w.s.nodes[key].kind.Join? ==> w.rank[key] == now
    requires later == if IsWork(w.s.nodes[key].kind) then now else now + 1
    ensures InOrder(f, w, later, fin)
  {
    hide NodeOk, WellFormed, Waits, AwaitingIsBacked;
  }

  /** A join that is ready is the next node of the plan, and has not been entered. */
  lemma ReadyJoinIsNext(e: Execution, w: Plan, now: nat, fin: nat, key: string, next: nat)
    requires ValidPlan(w) && Flowing(e) && Mapped(w) && e.snapshot == w.s && InOrder(e, w, now, fin)
    requires key in e.nodes && w.s.nodes[key].kind.Join? && Steps(w, key, now, next) && JoinReady(e, key)
    ensures Passes(w, key, now, next) && e.nodes[key].visits == 0 && !Done(e, key)
  {
    hide NodeOk, ValidNode, ValidDefinition, Starving, AwaitingIsBacked;
    if Waits(w, key, now) {
      var q :| q in IncomingSources(w.s.edges, key) && (q !in w.V || w.rank[q] >= now);
      SourceKnown(w.s, key, q);
      DoneVisited(e, q);
      assert false;
    }
    if Done(e, key) {
      DoneVisited(e, key);
    }
    if e.nodes[key].visits > 0 {
      JoinVisitedIsDone(e, key);
      assert false;
    }
  }

  lemma JoinVisitedIsDone(e: Execution, k: string)
    requires Flowing(e) && k in e.nodes && e.snapshot.nodes[k].kind.Join? && e.nodes[k].visits > 0
    ensures Done(e, k)
  {
    assert NodeOk(e.snapshot.nodes[k], e.nodes[k]);
  }

  /** Entering the ready join takes the plan one step further. */
  lemma EnterJoinFollows(
    e: Execution, w: Plan, credit: Credit, now: nat, fin: nat, giver: Option<string>, key: string, next: nat,
    f: Execution)
    requires ValidPlan(w) && Shaped(e) && Shaped(f) && Flowing(f) && Mapped(w)
    requires Leads(e, w, credit, now, fin, giver, key, next) && w.s.nodes[key].kind.Join?
    requires Enters(e, f, key) && !f.nodes[key].status.Running? && Passes(w, key, now, next) && !Done(e, key)
    ensures Follows(e, w, credit, f, credit, now + 1, fin, (giver, key))
  {
    hide NodeOk, ValidDefinition, Starving, Led, Givers, WellFormed, InOrder, AwaitingIsBacked, NothingAborted, Steps;
    EnterOrder(e, w, now, fin, key, next, f, now + 1);
    forall c | c in credit
      ensures Booked(f, w, c)
    {
      assert Booked(e, w, c);
    }
  }

  /** A node that is not done has not led anywhere. */
  lemma NotGivenYet(e: Execution, w: Plan, credit: Credit, now: nat, fin: nat, key: string)
    requires Shaped(e) && Mapped(w) && Followed(e, w, credit, now, fin) && key in e.nodes && !Done(e, key)
    ensures forall c :: c in credit ==> c.0 != Some(key)
  {
    hide NodeOk, WellFormed, InOrder;
    forall c | c in credit
      ensures c.0 != Some(key)
    {
      assert Booked(e, w, c);
    }
  }

  lemma FollowsCompose(
    e: Execution, w: Plan, credit: Credit, f: Execution, credit1: Credit, mid: nat, fin: nat,
    own: (Option<string>, string), g: Execution, credit2: Credit, next: nat, key: string)
    requires Shaped(e) && Shaped(f) && Shaped(g) && Mapped(w) && e.nodes.Keys == f.nodes.Keys
    requires Follows(e, w, credit, f, credit1, mid, fin, own) && key in e.nodes && !Done(e, key)
    requires FollowsFrom(f, w, credit1, g, credit2, next, fin, key)
    ensures Follows(e, w, credit, g, credit2, next, fin, own)
  {
    hide Flowing, Followed, Shaped;
    forall c | c in credit2 && c !in credit
      ensures c == own || NewGiver(e, c)
    {
      assert c !in credit1 && NewGiver(f, c) ==> !Done(e, c.0.value);
    }
  }

  /** Following the plan through an activation: the execution goes on, and stays inside the plan. */
  lemma {:induction false} ActivateFollows(
    e: Execution, w: Plan, credit: Credit, now: nat, fin: nat, giver: Option<string>, key: string, next: nat, at: int)
    returns (credit': Credit)
    requires ValidPlan(w) && Flowing(e) && Mapped(w) && Leads(e, w, credit, now, fin, giver, key, next)
    ensures Follows(e, w, credit, Activate(e, key, at), credit', next, fin, (giver, key))
    ensures IsWork(w.s.nodes[key].kind) ==> Followed(Activate(e, key, at), w, credit', now, fin)
    decreases Potential(e), 0, 1
  {
    hide FailExecution, Conclude, Potential, NodeOk, ValidNode, ValidDefinition, Starving, Route, JoinReady, Waits;
    hide Followed, NothingAborted, AwaitingIsBacked, Led, InOrder;
    FollowedFacts(e, w, credit, now, fin);
    var d := e.snapshot.nodes[key];
    if d.kind.Join? && !JoinReady(e, key) {
      credit' := credit;
      LaterJoin(w, key, now, next);
      FollowedLater(e, w, credit, now, fin, next);
    } else if d.kind.Join? {
      credit' := JoinFollows(e, w, credit, now, fin, giver, key, next, at);
    } else {
      MayEnter(e, w, credit, now, fin, giver, key, next);
      EnteredEnters(e, key, at);
      if d.kind.Fork? {
        credit' := ForkFollows(e, w, credit, now, fin, giver, key, next, at);
      } else {
        credit' := AddTo(credit, giver, key);
        WorkNodeSettles(e, key, at);
        var f := Activate(e, key, at);
        assert Enters(e, f, key) && !f.nodes[key].status.Running?;
        EnterFollows(e, w, credit, now, fin, giver, key, next, f, now);
        FollowedLater(f, w, credit', now, fin, next);
      }
    }
  }

  lemma LaterJoin(w: Plan, key: string, now: nat, next: nat)
    requires Mapped(w) && Steps(w, key, now, next)
    ensures now <= next
  {
  }

  lemma {:induction false} JoinFollows(
    e: Execution, w: Plan, credit: Credit, now: nat, fin: nat, giver: Option<string>, key: string, next: nat, at: int)
    returns (credit': Credit)
    requires ValidPlan(w) && Flowing(e) && Mapped(w) && Leads(e, w, credit, now, fin, giver, key, next)
    requires e.snapshot == w.s && w.s.nodes[key].kind.Join? && JoinReady(e, key)
    ensures Follows(e, w, credit, Activate(e, key, at), credit', next, fin, (giver, key))
    decreases Potential(e), 0, 0
  {
    hide FailExecution, Conclude, Potential, NodeOk, ValidNode, ValidDefinition, Starving, Route, JoinReady, Waits;
    hide Followed, NothingAborted, AwaitingIsBacked, Led, InOrder, Steps, Follows, FollowsFrom;
    FollowedFacts(e, w, credit, now, fin);
    ReadyJoinIsNext(e, w, now, fin, key, next);
    OneVisit(e.snapshot, key);
    EnteredFlows(e, key, at);
    EnteredLowers(e, key, at);
    EnteredEnters(e, key, at);
    var e1 := Entered(e, key, at);
    EnterJoinFollows(e, w, credit, now, fin, giver, key, next, e1);
    NotGivenYet(e, w, credit, now, fin, key);
    PassChoice(w, key);
    FollowsNow(e, w, credit, e1, credit, now + 1, fin, (giver, key));
    credit' := RouteFollows(e1, w, credit, now + 1, fin, key, at);
    FollowsCompose(e, w, credit, e1, credit, now + 1, fin, (giver, key), Activate(e, key, at), credit', next, key);
  }

  lemma FollowsNow(
    e: Execution, w: Plan, credit: Credit, f: Execution, credit': Credit, next: nat, fin: nat,
    own: (Option<string>, string))
    requires Shaped(e) && Shaped(f) && Mapped(w) && Follows(e, w, credit, f, credit', next, fin, own)
    ensures Followed(f, w, credit', next, fin)
  {
  }

  lemma OneVisit(s: Snapshot, key: string)
    requires WellFormed(s) && key in s.nodes
    ensures s.nodes[key].maxVisits >= 1
  {
    assert ValidNode(s.nodes[key]);
  }

  lemma {:induction false} ForkFollows(
    e: Execution, w: Plan, credit: Credit, now: nat, fin: nat, giver: Option<string>, key: string, next: nat, at: int)
    returns (credit': Credit)
    requires ValidPlan(w) && Flowing(e) && Mapped(w) && Leads(e, w, credit, now, fin, giver, key, next)
    requires e.snapshot == w.s && w.s.nodes[key].kind.Fork? && key in w.V && !Done(e, key)
    requires e.nodes[key].visits < e.snapshot.nodes[key].maxVisits
    ensures Follows(e, w, credit, Activate(e, key, at), credit', next, fin, (giver, key))
    decreases Potential(e), 0, 0
  {
    hide FailExecution, Conclude, Potential, NodeOk, ValidNode, ValidDefinition, Starving, Route, JoinReady, Waits;
    hide Followed, NothingAborted, AwaitingIsBacked, Led, InOrder, Follows, FollowsFrom;
    EnteredFlows(e, key, at);
    EnteredLowers(e, key, at);
    EnteredEnters(e, key, at);
    var e1, credit1 := Entered(e, key, at), AddTo(credit, giver, key);
    EnterFollows(e, w, credit, now, fin, giver, key, next, e1, now + 1);
    NotGivenYet(e, w, credit, now, fin, key);
    GiverIsDone(e, w, giver, key);
    PassChoice(w, key);
    FollowsNow(e, w, credit, e1, credit1, now + 1, fin, (giver, key));
    credit' := RouteFollows(e1, w, credit1, now + 1, fin, key, at);
    FollowsCompose(e, w, credit, e1, credit1, now + 1, fin, (giver, key), Activate(e, key, at), credit', next, key);
  }

  lemma GiverIsDone(e: Execution, w: Plan, giver: Option<string>, key: string)
    requires Mapped(w) && key in e.nodes && !Done(e, key) && Booked(e, w, (giver, key))
    ensures giver != Some(key)
  {
  }

  /** The same as `Follows`, seen from the node that is routed. */
  ghost predicate FollowsFrom(
    e: Execution, w: Plan, credit: Credit, f: Execution, credit': Credit, next: nat, fin: nat, source: string)
    requires Shaped(e) && Shaped(f) && Mapped(w)
  {
    && !IsTerminal(f) && Flowing(f) && Followed(f, w, credit', next, fin)
    && (forall k :: k in e.nodes && Done(e, k) ==> k in f.nodes && Done(f, k))
    && (forall c :: c in credit' && c !in credit ==> c.0 == Some(source) || NewGiver(e, c))
  }

  /** A done node of the plan leads to all its targets by the time the plan gives it. */
  lemma {:induction false} RouteFollows(
    e: Execution, w: Plan, credit: Credit, now: nat, fin: nat, source: string, at: int) returns (credit': Credit)
    requires ValidPlan(w) && Flowing(e) && Mapped(w) && Followed(e, w, credit, now, fin)
    requires source in w.V && source in e.nodes && Done(e, source) && now == w.rank[source] + 1
    requires forall c :: c in credit ==> c.0 != Some(source)
    ensures FollowsFrom(e, w, credit, Route(e, source, w.choice[source].outcome, at, w.choice[source].output),
              credit', w.end[source], fin, source)
    decreases Potential(e), 2, 0
  {
    hide FailExecution, Potential, NodeOk, ValidNode, ValidDefinition, Starving, ActivateAll;
    hide Followed, NothingAborted, AwaitingIsBacked, Distinct, Walks, FollowsFrom, PossibleChoice;
    FollowedFacts(e, w, credit, now, fin);
    var c := w.choice[source];
    RouteTargetsKnown(e.snapshot, source, c.outcome, c.output);
    PlanChoice(w, source);
    credit' := ActivateAllFollows(e, w, credit, now, fin, source, Led(w, source), w.end[source], at);
  }

  lemma {:induction false} ActivateAllFollows(
    e: Execution, w: Plan, credit: Credit, now: nat, fin: nat, source: string, targets: seq<string>, stop: nat, at: int)
    returns (credit': Credit)
    requires ValidPlan(w) && Flowing(e) && Mapped(w) && Followed(e, w, credit, now, fin)
    requires source in w.V && source in e.nodes && Done(e, source)
    requires Distinct(targets) && Walks(w, targets, now, stop)
    requires forall t :: t in targets ==> t in e.nodes && t in Led(w, source) && (Some(source), t) !in credit
    ensures FollowsFrom(e, w, credit, ActivateAll(e, targets, at), credit', stop, fin, source)
    decreases Potential(e), 1, |targets|
  {
    hide Potential, NodeOk, ValidNode, ValidDefinition, Starving, Activate, Led, Waits, Steps;
    hide Followed, NothingAborted, AwaitingIsBacked, Walks;
    if targets == [] {
      credit' := credit;
      WalksNothing(w, now, stop);
    } else {
      var next := NextStep(w, targets, now, stop);
      assert targets[0] in targets;
      assert Leads(e, w, credit, now, fin, Some(source), targets[0], next);
      var e1 := Activate(e, targets[0], at);
      var credit1 := ActivateFollows(e, w, credit, now, fin, Some(source), targets[0], next, at);
      OneTargetFollows(e, w, credit, e1, credit1, next, fin, source, targets[0]);
      forall t | t in targets[1..]
        ensures t in targets && (Some(source), t) !in credit1
      {
      }
      credit' := ActivateAllFollows(e1, w, credit1, next, fin, source, targets[1..], stop, at);
      FollowsOn(e, w, credit, e1, credit1, next, fin, ActivateAll(e1, targets[1..], at), credit', stop, source);
    }
  }

  lemma WalksNothing(w: Plan, now: nat, stop: nat)
    requires Mapped(w) && Walks(w, [], now, stop)
    ensures now == stop
  {
  }

  lemma NextStep(w: Plan, targets: seq<string>, time: nat, stop: nat) returns (next: nat)
    requires ValidPlan(w) && Mapped(w) && targets != [] && Walks(w, targets, time, stop)
    ensures Steps(w, targets[0], time, next) && Walks(w, targets[1..], next, stop)
  {
    hide Starving, Walks, Steps, ValidDefinition;
    next := WalksStep(w, targets, time, stop);
  }

  /** A new credit of the activation is the giver's own, or that of a node done meanwhile. */
  lemma OneTargetFollows(
    e: Execution, w: Plan, credit: Credit, f: Execution, credit': Credit, next: nat, fin: nat, source: string,
    key: string)
    requires Shaped(e) && Shaped(f) && Mapped(w) && source in e.nodes && Done(e, source)
    requires Follows(e, w, credit, f, credit', next, fin, (Some(source), key))
    ensures FollowsFrom(e, w, credit, f, credit', next, fin, source)
  {
  }

  lemma FollowsOn(
    e: Execution, w: Plan, credit: Credit, f: Execution, credit1: Credit, next: nat, fin: nat,
    g: Execution, credit2: Credit, stop: nat, source: string)
    requires Shaped(e) && Shaped(f) && Shaped(g) && Mapped(w) && e.nodes.Keys == f.nodes.Keys
    requires FollowsFrom(e, w, credit, f, credit1, next, fin, source)
    requires FollowsFrom(f, w, credit1, g, credit2, stop, fin, source)
    ensures FollowsFrom(e, w, credit, g, credit2, stop, fin, source)
  {
    hide Flowing, Followed, Shaped;
  }

  // ---- the run ----------------------------------------------------------------------

  lemma DoneInOrder(e: Execution, w: Plan, r: nat, k: string, f: Execution)
    requires ValidPlan(w) && Shaped(e) && Shaped(f) && Mapped(w) && e.snapshot == w.s && InOrder(e, w, r, r)
    requires k in w.V && k in e.nodes && Active(e.nodes[k]) && IsWork(w.s.nodes[k].kind)
    requires forall l :: l in e.nodes && Active(e.nodes[l]) ==> l in w.V && w.rank[k] <= w.rank[l]
    requires f.snapshot == e.snapshot && k in f.nodes && f.nodes == e.nodes[k := f.nodes[k]] && Done(f, k)
    ensures InOrder(f, w, w.rank[k] + 1, w.end[k])
  {
    hide NodeOk, ValidDefinition, Choosers, Walks, PossibleChoice, Led, WellFormed;
    PlanTimes(w);
    ActiveVisited(e, k);
    forall l | l in f.nodes && f.nodes[l].visits > 0
      ensures l in w.V && (Done(f, l) ==> w.rank[l] < w.rank[k] + 1) && (Active(f.nodes[l]) ==> w.rank[l] >= w.end[k])
    {
      if l != k && Active(f.nodes[l]) {
        ActiveVisited(e, l);
      }
    }
  }

  /** Completing the first active node of the order. */
  lemma DoneFollows(e: Execution, w: Plan, credit: Credit, r: nat, k: string, f: Execution)
    requires ValidPlan(w) && Shaped(e) && Shaped(f) && Mapped(w) && Followed(e, w, credit, r, r)
    requires k in w.V && k in e.nodes && Active(e.nodes[k]) && IsWork(w.s.nodes[k].kind)
    requires forall l :: l in e.nodes && Active(e.nodes[l]) ==> l in w.V && w.rank[k] <= w.rank[l]
    requires f.snapshot == e.snapshot && k in f.nodes && f.nodes == e.nodes[k := f.nodes[k]]
    requires Done(f, k) && f.nodes[k].visits == e.nodes[k].visits
    ensures Followed(f, w, credit, w.rank[k] + 1, w.end[k])
    ensures forall c :: c in credit ==> c.0 != Some(k)
  {
    hide NodeOk, ValidDefinition, Starving, Led, Givers, WellFormed, InOrder;
    ActiveVisited(e, k);
    DoneInOrder(e, w, r, k, f);
    NotGivenYet(e, w, credit, r, r, k);
    forall c | c in credit
      ensures Booked(f, w, c)
    {
      assert Booked(e, w, c);
    }
  }

  lemma {:induction false} FirstOf(A: set<string>, rank: map<string, nat>) returns (k: string)
    requires A != {} && A <= rank.Keys
    ensures k in A && forall l :: l in A ==> rank[k] <= rank[l]
  {
    k :| k in A;
    if A != {k} {
      var l := FirstOf(A - {k}, rank);
      if rank[l] < rank[k] {
        k := l;
      }
    }
  }

  lemma FirstActive(e: Execution, w: Plan, credit: Credit, r: nat) returns (k: string)
    requires ValidPlan(w) && Shaped(e) && Mapped(w) && Followed(e, w, credit, r, r) && HasActive(e)
    ensures k in w.V && k in e.nodes && Active(e.nodes[k])
    ensures forall l :: l in e.nodes && Active(e.nodes[l]) ==> l in w.V && w.rank[k] <= w.rank[l]
    ensures (w.s.nodes[k].kind.Task? && e.nodes[k].status.Ready?) ||
              (w.s.nodes[k].kind.Approval? && e.nodes[k].status.AwaitingApproval?)
  {
    hide NodeOk, ValidDefinition, Starving, Chosen, Givers, WellFormed;
    var active := set l | l in e.nodes && Active(e.nodes[l]);
    forall l | l in active
      ensures l in w.V
    {
      ActiveVisited(e, l);
    }
    var some :| some in e.nodes && Active(e.nodes[some]);
    assert some in active;
    k := FirstOf(active, w.rank);
    ActiveVisited(e, k);
  }

  /** A ready task is begun and completed as the plan says. */
  lemma TaskFollows(e: Execution, w: Plan, credit: Credit, r: nat, k: string)
    returns (f: Execution, g: Execution, credit': Credit)
    requires ValidPlan(w) && Mapped(w)
    requires Shaped(e) && Settled(e) && Flowing(e) && Followed(e, w, credit, r, r)
    requires k in w.V && k in e.nodes && e.nodes[k].status.Ready? && w.s.nodes[k].kind.Task?
    requires forall l :: l in e.nodes && Active(e.nodes[l]) ==> l in w.V && w.rank[k] <= w.rank[l]
    ensures Shaped(f) && Settled(f) && Apply(e, Begin(k), 0) == Ok(f)
    ensures Shaped(g) && Settled(g)
    ensures Apply(f, Complete(k, w.choice[k].outcome, Some(w.choice[k].output), None), 0) == Ok(g)
    ensures Flowing(g) && !IsTerminal(g) && Followed(g, w, credit', w.end[k], w.end[k])
  {
    hide ValidDefinition, Starving, Led, Followed, Route, Potential, Apply, NodeOk, CompleteNode, Walks;
    hide HasStarvedJoin, NothingAborted, AwaitingIsBacked, HasActive;
    PlanChoice(w, k);
    FollowedFacts(e, w, credit, r, r);
    var c := w.choice[k];
    var e1;
    f, g, e1 := BeginAndComplete(e, k, c);
    DoneFollows(e, w, credit, r, k, e1);
    credit' := RouteFollows(e1, w, credit, w.rank[k] + 1, w.end[k], k, 0);
  }

  /** A ready task can be begun and completed in any way; `e1` is the execution before it is routed. */
  lemma BeginAndComplete(e: Execution, k: string, c: Choice) returns (f: Execution, g: Execution, e1: Execution)
    requires Settled(e) && Flowing(e) && k in e.nodes && e.nodes[k].status.Ready?
    requires c.outcome.Success? || c.outcome.Failure?
    ensures Settled(f) && Apply(e, Begin(k), 0) == Ok(f)
    ensures Settled(g) && Apply(f, Complete(k, c.outcome, Some(c.output), None), 0) == Ok(g)
    ensures Flowing(e1) && g == Route(e1, k, c.outcome, 0, c.output) && !g.status.WorkflowPending?
    ensures e1.snapshot == e.snapshot && k in e1.nodes && e1.nodes == e.nodes[k := e1.nodes[k]]
    ensures Done(e1, k) && e1.nodes[k].visits == e.nodes[k].visits
  {
    hide Apply, Route, Potential, NodeOk, HasStarvedJoin, NothingAborted, AwaitingIsBacked, HasActive;
    f := Begun(e, k);
    g, e1 := Completed(f, k, c);
  }

  lemma Begun(e: Execution, k: string) returns (f: Execution)
    requires Settled(e) && k in e.nodes && e.nodes[k].status.Ready?
    ensures Settled(f) && Apply(e, Begin(k), 0) == Ok(f)
    ensures f.snapshot == e.snapshot && k in f.nodes && f.nodes == e.nodes[k := f.nodes[k]]
    ensures f.nodes[k].status.Running? && f.nodes[k].visits == e.nodes[k].visits && f.nodes[k].leaseToken.None?
  {
    hide Potential, HasStarvedJoin, NothingAborted, AwaitingIsBacked, HasActive;
    assert NodeOk(e.snapshot.nodes[k], e.nodes[k]);
    BeginSettles(e, k, 0);
    f := BeginTask(e, k, 0).value;
  }

  lemma Completed(f: Execution, k: string, c: Choice) returns (g: Execution, e1: Execution)
    requires Settled(f) && k in f.nodes && f.nodes[k].status.Running? && f.nodes[k].leaseToken.None?
    requires c.outcome.Success? || c.outcome.Failure?
    ensures Settled(g) && Apply(f, Complete(k, c.outcome, Some(c.output), None), 0) == Ok(g)
    ensures Flowing(e1) && g == Route(e1, k, c.outcome, 0, c.output) && !g.status.WorkflowPending?
    ensures e1.snapshot == f.snapshot && k in e1.nodes && e1.nodes == f.nodes[k := e1.nodes[k]]
    ensures Done(e1, k) && e1.nodes[k].visits == f.nodes[k].visits
  {
    hide Route, Potential, NodeOk, HasStarvedJoin, NothingAborted, AwaitingIsBacked, HasActive;
    CompleteSettles(f, k, c.outcome, Some(c.output), None, 0);
    g := CompleteTask(f, k, c.outcome, Some(c.output), None, 0).value;
    e1 := Touch(SetNode(f, k, CompleteNode(f.nodes[k], c.outcome, Some(c.output), 0)), 0);
    CompletedFlows(f, k, c.outcome, Some(c.output), 0, e1);
  }

  lemma ApprovalFollows(e: Execution, w: Plan, credit: Credit, r: nat, k: string)
    returns (g: Execution, credit': Credit)
    requires ValidPlan(w) && Mapped(w)
    requires Shaped(e) && Settled(e) && Flowing(e) && Followed(e, w, credit, r, r)
    requires k in w.V && k in e.nodes && e.nodes[k].status.AwaitingApproval? && w.s.nodes[k].kind.Approval?
    requires forall l :: l in e.nodes && Active(e.nodes[l]) ==> l in w.V && w.rank[k] <= w.rank[l]
    ensures Shaped(g) && Settled(g) && Apply(e, Resolve(k, w.choice[k].outcome.Approved?), 0) == Ok(g)
    ensures Flowing(g) && !IsTerminal(g) && Followed(g, w, credit', w.end[k], w.end[k])
  {
    hide ValidDefinition, Starving, Led, Followed, Route, Potential, Apply, NodeOk, ResolveNode, Walks;
    hide HasStarvedJoin, NothingAborted, AwaitingIsBacked, HasActive;
    PlanChoice(w, k);
    FollowedFacts(e, w, credit, r, r);
    var c := w.choice[k];
    var e1;
    g, e1 := Resolved(e, k, c.outcome);
    DoneFollows(e, w, credit, r, k, e1);
    credit' := RouteFollows(e1, w, credit, w.rank[k] + 1, w.end[k], k, 0);
  }

  lemma Resolved(e: Execution, k: string, outcome: Outcome) returns (g: Execution, e1: Execution)
    requires Settled(e) && k in e.nodes && e.nodes[k].status.AwaitingApproval?
    requires outcome.Approved? || outcome.Rejected?
    ensures Settled(g) && Apply(e, Resolve(k, outcome.Approved?), 0) == Ok(g)
    ensures Flowing(e1) && g == Route(e1, k, outcome, 0, map[]) && !g.status.WorkflowPending?
    ensures e1.snapshot == e.snapshot && k in e1.nodes && e1.nodes == e.nodes[k := e1.nodes[k]]
    ensures Done(e1, k) && e1.nodes[k].visits == e.nodes[k].visits
  {
    hide Route, Potential, NodeOk, HasStarvedJoin, NothingAborted, AwaitingIsBacked, HasActive;
    ResolveSettles(e, k, outcome.Approved?, 0);
    g := ResolveApproval(e, k, outcome.Approved?, 0).value;
    e1 := Touch(SetNode(e, k, ResolveNode(e.nodes[k], outcome, 0)).(status := WorkflowRunning), 0);
    ResolvedFlows(e, k, outcome, 0, e1);
  }

  lemma ReplayStep(e: Execution, op: Operation, f: Execution, rest: seq<(Operation, int)>)
    requires Settled(e) && Settled(f) && Apply(e, op, 0) == Ok(f)
    ensures Replay(e, [(op, 0)] + rest) == Replay(f, rest)
  {
    hide Apply, Flowing, Finished, HasActive, HasStarvedJoin;
    assert ([(op, 0)] + rest)[1..] == rest;
  }

  /** Making the choices of the plan, always at the first active node, ends with nothing left to do. */
  lemma {:induction false} RunFollows(e: Execution, w: Plan, credit: Credit, r: nat)
    returns (history: seq<(Operation, int)>)
    requires ValidPlan(w) && Settled(e) && Flowing(e) && !IsTerminal(e) && Mapped(w)
    requires Followed(e, w, credit, r, r)
    ensures Stuck(Replay(e, history))
    decreases Measure(e)
  {
    hide ValidPlan, Followed, Apply, HasStarvedJoin, NothingAborted, AwaitingIsBacked, Potential, NodeOk;
    if !HasActive(e) {
      history := [];
    } else {
      var k := FirstActive(e, w, credit, r);
      if e.nodes[k].status.Ready? {
        var f, g, credit' := TaskFollows(e, w, credit, r, k);
        var op := Complete(k, w.choice[k].outcome, Some(w.choice[k].output), None);
        ApplyLowers(e, Begin(k), 0);
        ApplyLowers(f, op, 0);
        var rest := RunFollows(g, w, credit', w.end[k]);
        ReplayStep(f, op, g, rest);
        ReplayStep(e, Begin(k), f, [(op, 0)] + rest);
        history := [(Begin(k), 0)] + ([(op, 0)] + rest);
      } else {
        var g, credit' := ApprovalFollows(e, w, credit, r, k);
        var op := Resolve(k, w.choice[k].outcome.Approved?);
        ApplyLowers(e, op, 0);
        var rest := RunFollows(g, w, credit', w.end[k]);
        ReplayStep(e, op, g, rest);
        history := [(op, 0)] + rest;
      }
    }
  }

  /** Where the plan begins: with the entry to be done later, or, when that is a fork, in the middle of it. */
  lemma EntrySteps(w: Plan) returns (now: nat, fin: nat, next: nat)
    requires ValidPlan(w)
    ensures Mapped(w) && WellFormed(w.s) && !w.s.nodes[w.s.entry].kind.Join? && Steps(w, w.s.entry, now, next)
    ensures IsWork(w.s.nodes[w.s.entry].kind) ==> now == fin
    ensures !IsWork(w.s.nodes[w.s.entry].kind) ==> next == fin
    ensures forall k :: k in w.V && IsWork(w.s.nodes[k].kind) && w.rank[k] >= now ==> w.rank[k] >= fin
  {
    hide ValidDefinition, Choosers, Walks, PossibleChoice, Led, Waits;
    PlanShape(w);
    PlanTimes(w);
    if IsWork(w.s.nodes[w.s.entry].kind) {
      now, fin, next := 0, 0, 1;
    } else {
      now, fin, next := w.rank[w.s.entry], w.end[w.s.entry], w.end[w.s.entry];
    }
  }

  lemma StartFollows(w: Plan, createdAt: int) returns (e: Execution, f: Execution, credit: Credit, r: nat)
    requires ValidPlan(w)
    ensures Mapped(w) && WellFormed(w.s) && e == Create(w.s, createdAt) && Settled(e)
    ensures Settled(f) && Apply(e, Start, 0) == Ok(f) && Flowing(f) && !IsTerminal(f) && Followed(f, w, credit, r, r)
  {
    hide ValidDefinition, Starving, Activate, Potential, Steps, Shaped, Leads, Followed, Finished, Flowing;
    hide HasActive, HasStarvedJoin;
    var now, fin, next := EntrySteps(w);
    e := Create(w.s, createdAt);
    CreateSettled(w.s, createdAt);
    SettledShaped(e);
    StartSettles(e, 0);
    f := StartExecution(e, 0).value;
    var e1 := EntryLeads(w, createdAt, now, fin, next);
    credit := ActivateFollows(e1, w, {}, now, fin, None, w.s.entry, next, 0);
    r := fin;
  }

  lemma EntryLeads(w: Plan, createdAt: int, now: nat, fin: nat, next: nat) returns (e1: Execution)
    requires Mapped(w) && WellFormed(w.s) && !w.s.nodes[w.s.entry].kind.Join? && Steps(w, w.s.entry, now, next)
    requires forall k :: k in w.V && IsWork(w.s.nodes[k].kind) && w.rank[k] >= now ==> w.rank[k] >= fin
    ensures e1 == Touch(Create(w.s, createdAt).(status := WorkflowRunning, startedAt := Some(0)), 0)
    ensures Flowing(e1) && Leads(e1, w, {}, now, fin, None, w.s.entry, next)
  {
    hide Steps, Potential;
    e1 := Touch(Create(w.s, createdAt).(status := WorkflowRunning, startedAt := Some(0)), 0);
  }

  /** Every plan ends stuck. */
  lemma StarvingGetsStuck(w: Plan, createdAt: int) returns (history: seq<(Operation, int)>)
    requires ValidPlan(w)
    ensures Settled(Create(w.s, createdAt)) && Stuck(Replay(Create(w.s, createdAt), history))
  {
    hide ValidPlan, Followed, Apply, HasStarvedJoin, NothingAborted, AwaitingIsBacked, Potential, NodeOk;
    var e, f, credit, r := StartFollows(w, createdAt);
    var rest := RunFollows(f, w, credit, r);
    ReplayStep(e, Start, f, rest);
    history := [(Start, 0)] + rest;
  }

  /** Some history of calls leaves an execution of the definition with nothing to do. */
  ghost predicate CanGetStuck(s: Snapshot)
    requires WellFormed(s)
  {
    exists createdAt: int, history: seq<(Operation, int)> ::
      Settled(Create(s, createdAt)) && Stuck(Replay(Create(s, createdAt), history))
  }

  /** Exactly the definitions with a starving set can get stuck. */
  lemma StuckExactlyWhenStarving(s: Snapshot)
    requires ValidDefinition(s)
    ensures WellFormed(s) && (CanGetStuck(s) <==> CanStarve(s))
  {
    hide ValidDefinition, Starving, Stuck;
    assert WellFormed(s) by { ValidIsWellFormed(s); }
    if CanGetStuck(s) {
      var createdAt: int, history: seq<(Operation, int)> :|
        Settled(Create(s, createdAt)) && Stuck(Replay(Create(s, createdAt), history));
      OnlyStarvingGetsStuck(s, createdAt, history);
    }
    if CanStarve(s) {
      var w: Plan :| w.s == s && Starving(w);
      var history := StarvingGetsStuck(w, 0);
    }
  }

  lemma ValidIsWellFormed(s: Snapshot)
    requires ValidDefinition(s)
    ensures WellFormed(s)
  {
  }

  // ---- a valid definition that gets stuck -------------------------------------------

  lemma SelectSingle(edge: Edge)
    requires edge.condition.None?
    ensures SelectTargets([edge], map[]) == [edge.target]
  {
    assert !HasConditional([edge]);
    assert Targets([edge]) == [edge.target];
    assert [edge.target][1..] == [];
    assert Sort([edge.target], StringLe) == Insert(edge.target, [], StringLe);
  }

  /** The plan for `Detour`: `p` succeeds and leads to the join, which waits for `r`. */
  function DetourPlan(p: string, r: string, j: string, d: string): Plan
  {
    Plan(Detour(p, r, j, d), {p}, map[p := Choice(Success, map[])], map[p := 0], map[p := 1])
  }

  lemma DetourChoice(p: string, r: string, j: string, d: string)
    requires FourKeys(p, r, j, d)
    ensures Chosen(Detour(p, r, j, d), p, Choice(Success, map[])) == [j]
  {
    hide RouteEdges, SelectTargets;
    DetourRoutes(p, r, j, d, p, Success);
    SelectSingle(Detour(p, r, j, d).edges[0]);
  }

  lemma DetourStarves(p: string, r: string, j: string, d: string)
    requires FourKeys(p, r, j, d)
    ensures ValidPlan(DetourPlan(p, r, j, d))
  {
    hide Detour, Chosen, ValidDefinition, IncomingSources, AdjacencyFrom, WellFormed;
    var w := DetourPlan(p, r, j, d);
    DetourIsValid(p, r, j, d);
    DetourShape(p, r, j, d);
    DetourLimits(p, r, j, d);
    DetourNeighbours(p, r, j, d);
    DetourChoice(p, r, j, d);
    assert r in IncomingSources(w.s.edges, j) && r !in w.V;
    assert [j][1..] == [] && Walks(w, [], 1, 1);
    assert Walks(w, [j], 1, 1);
    assert Choosers(w, p) == {};
  }

  lemma DetourLimits(p: string, r: string, j: string, d: string)
    requires FourKeys(p, r, j, d)
    ensures p in Detour(p, r, j, d).nodes && Detour(p, r, j, d).nodes[p].maxVisits == 1
  {
  }

  /** Validation does not rule out starving joins: these definitions pass it and get stuck. */
  lemma ValidDefinitionCanGetStuck(p: string, r: string, j: string, d: string)
    requires FourKeys(p, r, j, d)
    ensures ValidDefinition(Detour(p, r, j, d)) && CanGetStuck(Detour(p, r, j, d))
  {
    hide Starving, ValidDefinition;
    DetourStarves(p, r, j, d);
    var history := StarvingGetsStuck(DetourPlan(p, r, j, d), 0);
  }

  // ---- definitions that never get stuck ---------------------------------------------

  /** A fork leads to all its targets. */
  lemma ForkLeadsToAll(s: Snapshot, k: string, t: string)
    requires WellFormed(s) && k in s.nodes && s.nodes[k].kind.Fork?
    requires forall x :: x in s.edges && x.source == k ==> x.condition.None?
    requires Edge(k, Success, t, None) in s.edges
    ensures AlwaysLeadsTo(s, k, t)
  {
    forall c: Choice | PossibleChoice(s.nodes[k].kind, c) && Chosen(s, k, c) != []
      ensures t in Chosen(s, k, c)
    {
      var edges := RouteEdges(s.edges, k, Success);
      RouteEdgesSound(s.edges, k, Success);
      var i :| 0 <= i < |edges| && edges[i] == Edge(k, Success, t, None);
      assert Targets(edges)[i] == t;
      StringOrder();
      SortMembers(Targets(edges), StringLe, t);
      assert !HasConditional(edges);
    }
  }

  /** When every join waits only for branches of the fork the workflow starts with, it never gets stuck. */
  lemma ForkedAtEntryNeverStuck(s: Snapshot, createdAt: int, history: seq<(Operation, int)>)
    requires WellFormed(s) && s.nodes[s.entry].kind.Fork?
    requires forall x :: x in s.edges && x.source == s.entry ==> x.condition.None?
    requires forall j, p :: j in s.nodes && s.nodes[j].kind.Join? && p in IncomingSources(s.edges, j) ==>
               Edge(s.entry, Success, p, None) in s.edges && !s.nodes[p].kind.Join?
    ensures Settled(Create(s, createdAt)) && !Stuck(Replay(Create(s, createdAt), history))
  {
    forall j, p | j in s.nodes && s.nodes[j].kind.Join? && p in IncomingSources(s.edges, j)
      ensures Forced(s, p)
    {
      SourceKnown(s, j, p);
      ForkLeadsToAll(s, s.entry, p);
    }
    ForcedSourcesNeverStarve(s);
    OnlyStarvingGetsStuck(s, createdAt, history);
  }

  /** Two branches that are joined again. */
  function Diamond(f: string, a: string, b: string, j: string, d: string): Snapshot
  {
    var task := NodeDefinition(Task, 1, 1, None);
    Snapshot(f,
             map[f := NodeDefinition(Fork, 1, 1, None), a := task, b := task, j := NodeDefinition(Join, 1, 1, None),
                 d := NodeDefinition(Terminal, 1, 1, Some(WorkflowSucceeded))],
             [Edge(f, Success, a, None), Edge(f, Success, b, None),
              Edge(a, Success, j, None), Edge(b, Success, j, None), Edge(j, Success, d, None)])
  }

  lemma DiamondShape(f: string, a: string, b: string, j: string, d: string)
    requires FourKeys(f, a, b, j) && d !in {f, a, b, j}
    ensures var s := Diamond(f, a, b, j, d);
            && WellFormed(s) && s.entry == f && s.nodes[f].kind.Fork?
            && (forall x :: x in s.edges ==> x.condition.None?)
            && (forall k :: k in s.nodes && s.nodes[k].kind.Join? ==> k == j)
            && a in s.nodes && !s.nodes[a].kind.Join? && b in s.nodes && !s.nodes[b].kind.Join?
  {
  }

  lemma DiamondSources(f: string, a: string, b: string, j: string, d: string)
    requires FourKeys(f, a, b, j) && d !in {f, a, b, j}
    ensures var s := Diamond(f, a, b, j, d);
            && IncomingSources(s.edges, j) <= {a, b}
            && Edge(f, Success, a, None) in s.edges && Edge(f, Success, b, None) in s.edges
  {
    var s := Diamond(f, a, b, j, d);
    assert s.edges[0] in s.edges && s.edges[1] in s.edges;
  }

  lemma DiamondNeverStuck(f: string, a: string, b: string, j: string, d: string, history: seq<(Operation, int)>)
    requires FourKeys(f, a, b, j) && d !in {f, a, b, j}
    ensures WellFormed(Diamond(f, a, b, j, d)) && Settled(Create(Diamond(f, a, b, j, d), 0))
    ensures !Stuck(Replay(Create(Diamond(f, a, b, j, d), 0), history))
  {
    hide Diamond, IncomingSources, WellFormed, Settled, Stuck;
    DiamondShape(f, a, b, j, d);
    DiamondSources(f, a, b, j, d);
    ForkedAtEntryNeverStuck(Diamond(f, a, b, j, d), 0, history);
  }
}
