/**
 Which definitions can run out of work: from every history that ends stuck one can read off a starving set
 of nodes, a condition on the definition alone.
 */
module WorkflowStarvation {
  import opened Wrappers
  import opened Workflows
  import opened WorkflowSafety

  // ---- starving sets ----------------------------------------------------------------

  /** How a node was completed; forks, joins and approvals have no output. */
  datatype Choice = Choice(outcome: Outcome, output: Artifact)

  predicate PossibleChoice(kind: NodeKind, c: Choice)
  {
    AllowedOutcome(kind, c.outcome) && (!kind.Task? ==> c.output == map[])
  }

  function Chosen(s: Snapshot, k: string, c: Choice): seq<string>
  {
    SelectTargets(RouteEdges(s.edges, k, c.outcome), c.output)
  }

  /**
   A set of nodes of a definition, with a choice for each of them and the stretch of time from `rank` to `end`
   in which it is completed and everything it leads to is entered.
   */
  datatype Plan = Plan(
    s: Snapshot,
    V: set<string>,
    choice: map<string, Choice>,
    rank: map<string, nat>,
    end: map<string, nat>)

  predicate Mapped(w: Plan)
  {
    w.V <= w.s.nodes.Keys && w.V <= w.choice.Keys && w.V <= w.rank.Keys && w.V <= w.end.Keys
  }

  predicate IsWork(kind: NodeKind)
  {
    kind.Task? || kind.Approval?
  }

  ghost function Led(w: Plan, k: string): seq<string>
    requires k in w.choice
  {
    Chosen(w.s, k, w.choice[k])
  }

  predicate OneAtATime(V: set<string>, rank: map<string, nat>)
    requires V <= rank.Keys
  {
    forall k, l :: k in V && l in V && rank[k] == rank[l] ==> k == l
  }

  /** The nodes of the plan whose choice leads to `t`. */
  ghost function Choosers(w: Plan, t: string): set<string>
    requires Mapped(w)
  {
    set k | k in w.V && t in Led(w, k)
  }

  /** The join waits for a node outside the plan, or one that is not completed before `time`. */
  ghost predicate Waits(w: Plan, j: string, time: nat)
    requires Mapped(w)
  {
    exists p :: p in IncomingSources(w.s.edges, j) && (p !in w.V || w.rank[p] >= time)
  }

  /**
   Between `time` and `stop` the targets are entered one after the other: a task or an approval, to be completed
   later; a fork, which is passed at once; a join, which is passed at once or waits.
   */
  ghost predicate Walks(w: Plan, targets: seq<string>, time: nat, stop: nat)
    requires Mapped(w)
    decreases |targets|
  {
    && time <= stop
    && if targets == [] then time == stop
       else
         var t, rest := targets[0], targets[1..];
         && t in w.s.nodes
         && match w.s.nodes[t].kind
            case Terminal => false
            case Fork => t in w.V && w.rank[t] == time && Walks(w, rest, w.end[t], stop)
            case Join =>
              || (t in w.V && w.rank[t] == time && Walks(w, rest, w.end[t], stop))
              || (Waits(w, t, time) && Walks(w, rest, time, stop))
            case _ => t in w.V && w.rank[t] >= time && Walks(w, rest, time + 1, stop)
  }

  /**
   A plan that never leaves its set: it has the entry and no terminal node, every choice leads on inside the set
   or to joins that wait, nothing else is completed while a node is, and no node is chosen more often than it may
   be visited.
   */
  ghost predicate Starving(w: Plan)
  {
    && Mapped(w) && w.s.entry in w.V && OneAtATime(w.V, w.rank)
    && (forall k :: k in w.V ==>
          && !w.s.nodes[k].kind.Terminal?
          && PossibleChoice(w.s.nodes[k].kind, w.choice[k]) && Led(w, k) != []
          && Walks(w, Led(w, k), w.rank[k] + 1, w.end[k]))
    && (forall k, l :: k in w.V && l in w.V && IsWork(w.s.nodes[l].kind) && l != k ==>
          w.rank[l] < w.rank[k] || w.rank[l] >= w.end[k])
    && (forall t :: t in w.V && !w.s.nodes[t].kind.Join? ==>
          |Choosers(w, t)| + (if t == w.s.entry then 1 else 0) <= w.s.nodes[t].maxVisits)
  }

  ghost predicate CanStarve(s: Snapshot)
  {
    exists w: Plan :: w.s == s && Starving(w)
  }

  // ---- what a run leaves behind -----------------------------------------------------

  /**
   When each node was last entered or completed and when its routing was over, how it was completed, and which
   entries its completions account for.
   */
  datatype Trace = Trace(
    rank: map<string, nat>,
    end: map<string, nat>,
    top: nat,
    choice: map<string, Choice>,
    credit: set<(Option<string>, string)>)

  ghost function Creditors(tr: Trace, t: string): set<Option<string>>
  {
    set c | c in tr.credit && c.1 == t :: c.0
  }

  predicate Done(e: Execution, k: string)
    requires k in e.nodes
  {
    e.nodes[k].status.Succeeded?
  }

  /** Some source of the join has not finished, or did so at `lo` or later. */
  ghost predicate Blocked(e: Execution, tr: Trace, j: string, lo: nat)
    requires Shaped(e)
  {
    exists p ::
      && p in IncomingSources(e.snapshot.edges, j) && p in e.nodes
      && (!Done(e, p) || (p in tr.rank && tr.rank[p] >= lo))
  }

  /** The targets were entered between `time` and `stop`, or are joins that were blocked then. */
  ghost predicate Stepped(e: Execution, tr: Trace, targets: seq<string>, time: nat, stop: nat)
    requires Shaped(e)
    decreases |targets|
  {
    && time <= stop
    && if targets == [] then time == stop
       else
         var t, rest := targets[0], targets[1..];
         && t in e.nodes
         && match e.snapshot.nodes[t].kind
            case Terminal => false
            case Fork => Passed(tr, t, time) && Stepped(e, tr, rest, tr.end[t], stop)
            case Join =>
              || (Passed(tr, t, time) && Stepped(e, tr, rest, tr.end[t], stop))
              || (Blocked(e, tr, t, time) && Stepped(e, tr, rest, time, stop))
            case _ => t in tr.rank && tr.rank[t] >= time && Stepped(e, tr, rest, time + 1, stop)
  }

  predicate Passed(tr: Trace, t: string, time: nat)
  {
    t in tr.rank && t in tr.end && tr.rank[t] == time
  }

  ghost predicate Credited(e: Execution, tr: Trace, k: string, t: string)
    requires Shaped(e)
  {
    t in e.nodes && (e.snapshot.nodes[t].kind.Join? || (Some(k), t) in tr.credit)
  }

  /** A completed node was routed: what it chose has been reached since. */
  ghost predicate Routed(e: Execution, tr: Trace, k: string)
    requires Shaped(e) && k in e.nodes
  {
    && k in tr.rank && k in tr.choice && k in tr.end
    && PossibleChoice(e.snapshot.nodes[k].kind, tr.choice[k])
    && var targets := Chosen(e.snapshot, k, tr.choice[k]);
       && targets != []
       && Stepped(e, tr, targets, tr.rank[k] + 1, tr.end[k])
       && forall t :: t in targets ==> Credited(e, tr, k, t)
  }

  /** The trace fits the execution, except that the nodes in `X` are still being routed. */
  ghost predicate Traced(e: Execution, tr: Trace, X: set<string>)
    requires Shaped(e)
  {
    && Ranked(e, tr) && Timed(tr) && Apart(e, tr) && X <= tr.rank.Keys && X !! tr.end.Keys
    && (forall k :: k in e.nodes && k in tr.rank && e.snapshot.nodes[k].kind.Join? ==> SourcesRanked(e, tr, k))
    && (forall k :: k in e.nodes && Done(e, k) && k !in X ==> Routed(e, tr, k))
    && (forall t :: t in e.nodes ==> |Creditors(tr, t)| <= e.nodes[t].visits)
  }

  ghost predicate Ranked(e: Execution, tr: Trace)
    requires Shaped(e)
  {
    && tr.rank.Keys <= e.nodes.Keys
    && (forall k :: k in e.nodes ==> (k in tr.rank <==> e.nodes[k].visits > 0))
    && (forall k :: k in tr.rank ==> tr.rank[k] < tr.top && !e.snapshot.nodes[k].kind.Terminal?)
    && OneAtATime(tr.rank.Keys, tr.rank)
  }

  predicate Timed(tr: Trace)
  {
    tr.end.Keys <= tr.rank.Keys && forall k :: k in tr.end ==> tr.rank[k] < tr.end[k] <= tr.top
  }

  /** No task or approval was completed while another node was routed. */
  ghost predicate Apart(e: Execution, tr: Trace)
    requires Shaped(e) && tr.end.Keys <= tr.rank.Keys <= e.nodes.Keys
  {
    forall k :: k in tr.end ==> ApartFrom(e, tr, k)
  }

  ghost predicate ApartFrom(e: Execution, tr: Trace, k: string)
    requires Shaped(e) && k in tr.end && tr.end.Keys <= tr.rank.Keys <= e.nodes.Keys
  {
    forall l :: l in tr.rank && l != k && IsWork(e.snapshot.nodes[l].kind) && Done(e, l) ==>
      tr.rank[l] < tr.rank[k] || tr.rank[l] >= tr.end[k]
  }

  ghost predicate SourcesRanked(e: Execution, tr: Trace, j: string)
  {
    IncomingSources(e.snapshot.edges, j) <= tr.rank.Keys
  }

  ghost predicate Started(e: Execution, tr: Trace)
  {
    e.snapshot.entry in tr.rank && (None, e.snapshot.entry) in tr.credit
  }

  // ---- how traces grow --------------------------------------------------------------

  /** Nothing that matters happened to `k`. */
  ghost predicate Same(e: Execution, tr: Trace, f: Execution, tr': Trace, k: string)
    requires k in e.nodes && k in f.nodes
  {
    && f.nodes[k].visits == e.nodes[k].visits && (Done(f, k) <==> Done(e, k))
    && (k in tr'.rank <==> k in tr.rank) && (k in tr.rank ==> tr'.rank[k] == tr.rank[k])
    && (k in tr.choice ==> k in tr'.choice && tr'.choice[k] == tr.choice[k])
    && (k in tr.end ==> k in tr'.end && tr'.end[k] == tr.end[k])
  }

  /** `k` was entered again since `lo`; tasks and approvals are not finished yet. */
  ghost predicate EnteredSince(e: Execution, f: Execution, tr': Trace, k: string, lo: nat)
    requires k in e.nodes && k in f.nodes && k in f.snapshot.nodes
  {
    && e.nodes[k].visits < f.nodes[k].visits && k in tr'.rank && tr'.rank[k] >= lo
    && (f.snapshot.nodes[k].kind.Task? || f.snapshot.nodes[k].kind.Approval? ==> !Done(f, k))
  }

  ghost predicate Moves(e: Execution, tr: Trace, f: Execution, tr': Trace)
    requires Shaped(e) && Shaped(f)
  {
    && f.snapshot == e.snapshot && f.nodes.Keys == e.nodes.Keys
    && tr.top <= tr'.top && tr.credit <= tr'.credit
    && forall k :: k in e.nodes ==> Same(e, tr, f, tr', k) || EnteredSince(e, f, tr', k, tr.top)
  }

  lemma MovesCompose(e: Execution, a: Trace, f: Execution, b: Trace, g: Execution, c: Trace)
    requires Shaped(e) && Shaped(f) && Shaped(g) && Moves(e, a, f, b) && Moves(f, b, g, c)
    ensures Moves(e, a, g, c)
  {
    hide NodeOk, WellFormed;
    forall k | k in e.nodes
      ensures Same(e, a, g, c, k) || EnteredSince(e, g, c, k, a.top)
    {
      assert Same(e, a, f, b, k) || EnteredSince(e, f, b, k, a.top);
      assert Same(f, b, g, c, k) || EnteredSince(f, g, c, k, b.top);
    }
  }

  /** A change that gives every node it touches a rank of `tr.top` or more; forks and joins are entered only once. */
  ghost predicate Bumps(e: Execution, tr: Trace, f: Execution, tr': Trace)
    requires Shaped(e) && Shaped(f)
  {
    && f.snapshot == e.snapshot && f.nodes.Keys == e.nodes.Keys && tr.credit <= tr'.credit
    && forall k :: k in e.nodes ==> Same(e, tr, f, tr', k) || Bumped(e, tr, tr', k)
  }

  ghost predicate Bumped(e: Execution, tr: Trace, tr': Trace, k: string)
    requires Shaped(e) && k in e.nodes
  {
    && k in tr'.rank && tr'.rank[k] >= tr.top
    && (e.snapshot.nodes[k].kind.Join? || e.snapshot.nodes[k].kind.Fork? ==> k !in tr.rank)
  }

  lemma MovesBump(e: Execution, tr: Trace, f: Execution, tr': Trace)
    requires Shaped(e) && Shaped(f) && Ranked(e, tr) && Moves(e, tr, f, tr')
    ensures Bumps(e, tr, f, tr')
  {
    hide NodeOk, ValidNode;
    forall k | k in e.nodes
      ensures Same(e, tr, f, tr', k) || Bumped(e, tr, tr', k)
    {
      assert Same(e, tr, f, tr', k) || EnteredSince(e, f, tr', k, tr.top);
      if (e.snapshot.nodes[k].kind.Join? || e.snapshot.nodes[k].kind.Fork?) && k in tr.rank {
        EnteredOnce(e, f, k);
      }
    }
  }

  lemma EnteredOnce(e: Execution, f: Execution, t: string)
    requires Shaped(e) && Shaped(f) && f.snapshot == e.snapshot && t in e.nodes && e.nodes[t].visits > 0
    requires e.snapshot.nodes[t].kind.Join? || e.snapshot.nodes[t].kind.Fork?
    ensures f.nodes[t].visits <= e.nodes[t].visits
  {
    assert ValidNode(e.snapshot.nodes[t]) && NodeOk(e.snapshot.nodes[t], f.nodes[t]);
  }

  lemma BlockedStays(e: Execution, tr: Trace, f: Execution, tr': Trace, j: string, lo: nat)
    requires Shaped(e) && Shaped(f) && Bumps(e, tr, f, tr') && lo <= tr.top && Blocked(e, tr, j, lo)
    ensures Blocked(f, tr', j, lo)
  {
    hide NodeOk, WellFormed;
    var p :|
      p in IncomingSources(e.snapshot.edges, j) && p in e.nodes && (!Done(e, p) || (p in tr.rank && tr.rank[p] >= lo));
    assert Same(e, tr, f, tr', p) || Bumped(e, tr, tr', p);
  }

  lemma {:induction false} SteppedStays(
    e: Execution, tr: Trace, f: Execution, tr': Trace, targets: seq<string>, time: nat, stop: nat)
    requires Shaped(e) && Shaped(f) && Bumps(e, tr, f, tr') && stop <= tr.top && Stepped(e, tr, targets, time, stop)
    ensures Stepped(f, tr', targets, time, stop)
    decreases |targets|
  {
    hide NodeOk, WellFormed, Blocked;
    if targets != [] {
      var t, rest := targets[0], targets[1..];
      assert Same(e, tr, f, tr', t) || Bumped(e, tr, tr', t);
      var kind := e.snapshot.nodes[t].kind;
      if (kind.Fork? || kind.Join?) && Passed(tr, t, time) && Stepped(e, tr, rest, tr.end[t], stop) {
        SteppedStays(e, tr, f, tr', rest, tr.end[t], stop);
      } else if kind.Join? {
        BlockedStays(e, tr, f, tr', t, time);
        SteppedStays(e, tr, f, tr', rest, time, stop);
      } else {
        SteppedStays(e, tr, f, tr', rest, time + 1, stop);
      }
    }
  }

  lemma SteppedWork(e: Execution, tr: Trace, key: string, time: nat)
    requires Shaped(e) && key in e.nodes && IsWork(e.snapshot.nodes[key].kind) && key in tr.rank
    requires tr.rank[key] >= time
    ensures Stepped(e, tr, [key], time, time + 1)
  {
    hide NodeOk, WellFormed;
    assert [key][1..] == [] && Stepped(e, tr, [], time + 1, time + 1);
  }

  lemma SteppedPass(e: Execution, tr: Trace, key: string, time: nat)
    requires Shaped(e) && key in e.nodes && (e.snapshot.nodes[key].kind.Fork? || e.snapshot.nodes[key].kind.Join?)
    requires Passed(tr, key, time) && time <= tr.end[key]
    ensures Stepped(e, tr, [key], time, tr.end[key])
  {
    hide NodeOk, WellFormed, Blocked;
    assert [key][1..] == [] && Stepped(e, tr, [], tr.end[key], tr.end[key]);
  }

  /** One more target at the front. */
  lemma SteppedOn(
    e: Execution, tr: Trace, t: string, rest: seq<string>, time: nat, between: nat, stop: nat)
    requires Shaped(e) && Stepped(e, tr, [t], time, between) && Stepped(e, tr, rest, between, stop)
    ensures Stepped(e, tr, [t] + rest, time, stop)
  {
    hide NodeOk, WellFormed, Blocked, Passed;
    assert [t][1..] == [] && ([t] + rest)[1..] == rest;
  }

  /** A node that was routed, and that nothing happened to, stays routed. */
  lemma RoutedStays(e: Execution, tr: Trace, f: Execution, tr': Trace, k: string)
    requires Shaped(e) && Shaped(f) && Timed(tr) && Bumps(e, tr, f, tr')
    requires k in e.nodes && Routed(e, tr, k) && Same(e, tr, f, tr', k)
    ensures Routed(f, tr', k)
  {
    hide NodeOk, WellFormed, Stepped, PossibleChoice, Chosen;
    SteppedStays(e, tr, f, tr', Chosen(e.snapshot, k, tr.choice[k]), tr.rank[k] + 1, tr.end[k]);
  }

  // ---- entering a node --------------------------------------------------------------

  function Bump(tr: Trace, key: string): Trace
  {
    tr.(rank := tr.rank[key := tr.top], end := tr.end - {key}, top := tr.top + 1)
  }

  function AddCredit(tr: Trace, giver: Option<string>, key: string): Trace
  {
    tr.(credit := tr.credit + {(giver, key)})
  }

  lemma CreditorsAfter(tr: Trace, giver: Option<string>, key: string, t: string)
    ensures |Creditors(AddCredit(tr, giver, key), t)| <= |Creditors(tr, t)| + if t == key then 1 else 0
  {
    var tr' := AddCredit(tr, giver, key);
    if t == key {
      assert Creditors(tr', t) == Creditors(tr, t) + {giver};
    } else {
      assert Creditors(tr', t) == Creditors(tr, t);
    }
  }

  /** The trace after `key` was entered; forks and joins complete at once. */
  function EnterTrace(tr: Trace, d: NodeDefinition, giver: Option<string>, key: string): Trace
  {
    var entered := AddCredit(Bump(tr, key), giver, key);
    if d.kind.Fork? || d.kind.Join? then entered.(choice := tr.choice[key := Choice(Success, map[])]) else entered
  }

  /** In the ranks and ends of a trace, entering and completing a node look the same. */
  predicate Restamped(tr: Trace, key: string, tr': Trace)
  {
    && tr'.rank == tr.rank[key := tr.top] && tr'.top == tr.top + 1
    && tr'.end.Keys == tr.end.Keys - {key} && forall k :: k in tr'.end ==> tr'.end[k] == tr.end[k]
  }

  lemma EnterBumps(tr: Trace, d: NodeDefinition, giver: Option<string>, key: string)
    ensures Restamped(tr, key, EnterTrace(tr, d, giver, key))
  {
  }

  lemma BumpTimed(tr: Trace, key: string, tr': Trace)
    requires Timed(tr) && Restamped(tr, key, tr')
    ensures Timed(tr')
  {
  }

  lemma BumpRanked(e: Execution, tr: Trace, key: string, f: Execution, tr': Trace)
    requires Shaped(e) && Shaped(f) && key in e.nodes && key in f.nodes && Ranked(e, tr) && Restamped(tr, key, tr')
    requires f.snapshot == e.snapshot && f.nodes == e.nodes[key := f.nodes[key]] && f.nodes[key].visits > 0
    requires !e.snapshot.nodes[key].kind.Terminal?
    ensures Ranked(f, tr')
  {
    hide NodeOk, WellFormed, OneAtATime;
    RankedOnce(tr.rank, tr.top, key);
  }

  lemma RankedOnce(rank: map<string, nat>, top: nat, key: string)
    requires OneAtATime(rank.Keys, rank) && forall k :: k in rank ==> rank[k] < top
    ensures OneAtATime(rank[key := top].Keys, rank[key := top])
  {
  }

  lemma BumpApart(e: Execution, tr: Trace, key: string, f: Execution, tr': Trace)
    requires Shaped(e) && Shaped(f) && key in e.nodes && key in f.nodes && Restamped(tr, key, tr')
    requires tr.rank.Keys <= e.nodes.Keys && Timed(tr) && Apart(e, tr)
    requires f.snapshot == e.snapshot && f.nodes == e.nodes[key := f.nodes[key]]
    ensures tr'.rank.Keys <= f.nodes.Keys && Timed(tr') && Apart(f, tr')
  {
    hide NodeOk, WellFormed;
    BumpTimed(tr, key, tr');
    forall k | k in tr'.end
      ensures ApartFrom(f, tr', k)
    {
      BumpApartFrom(e, tr, key, f, tr', k);
    }
  }

  lemma BumpApartFrom(e: Execution, tr: Trace, key: string, f: Execution, tr': Trace, k: string)
    requires Shaped(e) && Shaped(f) && key in e.nodes && key in f.nodes && Restamped(tr, key, tr') && k in tr'.end
    requires tr.rank.Keys <= e.nodes.Keys && Timed(tr) && Timed(tr') && Apart(e, tr) && tr'.rank.Keys <= f.nodes.Keys
    requires f.snapshot == e.snapshot && f.nodes == e.nodes[key := f.nodes[key]]
    ensures ApartFrom(f, tr', k)
  {
    hide NodeOk, WellFormed;
    assert k != key && k in tr.end && ApartFrom(e, tr, k);
  }

  /** What entering a node changes. */
  ghost predicate Enters(e: Execution, f: Execution, key: string)
    requires Shaped(e) && key in e.nodes
  {
    && f.snapshot == e.snapshot && key in f.nodes && f.nodes == e.nodes[key := f.nodes[key]]
    && f.nodes[key].visits == e.nodes[key].visits + 1
    && (Done(f, key) <==> e.snapshot.nodes[key].kind.Fork? || e.snapshot.nodes[key].kind.Join?)
  }

  lemma EnterMoves(e: Execution, tr: Trace, giver: Option<string>, key: string, f: Execution)
    requires Shaped(e) && Shaped(f) && key in e.nodes && Enters(e, f, key)
    ensures Moves(e, tr, f, EnterTrace(tr, e.snapshot.nodes[key], giver, key))
  {
    hide NodeOk, WellFormed;
    var tr' := EnterTrace(tr, e.snapshot.nodes[key], giver, key);
    forall k | k in e.nodes
      ensures Same(e, tr, f, tr', k) || EnteredSince(e, f, tr', k, tr.top)
    {
      assert k == key ==> EnteredSince(e, f, tr', k, tr.top);
    }
  }

  lemma EnterTraces(e: Execution, tr: Trace, X: set<string>, giver: Option<string>, key: string, f: Execution)
    requires Shaped(e) && Shaped(f) && key in e.nodes && Enters(e, f, key) && Traced(e, tr, X)
    requires !e.snapshot.nodes[key].kind.Terminal?
    requires e.snapshot.nodes[key].kind.Join? ==> JoinReady(e, key)
    ensures Traced(f, EnterTrace(tr, e.snapshot.nodes[key], giver, key), X + {key})
    ensures !Done(f, key) ==> Traced(f, EnterTrace(tr, e.snapshot.nodes[key], giver, key), X)
  {
    hide NodeOk, WellFormed, Routed, Creditors, Ranked, Timed, SourcesRanked, Moves, Bumps, EnterTrace, Apart;
    hide Restamped;
    var d := e.snapshot.nodes[key];
    var tr' := EnterTrace(tr, d, giver, key);
    EnterMoves(e, tr, giver, key, f);
    EnterBumps(tr, d, giver, key);
    TracedRanked(e, tr, X);
    BumpRanked(e, tr, key, f, tr');
    MovesBump(e, tr, f, tr');
    EnterSources(e, tr, X, giver, key, f);
    RankedKeys(e, tr);
    BumpApart(e, tr, key, f, tr');
    EnterOpen(tr, d, giver, key, X);
    forall k | k in e.nodes && Done(f, k) && k !in X && k != key
      ensures Routed(f, tr', k)
    {
      EnterSame(e, tr, giver, key, f, k);
      RoutedStays(e, tr, f, tr', k);
    }
    forall t | t in f.nodes
      ensures |Creditors(tr', t)| <= f.nodes[t].visits
    {
      EnterCredits(tr, d, giver, key, t);
    }
  }

  lemma EnterOpen(tr: Trace, d: NodeDefinition, giver: Option<string>, key: string, X: set<string>)
    requires X <= tr.rank.Keys && X !! tr.end.Keys
    ensures var tr' := EnterTrace(tr, d, giver, key); X + {key} <= tr'.rank.Keys && X + {key} !! tr'.end.Keys
  {
  }

  lemma EnterSame(e: Execution, tr: Trace, giver: Option<string>, key: string, f: Execution, k: string)
    requires Shaped(e) && key in e.nodes && Enters(e, f, key) && k in e.nodes && k != key
    ensures k in f.nodes && Same(e, tr, f, EnterTrace(tr, e.snapshot.nodes[key], giver, key), k)
  {
    hide NodeOk, WellFormed;
  }

  lemma EnterSources(e: Execution, tr: Trace, X: set<string>, giver: Option<string>, key: string, f: Execution)
    requires Shaped(e) && Shaped(f) && key in e.nodes && Enters(e, f, key) && Traced(e, tr, X)
    requires e.snapshot.nodes[key].kind.Join? ==> JoinReady(e, key)
    ensures var tr' := EnterTrace(tr, e.snapshot.nodes[key], giver, key);
            forall k :: k in f.nodes && k in tr'.rank && f.snapshot.nodes[k].kind.Join? ==> SourcesRanked(f, tr', k)
  {
    hide NodeOk, WellFormed, Routed, Creditors;
    var tr' := EnterTrace(tr, e.snapshot.nodes[key], giver, key);
    forall k | k in f.nodes && k in tr'.rank && f.snapshot.nodes[k].kind.Join?
      ensures SourcesRanked(f, tr', k)
    {
      if k == key {
        ReadySourcesRanked(e, tr, key);
      } else {
        assert SourcesRanked(e, tr, k);
      }
    }
  }

  lemma EnterCredits(tr: Trace, d: NodeDefinition, giver: Option<string>, key: string, t: string)
    ensures |Creditors(EnterTrace(tr, d, giver, key), t)| <= |Creditors(tr, t)| + if t == key then 1 else 0
  {
    CreditorsAfter(tr, giver, key, t);
    assert Creditors(EnterTrace(tr, d, giver, key), t) == Creditors(AddCredit(tr, giver, key), t);
  }

  lemma ReadySourcesRanked(e: Execution, tr: Trace, j: string)
    requires Shaped(e) && Ranked(e, tr) && j in e.nodes && JoinReady(e, j)
    ensures SourcesRanked(e, tr, j)
  {
    forall p | p in IncomingSources(e.snapshot.edges, j)
      ensures p in tr.rank
    {
      assert NodeOk(e.snapshot.nodes[p], e.nodes[p]);
    }
  }

  // ---- activation and routing -------------------------------------------------------

  /** What activating `key` on behalf of `giver` leaves behind, unless the execution ended. */
  ghost predicate ActivationTraced(
    e: Execution, tr: Trace, X: set<string>, giver: Option<string>, key: string, f: Execution, tr': Trace)
    requires Shaped(e) && key in e.nodes && Shaped(f)
  {
    && Traced(f, tr', X) && Moves(e, tr, f, tr')
    && Stepped(f, tr', [key], tr.top, tr'.top)
    && (!e.snapshot.nodes[key].kind.Join? ==> (giver, key) in tr'.credit)
  }

  lemma WaitingJoinTraces(e: Execution, tr: Trace, X: set<string>, giver: Option<string>, key: string)
    requires Shaped(e) && key in e.nodes && Traced(e, tr, X)
    requires e.snapshot.nodes[key].kind.Join? && !JoinReady(e, key)
    ensures ActivationTraced(e, tr, X, giver, key, e, tr)
  {
    hide NodeOk, Traced;
    assert Blocked(e, tr, key, tr.top) by {
      var p :| p in IncomingSources(e.snapshot.edges, key) && !e.nodes[p].status.Succeeded?;
      SourceKnown(e.snapshot, key, p);
    }
    assert [key][1..] == [] && Stepped(e, tr, [], tr.top, tr.top);
    assert forall k :: k in e.nodes ==> Same(e, tr, e, tr, k);
  }

  lemma SourceKnown(s: Snapshot, t: string, p: string)
    requires WellFormed(s) && p in IncomingSources(s.edges, t)
    ensures p in s.nodes
  {
  }

  lemma EnteredEnters(e: Execution, key: string, at: int)
    requires Shaped(e) && key in e.nodes && e.nodes[key].visits < e.snapshot.nodes[key].maxVisits
    requires !e.snapshot.nodes[key].kind.Terminal?
    ensures Shaped(Entered(e, key, at)) && Enters(e, Entered(e, key, at), key)
  {
    EnteredLowers(e, key, at);
  }

  lemma WorkNodeTraces(e: Execution, tr: Trace, X: set<string>, giver: Option<string>, key: string, at: int)
    requires Flowing(e) && key in e.nodes && e.nodes[key].visits < e.snapshot.nodes[key].maxVisits && Traced(e, tr, X)
    requires e.snapshot.nodes[key].kind.Task? || e.snapshot.nodes[key].kind.Approval?
    ensures var tr' := EnterTrace(tr, e.snapshot.nodes[key], giver, key);
            ActivationTraced(e, tr, X, giver, key, Activate(e, key, at), tr')
  {
    hide NodeOk, WellFormed, Traced, Potential;
    EnteredEnters(e, key, at);
    var f := Activate(e, key, at);
    assert Enters(e, f, key);
    EnterTraces(e, tr, X, giver, key, f);
    EnterMoves(e, tr, giver, key, f);
    SteppedWork(f, EnterTrace(tr, e.snapshot.nodes[key], giver, key), key, tr.top);
  }

  /** A fork or join has been passed when its targets have been entered. */
  lemma PassNodeTraces(
    e: Execution, tr: Trace, X: set<string>, giver: Option<string>, key: string, e1: Execution, f: Execution,
    tr': Trace)
    requires Shaped(e) && Shaped(e1) && Shaped(f) && key in e.nodes && Enters(e, e1, key) && Ranked(e, tr)
    requires e.snapshot.nodes[key].kind.Fork? || e.snapshot.nodes[key].kind.Join?
    requires var tr1 := EnterTrace(tr, e.snapshot.nodes[key], giver, key);
             Traced(f, tr', X) && Moves(e1, tr1, f, tr') && key in tr'.end && tr'.end[key] == tr'.top
    ensures ActivationTraced(e, tr, X, giver, key, f, tr')
  {
    hide NodeOk, WellFormed, Traced, ValidNode, Ranked, Stepped, Apart;
    TracedRanked(f, tr', X);
    var tr1 := EnterTrace(tr, e.snapshot.nodes[key], giver, key);
    EnterMoves(e, tr, giver, key, e1);
    MovesCompose(e, tr, e1, tr1, f, tr');
    EnteredOnce(e1, f, key);
    assert Same(e1, tr1, f, tr', key) || EnteredSince(e1, f, tr', key, tr1.top);
    assert Passed(tr', key, tr.top) && tr.top <= tr'.top;
    SteppedPass(f, tr', key, tr.top);
  }

  /** Whatever happens while a node is activated, the trace can be continued. */
  lemma {:induction false} ActivateTraces(
    e: Execution, tr: Trace, X: set<string>, giver: Option<string>, key: string, at: int)
    returns (tr': Trace)
    requires Flowing(e) && key in e.nodes && Traced(e, tr, X)
    requires e.snapshot.nodes[key].kind.Join? ==>
               exists s :: s in IncomingSources(e.snapshot.edges, key) && e.nodes[s].visits > 0
    ensures !IsTerminal(Activate(e, key, at)) ==> ActivationTraced(e, tr, X, giver, key, Activate(e, key, at), tr')
    decreases Potential(e), 0, 0
  {
    hide FailExecution, Conclude, Potential, NodeOk, Traced;
    hide ActivationTraced, Moves, Route, JoinReady, WellFormed, ValidNode;
    var d, n := e.snapshot.nodes[key], e.nodes[key];
    tr' := tr;
    if d.kind.Join? && !JoinReady(e, key) {
      WaitingJoinTraces(e, tr, X, giver, key);
    } else if n.visits >= d.maxVisits {
      assert !Activate(e, key, at).status.WorkflowPending? && IsTerminal(Activate(e, key, at)) by {
        FailedIsTerminal(e, "node visit limit exceeded: " + key, at);
      }
    } else if d.kind.Terminal? {
      TerminalNodeFinishes(e, key, at);
      assert IsTerminal(Activate(e, key, at)) by { FinishedIsTerminal(Activate(e, key, at)); }
    } else if d.kind.Task? || d.kind.Approval? {
      WorkNodeTraces(e, tr, X, giver, key, at);
      tr' := EnterTrace(tr, d, giver, key);
    } else {
      EnteredFlows(e, key, at);
      EnteredLowers(e, key, at);
      EnteredEnters(e, key, at);
      var e1, tr1 := Entered(e, key, at), EnterTrace(tr, d, giver, key);
      EnterTraces(e, tr, X, giver, key, e1);
      assert key !in X by { UnrankedIsOutside(e, tr, X, key); }
      tr' := RouteTraces(e1, tr1, X, key, Success, at, map[]);
      if !IsTerminal(Activate(e, key, at)) {
        assert Ranked(e, tr) by { TracedRanked(e, tr, X); }
        PassIsOver(e1, tr1, key, Activate(e, key, at), tr');
        PassNodeTraces(e, tr, X, giver, key, e1, Activate(e, key, at), tr');
      }
    }
  }

  lemma RankedKeys(e: Execution, tr: Trace)
    requires Shaped(e) && Ranked(e, tr)
    ensures tr.rank.Keys <= e.nodes.Keys
  {
  }

  lemma UnrankedIsOutside(e: Execution, tr: Trace, X: set<string>, key: string)
    requires Shaped(e) && Traced(e, tr, X) && key in e.nodes && e.nodes[key].visits < e.snapshot.nodes[key].maxVisits
    requires e.snapshot.nodes[key].kind.Fork? || e.snapshot.nodes[key].kind.Join?
    ensures key !in X
  {
    assert ValidNode(e.snapshot.nodes[key]);
  }

  /** A fork or join that was entered stays completed. */
  lemma PassIsOver(e: Execution, tr: Trace, key: string, f: Execution, tr': Trace)
    requires Shaped(e) && Shaped(f) && Moves(e, tr, f, tr') && key in e.nodes && Done(e, key) && e.nodes[key].visits > 0
    requires e.snapshot.nodes[key].kind.Fork? || e.snapshot.nodes[key].kind.Join?
    ensures Done(f, key)
  {
    hide NodeOk, WellFormed;
    EnteredOnce(e, f, key);
    assert Same(e, tr, f, tr', key) || EnteredSince(e, f, tr', key, tr.top);
  }

  lemma FailedIsTerminal(e: Execution, reason: string, at: int)
    ensures IsTerminal(FailExecution(e, reason, at)) && !FailExecution(e, reason, at).status.WorkflowPending?
  {
  }

  lemma FinishedIsTerminal(e: Execution)
    requires Finished(e)
    ensures IsTerminal(e)
  {
  }

  lemma TracedRanked(e: Execution, tr: Trace, X: set<string>)
    requires Shaped(e) && Traced(e, tr, X)
    ensures Ranked(e, tr) && Timed(tr) && Apart(e, tr)
  {
  }

  /** A node that has just completed and is about to be routed. */
  ghost predicate JustDone(e: Execution, tr: Trace, k: string, c: Choice)
    requires Shaped(e)
  {
    && k in e.nodes && Done(e, k) && e.nodes[k].visits > 0 && k in tr.rank && tr.rank[k] + 1 == tr.top
    && k in tr.choice && tr.choice[k] == c && PossibleChoice(e.snapshot.nodes[k].kind, c)
  }

  /** The routing of `k` is over. */
  function Close(tr: Trace, k: string): Trace
  {
    tr.(end := tr.end[k := tr.top])
  }

  lemma {:induction false} RouteTraces(
    e: Execution, tr: Trace, X: set<string>, source: string, outcome: Outcome, at: int, output: Artifact)
    returns (tr': Trace)
    requires Flowing(e) && source !in X && Traced(e, tr, X + {source})
    requires JustDone(e, tr, source, Choice(outcome, output))
    ensures var f := Route(e, source, outcome, at, output);
            !IsTerminal(f) ==>
              && Traced(f, tr', X) && Moves(e, tr, f, tr')
              && (Done(f, source) ==> source in tr'.end && tr'.end[source] == tr'.top)
    decreases Potential(e), 2, 0
  {
    hide FailExecution, Potential, NodeOk, Traced, Moves, ActivateAll, WellFormed, ValidNode;
    var edges := RouteEdges(e.snapshot.edges, source, outcome);
    var targets := SelectTargets(edges, output);
    tr' := tr;
    if targets == [] {
      FailedIsTerminal(e, NoEdgeReason(edges, source, outcome), at);
    } else {
      RouteTargetsKnown(e.snapshot, source, outcome, output);
      var tr1 := ActivateAllTraces(e, tr, X + {source}, source, targets, at);
      var f := ActivateAll(e, targets, at);
      if !IsTerminal(f) {
        tr' := if Done(f, source) then Close(tr1, source) else tr1;
        TracedRanked(e, tr, X + {source});
        TracedOpen(e, tr, X + {source}, source);
        RoutedAtLast(e, tr, X, source, Choice(outcome, output), f, tr1);
      }
    }
  }

  lemma TracedOpen(e: Execution, tr: Trace, X: set<string>, source: string)
    requires Shaped(e) && Traced(e, tr, X) && source in X
    ensures source !in tr.end
  {
  }

  /** When all its targets have been reached, the source itself is routed, unless it was entered again. */
  lemma RoutedAtLast(e: Execution, tr: Trace, X: set<string>, source: string, c: Choice, f: Execution, tr1: Trace)
    requires Shaped(e) && Shaped(f) && JustDone(e, tr, source, c) && Moves(e, tr, f, tr1) && Ranked(e, tr)
    requires source !in X && source !in tr.end && Traced(f, tr1, X + {source})
    requires var targets := Chosen(e.snapshot, source, c);
             && targets != [] && Stepped(f, tr1, targets, tr.top, tr1.top)
             && forall t :: t in targets ==> Credited(f, tr1, source, t)
    ensures var tr' := if Done(f, source) then Close(tr1, source) else tr1;
            Traced(f, tr', X) && Moves(e, tr, f, tr')
  {
    hide NodeOk, WellFormed, Stepped, Credited, Chosen, Creditors, Ranked, Apart, SourcesRanked, PossibleChoice;
    if Done(f, source) {
      assert Same(e, tr, f, tr1, source) by {
        if !Same(e, tr, f, tr1, source) {
          assert EnteredSince(e, f, tr1, source, tr.top);
          PossibleKinds(e.snapshot.nodes[source].kind, c);
          EnteredOnce(e, f, source);
          assert false;
        }
      }
      TracedRanked(f, tr1, X + {source});
      CloseBumps(source, f, tr1);
      CloseApart(e, tr, source, f, tr1);
      SteppedStays(f, tr1, f, Close(tr1, source), Chosen(e.snapshot, source, c), tr.top, tr1.top);
      CloseCredits(source, f, tr1, Chosen(e.snapshot, source, c));
      assert Routed(f, Close(tr1, source), source);
      CloseTraces(X, source, f, tr1);
      CloseMoves(e, tr, source, f, tr1);
    }
  }

  lemma PossibleKinds(kind: NodeKind, c: Choice)
    requires PossibleChoice(kind, c)
    ensures !kind.Terminal?
  {
  }

  lemma CloseCredits(source: string, f: Execution, tr: Trace, targets: seq<string>)
    requires Shaped(f) && forall t :: t in targets ==> Credited(f, tr, source, t)
    ensures forall t :: t in targets ==> Credited(f, Close(tr, source), source, t)
  {
    hide NodeOk, WellFormed;
  }

  lemma CloseBumps(source: string, f: Execution, tr: Trace)
    requires Shaped(f) && source !in tr.end && source in tr.rank && Ranked(f, tr) && Timed(tr)
    ensures Bumps(f, tr, f, Close(tr, source)) && Timed(Close(tr, source)) && Ranked(f, Close(tr, source))
  {
    hide NodeOk, WellFormed;
    assert forall k :: k in f.nodes ==> Same(f, tr, f, Close(tr, source), k);
  }

  /** Nothing else was completed since the source was. */
  lemma LastCompleted(e: Execution, tr: Trace, source: string, f: Execution, tr1: Trace, l: string)
    requires Shaped(e) && Shaped(f) && Moves(e, tr, f, tr1) && Ranked(e, tr) && source in e.nodes && l in e.nodes
    requires source in tr.rank && tr.rank[source] + 1 == tr.top && Same(e, tr, f, tr1, source)
    requires l in tr1.rank && l != source && IsWork(f.snapshot.nodes[l].kind) && Done(f, l)
    ensures source in tr1.rank && tr1.rank[l] < tr1.rank[source]
  {
    hide NodeOk, WellFormed;
    assert Same(e, tr, f, tr1, l) || EnteredSince(e, f, tr1, l, tr.top);
  }

  lemma CloseApart(e: Execution, tr: Trace, source: string, f: Execution, tr1: Trace)
    requires Shaped(e) && Shaped(f) && Moves(e, tr, f, tr1) && Ranked(e, tr) && source in e.nodes
    requires source in tr.rank && tr.rank[source] + 1 == tr.top && Same(e, tr, f, tr1, source)
    requires tr1.rank.Keys <= f.nodes.Keys && Timed(tr1) && Apart(f, tr1) && Timed(Close(tr1, source))
    ensures Apart(f, Close(tr1, source))
  {
    hide NodeOk, WellFormed, Moves, Ranked, Same;
    assert f.nodes.Keys == e.nodes.Keys by { MovesKeys(e, tr, f, tr1); }
    forall l | l in tr1.rank && l != source && IsWork(f.snapshot.nodes[l].kind) && Done(f, l)
      ensures tr1.rank[l] < tr1.rank[source]
    {
      LastCompleted(e, tr, source, f, tr1, l);
    }
    assert ApartFrom(f, Close(tr1, source), source);
    forall k | k in tr1.end && k != source
      ensures ApartFrom(f, Close(tr1, source), k)
    {
      assert ApartFrom(f, tr1, k);
    }
  }

  lemma MovesKeys(e: Execution, tr: Trace, f: Execution, tr': Trace)
    requires Shaped(e) && Shaped(f) && Moves(e, tr, f, tr')
    ensures f.nodes.Keys == e.nodes.Keys
  {
  }

  lemma CloseTraces(X: set<string>, source: string, f: Execution, tr1: Trace)
    requires Shaped(f) && source in f.nodes && source !in X && Traced(f, tr1, X + {source})
    requires Ranked(f, Close(tr1, source)) && Timed(Close(tr1, source)) && Apart(f, Close(tr1, source))
    requires Bumps(f, tr1, f, Close(tr1, source)) && Routed(f, Close(tr1, source), source)
    ensures Traced(f, Close(tr1, source), X)
  {
    hide NodeOk, WellFormed, Routed, Creditors, Ranked, Timed, Apart, SourcesRanked, Bumps;
    var tr' := Close(tr1, source);
    forall k | k in f.nodes && Done(f, k) && k !in X && k != source
      ensures Routed(f, tr', k)
    {
      CloseSame(source, f, tr1, k);
      RoutedStays(f, tr1, f, tr', k);
    }
    forall k | k in f.nodes && k in tr'.rank && f.snapshot.nodes[k].kind.Join?
      ensures SourcesRanked(f, tr', k)
    {
      assert SourcesRanked(f, tr1, k);
      SourcesRankedFrame(f, tr1, tr', k);
    }
    SameCredit(tr1, tr');
  }

  lemma SourcesRankedFrame(f: Execution, tr: Trace, tr': Trace, k: string)
    requires SourcesRanked(f, tr, k) && tr'.rank == tr.rank
    ensures SourcesRanked(f, tr', k)
  {
  }

  lemma CloseSame(source: string, f: Execution, tr: Trace, k: string)
    requires Shaped(f) && k in f.nodes && k != source
    ensures Same(f, tr, f, Close(tr, source), k)
  {
  }

  lemma CloseMoves(e: Execution, tr: Trace, source: string, f: Execution, tr1: Trace)
    requires Shaped(e) && Shaped(f) && Moves(e, tr, f, tr1) && source in e.nodes && source !in tr.end
    ensures Moves(e, tr, f, Close(tr1, source))
  {
    hide NodeOk, WellFormed;
    forall k | k in e.nodes
      ensures Same(e, tr, f, Close(tr1, source), k) || EnteredSince(e, f, Close(tr1, source), k, tr.top)
    {
      assert Same(e, tr, f, tr1, k) || EnteredSince(e, f, tr1, k, tr.top);
    }
  }

  lemma {:induction false} ActivateAllTraces(
    e: Execution, tr: Trace, X: set<string>, source: string, targets: seq<string>, at: int) returns (tr': Trace)
    requires Flowing(e) && Traced(e, tr, X) && source in e.nodes && e.nodes[source].visits > 0
    requires targets != []
    requires forall t :: t in targets ==> t in e.nodes && source in IncomingSources(e.snapshot.edges, t)
    ensures var f := ActivateAll(e, targets, at);
            !IsTerminal(f) ==>
              && Traced(f, tr', X) && Moves(e, tr, f, tr') && Stepped(f, tr', targets, tr.top, tr'.top)
              && forall t :: t in targets ==> Credited(f, tr', source, t)
    decreases Potential(e), 1, |targets|
  {
    hide Potential, NodeOk, Traced, Moves, Activate, WellFormed, ValidNode, Stepped, Credited;
    var e1 := Activate(e, targets[0], at);
    ActivateSettles(e, targets[0], at);
    var tr1 := ActivateTraces(e, tr, X, Some(source), targets[0], at);
    tr' := tr1;
    if !IsTerminal(e1) {
      FirstStepped(e, tr, X, source, targets[0], e1, tr1);
      assert targets == [targets[0]] + targets[1..];
      if targets[1..] == [] {
        assert ActivateAll(e1, targets[1..], at) == e1;
        assert targets == [targets[0]];
      } else {
        tr' := ActivateAllTraces(e1, tr1, X, source, targets[1..], at);
        var f := ActivateAll(e1, targets[1..], at);
        if !IsTerminal(f) {
          TargetsStay(e, tr, X, source, targets, e1, tr1, f, tr');
        }
      }
    }
  }

  lemma FirstStepped(e: Execution, tr: Trace, X: set<string>, source: string, key: string, f: Execution, tr': Trace)
    requires Shaped(e) && key in e.nodes && Shaped(f) && ActivationTraced(e, tr, X, Some(source), key, f, tr')
    ensures Stepped(f, tr', [key], tr.top, tr'.top) && Moves(e, tr, f, tr') && Traced(f, tr', X)
    ensures Credited(f, tr', source, key)
  {
    hide NodeOk, WellFormed, Traced, Stepped;
  }

  lemma TargetsStay(
    e: Execution, tr: Trace, X: set<string>, source: string, targets: seq<string>, e1: Execution, tr1: Trace,
    f: Execution, tr': Trace)
    requires Shaped(e) && Shaped(e1) && Shaped(f) && targets != [] && Traced(e1, tr1, X)
    requires Moves(e, tr, e1, tr1) && Moves(e1, tr1, f, tr')
    requires Stepped(e1, tr1, [targets[0]], tr.top, tr1.top) && Credited(e1, tr1, source, targets[0])
    requires Stepped(f, tr', targets[1..], tr1.top, tr'.top)
    requires forall t :: t in targets[1..] ==> Credited(f, tr', source, t)
    ensures Moves(e, tr, f, tr') && Stepped(f, tr', targets, tr.top, tr'.top)
    ensures forall t :: t in targets ==> Credited(f, tr', source, t)
  {
    hide NodeOk, WellFormed, Routed, Creditors, Stepped;
    MovesCompose(e, tr, e1, tr1, f, tr');
    MovesBump(e1, tr1, f, tr');
    SteppedStays(e1, tr1, f, tr', [targets[0]], tr.top, tr1.top);
    SteppedOn(f, tr', targets[0], targets[1..], tr.top, tr1.top, tr'.top);
    assert targets == [targets[0]] + targets[1..];
  }

  // ---- engine calls -----------------------------------------------------------------

  /** Only an unfinished node changed, within its visit. */
  lemma QuietStepTraces(e: Execution, tr: Trace, key: string, f: Execution)
    requires Shaped(e) && Shaped(f) && Traced(e, tr, {}) && key in e.nodes && key in f.nodes
    requires f.snapshot == e.snapshot && f.nodes == e.nodes[key := f.nodes[key]]
    requires f.nodes[key].visits == e.nodes[key].visits && !Done(e, key) && !Done(f, key)
    ensures Traced(f, tr, {})
  {
    hide NodeOk, WellFormed, Routed, Creditors;
    assert forall k :: k in e.nodes ==> Same(e, tr, f, tr, k);
    forall k | k in f.nodes && Done(f, k)
      ensures Routed(f, tr, k)
    {
      RoutedStays(e, tr, f, tr, k);
    }
    forall k | k in f.nodes && k in tr.rank && f.snapshot.nodes[k].kind.Join?
      ensures SourcesRanked(f, tr, k)
    {
      assert SourcesRanked(e, tr, k);
    }
  }

  function DoneTrace(tr: Trace, key: string, c: Choice): Trace
  {
    Bump(tr, key).(choice := tr.choice[key := c])
  }

  /** A task or approval completes; it is still to be routed. */
  lemma DoneStepTraces(e: Execution, tr: Trace, key: string, c: Choice, f: Execution)
    requires Shaped(e) && Shaped(f) && Traced(e, tr, {}) && key in e.nodes && key in f.nodes
    requires f.snapshot == e.snapshot && f.nodes == e.nodes[key := f.nodes[key]]
    requires f.nodes[key].visits == e.nodes[key].visits > 0 && !Done(e, key) && Done(f, key)
    requires PossibleChoice(e.snapshot.nodes[key].kind, c) && IsWork(e.snapshot.nodes[key].kind)
    ensures Traced(f, DoneTrace(tr, key, c), {key}) && JustDone(f, DoneTrace(tr, key, c), key, c)
  {
    hide Traced, NodeOk, WellFormed, PossibleChoice;
    DoneTraces(e, tr, key, c, f);
  }

  lemma DoneTraces(e: Execution, tr: Trace, key: string, c: Choice, f: Execution)
    requires Shaped(e) && Shaped(f) && Traced(e, tr, {}) && key in e.nodes && key in f.nodes
    requires f.snapshot == e.snapshot && f.nodes == e.nodes[key := f.nodes[key]]
    requires f.nodes[key].visits == e.nodes[key].visits > 0 && IsWork(e.snapshot.nodes[key].kind)
    ensures Traced(f, DoneTrace(tr, key, c), {key})
  {
    hide NodeOk, WellFormed, Routed, Creditors, PossibleChoice, Ranked, Bumps, Timed, Apart, SourcesRanked;
    hide Restamped;
    var tr' := DoneTrace(tr, key, c);
    TracedRanked(e, tr, {});
    DoneBumped(tr, key, c);
    RankedKeys(e, tr);
    BumpRanked(e, tr, key, f, tr');
    BumpApart(e, tr, key, f, tr');
    DoneBumps(e, tr, key, c, f);
    forall k | k in f.nodes && Done(f, k) && k != key
      ensures Routed(f, tr', k)
    {
      DoneRouted(e, tr, key, c, f, k);
    }
    DoneSources(e, tr, key, c, f);
    SameCredit(tr, tr');
  }

  lemma DoneRouted(e: Execution, tr: Trace, key: string, c: Choice, f: Execution, k: string)
    requires Shaped(e) && Shaped(f) && Traced(e, tr, {}) && key in e.nodes && key in f.nodes
    requires f.snapshot == e.snapshot && f.nodes == e.nodes[key := f.nodes[key]]
    requires Bumps(e, tr, f, DoneTrace(tr, key, c)) && k in e.nodes && Done(e, k) && k != key
    ensures Routed(f, DoneTrace(tr, key, c), k)
  {
    hide NodeOk, WellFormed, Routed, Creditors, Ranked, Bumps, Apart, SourcesRanked, DoneTrace;
    DoneSame(e, tr, key, c, f, k);
    RoutedStays(e, tr, f, DoneTrace(tr, key, c), k);
  }

  lemma DoneSources(e: Execution, tr: Trace, key: string, c: Choice, f: Execution)
    requires Shaped(e) && Traced(e, tr, {}) && key in e.nodes && !e.snapshot.nodes[key].kind.Join?
    requires f.snapshot == e.snapshot
    ensures forall k :: k in e.nodes && k in DoneTrace(tr, key, c).rank && e.snapshot.nodes[k].kind.Join? ==>
              SourcesRanked(f, DoneTrace(tr, key, c), k)
  {
    hide NodeOk, WellFormed, Routed, Creditors, Ranked, Timed, Apart;
    forall k | k in e.nodes && k in DoneTrace(tr, key, c).rank && e.snapshot.nodes[k].kind.Join?
      ensures SourcesRanked(f, DoneTrace(tr, key, c), k)
    {
      assert SourcesRanked(e, tr, k);
    }
  }

  lemma DoneBumps(e: Execution, tr: Trace, key: string, c: Choice, f: Execution)
    requires Shaped(e) && Shaped(f) && Ranked(e, tr) && key in e.nodes && key in f.nodes
    requires f.snapshot == e.snapshot && f.nodes == e.nodes[key := f.nodes[key]] && IsWork(e.snapshot.nodes[key].kind)
    ensures Bumps(e, tr, f, DoneTrace(tr, key, c))
  {
    hide NodeOk, WellFormed;
  }

  lemma DoneSame(e: Execution, tr: Trace, key: string, c: Choice, f: Execution, k: string)
    requires key in e.nodes && key in f.nodes && f.nodes == e.nodes[key := f.nodes[key]] && k in e.nodes && k != key
    ensures k in f.nodes && Same(e, tr, f, DoneTrace(tr, key, c), k)
  {
  }

  lemma SameCredit(tr: Trace, tr': Trace)
    requires tr'.credit == tr.credit
    ensures forall t :: Creditors(tr', t) == Creditors(tr, t)
  {
  }

  lemma DoneBumped(tr: Trace, key: string, c: Choice)
    ensures Restamped(tr, key, DoneTrace(tr, key, c))
  {
  }

  lemma ActiveVisited(e: Execution, key: string)
    requires Shaped(e) && key in e.nodes && Active(e.nodes[key])
    ensures e.nodes[key].visits > 0 && !Done(e, key)
    ensures e.nodes[key].status.AwaitingApproval? ==> e.snapshot.nodes[key].kind.Approval?
    ensures !e.nodes[key].status.AwaitingApproval? ==> e.snapshot.nodes[key].kind.Task?
  {
    assert NodeOk(e.snapshot.nodes[key], e.nodes[key]);
  }

  lemma CompleteTraces(
    e: Execution, tr: Trace, key: string, outcome: Outcome, output: Option<Artifact>, lease: Option<int>, at: int)
    returns (tr': Trace)
    requires Settled(e) && Traced(e, tr, {}) && CompleteTask(e, key, outcome, output, lease, at).Ok?
    ensures var f := CompleteTask(e, key, outcome, output, lease, at).value;
            !IsTerminal(f) ==> Traced(f, tr', {}) && tr.credit <= tr'.credit && tr.rank.Keys <= tr'.rank.Keys
  {
    hide Route, Potential, Traced, HasActive, HasStarvedJoin, NothingAborted, AwaitingIsBacked;
    var e1 := Touch(SetNode(e, key, CompleteNode(e.nodes[key], outcome, output, at)), at);
    var c := Choice(outcome, ArtifactOf(output));
    ActiveVisited(e, key);
    CompletedFlows(e, key, outcome, output, at, e1);
    DoneStepTraces(e, tr, key, c, e1);
    assert {} + {key} == {key};
    var tr1 := DoneTrace(tr, key, c);
    tr' := RouteTraces(e1, tr1, {}, key, outcome, at, ArtifactOf(output));
    var f := Route(e1, key, outcome, at, ArtifactOf(output));
    if !IsTerminal(f) {
      MovesKeepsRanks(e1, tr1, f, tr', {key});
    }
  }

  lemma MovesKeepsRanks(e: Execution, tr: Trace, f: Execution, tr': Trace, X: set<string>)
    requires Shaped(e) && Shaped(f) && Moves(e, tr, f, tr') && Traced(e, tr, X)
    ensures tr.credit <= tr'.credit && tr.rank.Keys <= tr'.rank.Keys
  {
    hide NodeOk, WellFormed, Routed, Creditors;
    forall k | k in tr.rank
      ensures k in tr'.rank
    {
      assert Same(e, tr, f, tr', k) || EnteredSince(e, f, tr', k, tr.top);
    }
  }

  lemma ResolveTraces(e: Execution, tr: Trace, key: string, approved: bool, at: int) returns (tr': Trace)
    requires Settled(e) && Traced(e, tr, {}) && ResolveApproval(e, key, approved, at).Ok?
    ensures var f := ResolveApproval(e, key, approved, at).value;
            !IsTerminal(f) ==> Traced(f, tr', {}) && tr.credit <= tr'.credit && tr.rank.Keys <= tr'.rank.Keys
  {
    hide Route, Potential, Traced, HasActive, HasStarvedJoin, NothingAborted, AwaitingIsBacked;
    var outcome := if approved then Approved else Rejected;
    var e1 := Touch(SetNode(e, key, ResolveNode(e.nodes[key], outcome, at)).(status := WorkflowRunning), at);
    var c := Choice(outcome, map[]);
    ActiveVisited(e, key);
    ResolvedFlows(e, key, outcome, at, e1);
    DoneStepTraces(e, tr, key, c, e1);
    assert {} + {key} == {key};
    var tr1 := DoneTrace(tr, key, c);
    tr' := RouteTraces(e1, tr1, {}, key, outcome, at, map[]);
    var f := Route(e1, key, outcome, at, map[]);
    if !IsTerminal(f) {
      MovesKeepsRanks(e1, tr1, f, tr', {key});
    }
  }

  const NO_TRACE: Trace := Trace(map[], map[], 0, map[], {})

  lemma StartTraces(e: Execution, at: int) returns (tr: Trace)
    requires Settled(e) && StartExecution(e, at).Ok?
    ensures var f := StartExecution(e, at).value;
            !IsTerminal(f) ==> Shaped(f) && Traced(f, tr, {}) && Started(f, tr)
  {
    hide Activate, Potential;
    var e1 := Touch(e.(status := WorkflowRunning, startedAt := Some(at)), at);
    assert Flowing(e1);
    assert Traced(e1, NO_TRACE, {}) by { NothingTraced(e1); }
    tr := ActivateTraces(e1, NO_TRACE, {}, None, e.snapshot.entry, at);
    var f := Activate(e1, e.snapshot.entry, at);
    if !IsTerminal(f) {
      assert Stepped(f, tr, [e.snapshot.entry], 0, tr.top);
    }
  }

  lemma NothingTraced(e: Execution)
    requires Shaped(e) && forall k :: k in e.nodes ==> e.nodes[k].status.Pending?
    ensures Traced(e, NO_TRACE, {})
  {
    forall k | k in e.nodes
      ensures e.nodes[k].visits == 0
    {
      assert NodeOk(e.snapshot.nodes[k], e.nodes[k]);
    }
    assert forall t :: Creditors(NO_TRACE, t) == {};
  }

  lemma FailureTraces(e: Execution, tr: Trace, key: string, reason: string, at: int)
    requires Settled(e) && Traced(e, tr, {}) && key in e.nodes && e.nodes[key].status.Running?
    ensures var f := HandleTaskFailure(e, key, reason, at);
            !IsTerminal(f) ==> Shaped(f) && Traced(f, tr, {})
  {
    hide FailExecution, Traced, Potential;
    FailureSettles(e, key, reason, at);
    var f := HandleTaskFailure(e, key, reason, at);
    if e.nodes[key].attempts < e.snapshot.nodes[key].maxAttempts {
      QuietStepTraces(e, tr, key, f);
    } else {
      var n := ClearLease(e.nodes[key]).(status := Failed, completedAt := Some(at), updatedAt := at);
      FailedIsTerminal(SetNode(e, key, n), FailureReason(reason), at);
    }
  }

  /** Begin, claim and renew touch one unfinished task. */
  lemma TaskStepTraces(e: Execution, tr: Trace, op: Operation, at: int)
    requires Settled(e) && Traced(e, tr, {}) && (op.Begin? || op.Claim? || op.Renew?) && Apply(e, op, at).Ok?
    ensures var f := Apply(e, op, at).value; Shaped(f) && Traced(f, tr, {})
  {
    hide Traced, Potential, Flowing, HasActive, HasStarvedJoin;
    SettledShaped(e);
    ApplySettles(e, op, at);
    var f := Apply(e, op, at).value;
    assert Shaped(f) by { SettledShaped(f); }
    assert f.nodes == e.nodes[op.key := f.nodes[op.key]];
    QuietStepTraces(e, tr, op.key, f);
  }

  lemma SettledShaped(e: Execution)
    requires Settled(e)
    ensures Shaped(e)
  {
  }

  /** Every accepted call on a started execution continues its trace. */
  lemma ApplyTraces(e: Execution, op: Operation, at: int, tr: Trace) returns (tr': Trace)
    requires Settled(e) && !e.status.WorkflowPending? && Traced(e, tr, {}) && Started(e, tr) && Apply(e, op, at).Ok?
    ensures var f := Apply(e, op, at).value;
            !IsTerminal(f) ==> Shaped(f) && Traced(f, tr', {}) && Started(f, tr')
  {
    hide Traced, BeginTask, ClaimTask, RenewLease, CompleteTask, ResolveApproval, CancelExecution, HandleTaskFailure;
    hide Flowing, Finished, HasActive, HasStarvedJoin;
    SettledShaped(e);
    ApplySettles(e, op, at);
    var f := Apply(e, op, at).value;
    tr' := tr;
    match op {
      case Start => assert false;
      case Complete(key, outcome, output, lease) => tr' := CompleteTraces(e, tr, key, outcome, output, lease, at);
      case FailTask(key, reason, lease) => FailureTraces(e, tr, key, reason, at);
      case Expire(key) => FailureTraces(e, tr, key, "task lease expired", at);
      case Resolve(key, approved) => tr' := ResolveTraces(e, tr, key, approved, at);
      case Cancel => CancelledIsTerminal(e, at);
      case _ => TaskStepTraces(e, tr, op, at);
    }
    SettledShaped(f);
  }

  lemma CancelledIsTerminal(e: Execution, at: int)
    ensures CancelExecution(e, at).Ok? ==> IsTerminal(CancelExecution(e, at).value)
  {
  }

  // ---- every history ----------------------------------------------------------------

  /** Pending, ended, or traced. */
  ghost predicate HasTrace(e: Execution)
    requires Settled(e)
  {
    e.status.WorkflowPending? || IsTerminal(e) || exists tr :: Traced(e, tr, {}) && Started(e, tr)
  }

  lemma ApplyKeepsTrace(e: Execution, op: Operation, at: int)
    requires Settled(e) && HasTrace(e) && Apply(e, op, at).Ok?
    ensures Settled(Apply(e, op, at).value) && HasTrace(Apply(e, op, at).value)
  {
    hide Traced, Started, Apply, Flowing, Finished, HasActive, HasStarvedJoin;
    SettledShaped(e);
    ApplySettles(e, op, at);
    var f := Apply(e, op, at).value;
    if e.status.WorkflowPending? {
      PendingStarts(e, op, at);
      if op.Start? {
        var tr := StartTraces(e, at);
        assert !IsTerminal(f) ==> Traced(f, tr, {}) && Started(f, tr);
      }
    } else {
      var tr :| Traced(e, tr, {}) && Started(e, tr);
      var tr' := ApplyTraces(e, op, at, tr);
      assert !IsTerminal(f) ==> Traced(f, tr', {}) && Started(f, tr');
    }
  }

  /** The only calls a pending execution accepts. */
  lemma PendingStarts(e: Execution, op: Operation, at: int)
    requires Settled(e) && e.status.WorkflowPending? && Apply(e, op, at).Ok?
    ensures (op.Start? && Apply(e, op, at) == StartExecution(e, at)) || IsTerminal(Apply(e, op, at).value)
  {
    hide StartExecution;
    match op {
      case Start =>
      case Cancel =>
      case _ => assert false;
    }
  }

  lemma {:induction false} ReplayKeepsTrace(e: Execution, history: seq<(Operation, int)>)
    requires Settled(e) && HasTrace(e)
    ensures HasTrace(Replay(e, history))
    decreases |history|
  {
    hide HasTrace, Apply, Shaped, Flowing, Finished, HasActive, HasStarvedJoin;
    assert Shaped(e) by { SettledShaped(e); }
    if history != [] {
      ApplySettles(e, history[0].0, history[0].1);
      match Apply(e, history[0].0, history[0].1) {
        case Ok(f) =>
          ApplyKeepsTrace(e, history[0].0, history[0].1);
          ReplayKeepsTrace(f, history[1..]);
        case Err(_) => ReplayKeepsTrace(e, history[1..]);
      }
    }
  }

  // ---- stuck means starving ---------------------------------------------------------

  /** In a stuck execution every node is finished or was never entered. */
  lemma StuckNodes(e: Execution, tr: Trace, k: string)
    requires Settled(e) && Stuck(e) && Shaped(e) && Ranked(e, tr) && k in e.nodes
    ensures Done(e, k) <==> k in tr.rank
  {
    assert NodeOk(e.snapshot.nodes[k], e.nodes[k]);
    assert !Active(e.nodes[k]);
  }

  lemma {:induction false} SomeCount(V: set<string>, C: set<Option<string>>)
    requires forall k :: k in V ==> Some(k) in C
    ensures |V| <= |C|
    ensures None in C ==> |V| + 1 <= |C|
  {
    if V != {} {
      var k :| k in V;
      SomeCount(V - {k}, C - {Some(k)});
    } else if None in C {
      assert C == (C - {None}) + {None};
    }
  }

  /** The plan that a stuck execution leaves behind. */
  function PlanOf(s: Snapshot, tr: Trace): Plan
  {
    Plan(s, tr.rank.Keys, tr.choice, tr.rank, tr.end)
  }

  lemma StuckVisitsFit(e: Execution, tr: Trace, t: string)
    requires Settled(e) && Stuck(e) && Shaped(e) && Traced(e, tr, {}) && Started(e, tr)
    requires Mapped(PlanOf(e.snapshot, tr)) && t in tr.rank && !e.snapshot.nodes[t].kind.Join?
    ensures |Choosers(PlanOf(e.snapshot, tr), t)| + (if t == e.snapshot.entry then 1 else 0)
            <= e.snapshot.nodes[t].maxVisits
  {
    hide Settled, Stuck, Stepped, PossibleChoice, Ranked, Apart, Chosen;
    var choosers := Choosers(PlanOf(e.snapshot, tr), t);
    forall k | k in choosers
      ensures Some(k) in Creditors(tr, t)
    {
      assert k in e.nodes && Done(e, k) by { RankedKnown(e, tr, k); StuckNodes(e, tr, k); }
      assert Routed(e, tr, k);
      assert Credited(e, tr, k, t);
      assert (Some(k), t) in tr.credit;
    }
    if t == e.snapshot.entry {
      assert (None, t) in tr.credit;
    }
    SomeCount(choosers, Creditors(tr, t));
    RankedKnown(e, tr, t);
    assert NodeOk(e.snapshot.nodes[t], e.nodes[t]);
  }

  lemma RankedKnown(e: Execution, tr: Trace, k: string)
    requires Shaped(e) && Ranked(e, tr) && k in tr.rank
    ensures k in e.nodes && k in e.snapshot.nodes && !e.snapshot.nodes[k].kind.Terminal?
  {
  }

  /** What was entered by a node of a stuck execution is what its plan says. */
  lemma {:induction false} StuckWalks(e: Execution, tr: Trace, targets: seq<string>, time: nat, stop: nat)
    requires Settled(e) && Stuck(e) && Shaped(e) && Ranked(e, tr) && Mapped(PlanOf(e.snapshot, tr))
    requires Stepped(e, tr, targets, time, stop)
    ensures Walks(PlanOf(e.snapshot, tr), targets, time, stop)
    decreases |targets|
  {
    hide Settled, Stuck, Ranked, NodeOk, WellFormed, Blocked, Waits;
    if targets != [] {
      var t, rest := targets[0], targets[1..];
      var kind := e.snapshot.nodes[t].kind;
      if (kind.Fork? || kind.Join?) && Passed(tr, t, time) && Stepped(e, tr, rest, tr.end[t], stop) {
        StuckWalks(e, tr, rest, tr.end[t], stop);
      } else if kind.Join? {
        StuckWaits(e, tr, t, time);
        StuckWalks(e, tr, rest, time, stop);
      } else {
        StuckWalks(e, tr, rest, time + 1, stop);
      }
    }
  }

  lemma StuckWaits(e: Execution, tr: Trace, j: string, time: nat)
    requires Settled(e) && Stuck(e) && Shaped(e) && Ranked(e, tr) && Mapped(PlanOf(e.snapshot, tr))
    requires Blocked(e, tr, j, time)
    ensures Waits(PlanOf(e.snapshot, tr), j, time)
  {
    hide Settled, Stuck, Ranked, NodeOk, WellFormed;
    var p :| p in IncomingSources(e.snapshot.edges, j) && p in e.nodes
             && (!Done(e, p) || (p in tr.rank && tr.rank[p] >= time));
    StuckNodes(e, tr, p);
    assert p !in tr.rank.Keys || tr.rank[p] >= time;
  }

  lemma StuckChoice(e: Execution, tr: Trace, k: string)
    requires Settled(e) && Stuck(e) && Shaped(e) && Traced(e, tr, {}) && k in tr.rank
    ensures k in tr.choice && k in tr.end && k in e.snapshot.nodes && !e.snapshot.nodes[k].kind.Terminal?
    ensures Done(e, k) && PossibleChoice(e.snapshot.nodes[k].kind, tr.choice[k])
    ensures Chosen(e.snapshot, k, tr.choice[k]) != []
    ensures Stepped(e, tr, Chosen(e.snapshot, k, tr.choice[k]), tr.rank[k] + 1, tr.end[k])
  {
    hide Settled, Stuck, NodeOk, Stepped, Credited, Creditors, Chosen, PossibleChoice, Apart;
    RankedKnown(e, tr, k);
    StuckNodes(e, tr, k);
    assert Routed(e, tr, k);
  }

  lemma StuckApart(e: Execution, tr: Trace, k: string, l: string)
    requires Settled(e) && Stuck(e) && Shaped(e) && Traced(e, tr, {}) && k in tr.rank && l in tr.rank && l != k
    requires l in e.snapshot.nodes && IsWork(e.snapshot.nodes[l].kind) && k in tr.end
    ensures tr.rank[l] < tr.rank[k] || tr.rank[l] >= tr.end[k]
  {
    hide Settled, Stuck, NodeOk, Routed, Creditors;
    StuckNodes(e, tr, l);
    assert ApartFrom(e, tr, k);
  }

  lemma StuckIsMapped(e: Execution, tr: Trace)
    requires Settled(e) && Stuck(e) && Shaped(e) && Traced(e, tr, {})
    ensures Mapped(PlanOf(e.snapshot, tr))
  {
    hide Settled, Stuck, Traced, NodeOk, Chosen, PossibleChoice, Stepped;
    forall k | k in tr.rank
      ensures k in tr.choice && k in tr.end && k in e.snapshot.nodes
    {
      StuckChoice(e, tr, k);
    }
  }

  lemma StuckRanks(e: Execution, tr: Trace)
    requires Shaped(e) && Traced(e, tr, {}) && Started(e, tr)
    ensures Ranked(e, tr) && e.snapshot.entry in tr.rank.Keys && OneAtATime(tr.rank.Keys, tr.rank)
  {
    hide Shaped, Apart, Routed, Timed, Creditors, SourcesRanked;
  }

  lemma StuckIsStarving(e: Execution, tr: Trace)
    requires Settled(e) && Stuck(e) && Shaped(e) && Traced(e, tr, {}) && Started(e, tr)
    ensures Starving(PlanOf(e.snapshot, tr))
  {
    hide Settled, Stuck, Traced, Shaped, Chosen, PossibleChoice, Stepped, Walks, Choosers, Apart, Timed, Ranked;
    hide Started;
    var w := PlanOf(e.snapshot, tr);
    StuckIsMapped(e, tr);
    StuckRanks(e, tr);
    forall k | k in w.V
      ensures !w.s.nodes[k].kind.Terminal? && PossibleChoice(w.s.nodes[k].kind, w.choice[k]) && Led(w, k) != []
      ensures Walks(w, Led(w, k), w.rank[k] + 1, w.end[k])
    {
      StuckChoice(e, tr, k);
      StuckWalks(e, tr, Led(w, k), w.rank[k] + 1, w.end[k]);
    }
    forall k, l | k in w.V && l in w.V && IsWork(w.s.nodes[l].kind) && l != k
      ensures w.rank[l] < w.rank[k] || w.rank[l] >= w.end[k]
    {
      StuckApart(e, tr, k, l);
    }
    forall t | t in w.V && !w.s.nodes[t].kind.Join?
      ensures |Choosers(w, t)| + (if t == w.s.entry then 1 else 0) <= w.s.nodes[t].maxVisits
    {
      StuckVisitsFit(e, tr, t);
    }
  }

  /** Only a definition with a starving set can get stuck, whatever is called in whatever order. */
  lemma OnlyStarvingGetsStuck(s: Snapshot, createdAt: int, history: seq<(Operation, int)>)
    requires WellFormed(s)
    ensures Settled(Create(s, createdAt))
    ensures Stuck(Replay(Create(s, createdAt), history)) ==> CanStarve(s)
  {
    hide Starving, Traced, Started;
    CreateSettled(s, createdAt);
    ReplayKeepsTrace(Create(s, createdAt), history);
    var e := Replay(Create(s, createdAt), history);
    if Stuck(e) {
      var tr :| Traced(e, tr, {}) && Started(e, tr);
      StuckIsStarving(e, tr);
      assert Starving(PlanOf(s, tr));
    }
  }

  /**
   What a stuck execution looks like: a join was reached by a branch that succeeded while another of its
   predecessors was never entered, and neither was the join.
   */
  lemma StuckBehindJoin(s: Snapshot, createdAt: int, history: seq<(Operation, int)>)
    requires WellFormed(s)
    ensures Settled(Create(s, createdAt))
    ensures var e := Replay(Create(s, createdAt), history);
            Stuck(e) ==>
              exists j, k, p ::
                && j in e.nodes && s.nodes[j].kind.Join? && e.nodes[j].visits == 0
                && k in IncomingSources(s.edges, j) && k in e.nodes && e.nodes[k].status.Succeeded?
                && p in IncomingSources(s.edges, j) && p in e.nodes && e.nodes[p].visits == 0
  {
    hide Traced, Started, Starving;
    CreateSettled(s, createdAt);
    ReplayKeepsTrace(Create(s, createdAt), history);
    var e := Replay(Create(s, createdAt), history);
    if Stuck(e) {
      var tr :| Traced(e, tr, {}) && Started(e, tr);
      StuckIsStarving(e, tr);
      var k, j, p := StarvedJoinOf(PlanOf(s, tr));
      TracedRanked(e, tr, {});
      RankedKnown(e, tr, k);
      StuckNodes(e, tr, k);
      assert j !in tr.rank && e.nodes[j].visits == 0 by { UnrankedSource(e, tr, j, p); }
      assert e.nodes[p].visits == 0;
    }
  }

  lemma UnrankedSource(e: Execution, tr: Trace, j: string, p: string)
    requires Shaped(e) && Traced(e, tr, {}) && j in e.nodes && e.snapshot.nodes[j].kind.Join?
    requires p in IncomingSources(e.snapshot.edges, j) && p !in tr.rank
    ensures j !in tr.rank && e.nodes[j].visits == 0
  {
    hide NodeOk, Routed, Creditors;
    assert j in tr.rank ==> SourcesRanked(e, tr, j);
  }

  // ---- definitions that cannot starve -----------------------------------------------

  lemma {:induction false} LastOf(V: set<string>, rank: map<string, nat>) returns (k: string)
    requires V != {} && V <= rank.Keys
    ensures k in V && forall l :: l in V ==> rank[l] <= rank[k]
  {
    k :| k in V;
    if V != {k} {
      var l := LastOf(V - {k}, rank);
      if rank[l] > rank[k] {
        k := l;
      }
    }
  }

  /** What a plan says about the targets of one of its nodes. */
  lemma {:induction false} WalksMembers(w: Plan, targets: seq<string>, time: nat, stop: nat, t: string)
    requires Mapped(w) && (forall k :: k in w.V ==> w.rank[k] < w.end[k])
    requires Walks(w, targets, time, stop) && t in targets
    ensures t in w.s.nodes && !w.s.nodes[t].kind.Terminal?
    ensures !w.s.nodes[t].kind.Join? ==> t in w.V && w.rank[t] >= time
    decreases |targets|
  {
    var u, rest := targets[0], targets[1..];
    if t == u {
    } else {
      var kind := w.s.nodes[u].kind;
      if (kind.Fork? || kind.Join?) && u in w.V && w.rank[u] == time && Walks(w, rest, w.end[u], stop) {
        WalksMembers(w, rest, w.end[u], stop, t);
      } else if kind.Join? {
        WalksMembers(w, rest, time, stop, t);
      } else {
        WalksMembers(w, rest, time + 1, stop, t);
      }
    }
  }

  lemma PlanTimes(w: Plan)
    requires Starving(w)
    ensures forall k :: k in w.V ==> w.rank[k] < w.end[k]
  {
    hide Led, Waits, Choosers, PossibleChoice;
    forall k | k in w.V
      ensures w.rank[k] < w.end[k]
    {
      assert Walks(w, Led(w, k), w.rank[k] + 1, w.end[k]);
    }
  }

  /** In every starving set a node leads to a join that waits for a node outside the set. */
  lemma StarvedJoinOf(w: Plan) returns (k: string, j: string, p: string)
    requires WellFormed(w.s) && Starving(w)
    ensures k in w.V && k in IncomingSources(w.s.edges, j) && j in w.s.nodes && w.s.nodes[j].kind.Join?
    ensures p in IncomingSources(w.s.edges, j) && p in w.s.nodes && p !in w.V
  {
    hide Chosen, Choosers, PossibleChoice;
    k := LastOf(w.V, w.rank);
    j := Led(w, k)[0];
    assert j in Led(w, k);
    assert Walks(w, Led(w, k), w.rank[k] + 1, w.end[k]);
    assert Waits(w, j, w.rank[k] + 1);
    p :| p in IncomingSources(w.s.edges, j) && (p !in w.V || w.rank[p] >= w.rank[k] + 1);
    ChosenKnown(w.s, k, w.choice[k]);
    SourceKnown(w.s, j, p);
  }

  lemma ChosenKnown(s: Snapshot, k: string, c: Choice)
    requires WellFormed(s)
    ensures forall t :: t in Chosen(s, k, c) ==> t in s.nodes && k in IncomingSources(s.edges, t)
  {
    RouteTargetsKnown(s, k, c.outcome, c.output);
  }

  /** However `k` completes, it leads to `t`. */
  ghost predicate AlwaysLeadsTo(s: Snapshot, k: string, t: string)
    requires k in s.nodes
  {
    forall c: Choice :: PossibleChoice(s.nodes[k].kind, c) && Chosen(s, k, c) != [] ==> t in Chosen(s, k, c)
  }

  /** Every run that does not end comes to `t`: it is in every set that holds the entry and what is always led to. */
  ghost predicate Forced(s: Snapshot, t: string)
  {
    forall C: set<string> :: s.entry in C && ForcedClosed(s, C) ==> t in C
  }

  ghost predicate ForcedClosed(s: Snapshot, C: set<string>)
  {
    forall k, t :: k in C && k in s.nodes && t in s.nodes && !s.nodes[t].kind.Join? && AlwaysLeadsTo(s, k, t) ==> t in C
  }

  /** When nothing a join waits for can be bypassed, the definition never gets stuck. */
  lemma ForcedSourcesNeverStarve(s: Snapshot)
    requires WellFormed(s)
    requires forall j, p :: j in s.nodes && s.nodes[j].kind.Join? && p in IncomingSources(s.edges, j) ==> Forced(s, p)
    ensures !CanStarve(s)
  {
    if CanStarve(s) {
      var w: Plan :| w.s == s && Starving(w);
      StarvingIsClosed(w);
      var k, j, p := StarvedJoinOf(w);
      ForcedMember(s, p, w.V);
      assert false;
    }
  }

  lemma ForcedMember(s: Snapshot, t: string, C: set<string>)
    requires Forced(s, t) && s.entry in C && ForcedClosed(s, C)
    ensures t in C
  {
  }

  lemma StarvingIsClosed(w: Plan)
    requires Starving(w)
    ensures w.s.entry in w.V && ForcedClosed(w.s, w.V)
  {
    hide Chosen, PossibleChoice, Walks, Choosers;
    PlanTimes(w);
    forall k, t | k in w.V && k in w.s.nodes && t in w.s.nodes && !w.s.nodes[t].kind.Join? && AlwaysLeadsTo(w.s, k, t)
      ensures t in w.V
    {
      assert t in Led(w, k);
      WalksMembers(w, Led(w, k), w.rank[k] + 1, w.end[k], t);
    }
  }

  /** Without joins, no history of calls ever gets stuck. */
  lemma WithoutJoinsNeverStuck(s: Snapshot, createdAt: int, history: seq<(Operation, int)>)
    requires WellFormed(s)
    requires forall k :: k in s.nodes ==> !s.nodes[k].kind.Join?
    ensures Settled(Create(s, createdAt)) && !Stuck(Replay(Create(s, createdAt), history))
  {
    ForcedSourcesNeverStarve(s);
    OnlyStarvingGetsStuck(s, createdAt, history);
  }
}
