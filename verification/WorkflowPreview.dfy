/**
 What an engine call does to the nodes of an execution, foretold from the state before it: how often each node was
 entered and which are completed decide alone which nodes it enters, whether it opens an approval, and whether the
 execution ends.
 */
module WorkflowPreview {
  import opened Wrappers
  import opened Workflows
  import opened WorkflowSafety
  import opened WorkflowStarvation

  /** The execution ends, or goes on with these completed nodes, an approval having been opened or not. */
  datatype Preview =
    | Ends(visits: map<string, nat>, status: WorkflowStatus)
    | Goes(visits: map<string, nat>, done: set<string>, opens: bool)

  predicate Fits(s: Snapshot, v: Preview)
  {
    WellFormed(s) && v.Goes? && v.visits.Keys == s.nodes.Keys
  }

  /** Forks and joins that have not been entered. */
  function Unpassed(s: Snapshot, v: Preview): set<string>
    requires Fits(s, v)
  {
    set k | k in s.nodes && (s.nodes[k].kind.Fork? || s.nodes[k].kind.Join?) && v.visits[k] == 0
  }

  function PreviewNode(s: Snapshot, v: Preview, key: string): (r: Preview)
    requires Fits(s, v) && key in s.nodes
    ensures r.Goes? ==> Fits(s, r) && Unpassed(s, r) <= Unpassed(s, v) && (v.opens ==> r.opens)
    decreases Unpassed(s, v), 0, 0
  {
    var d := s.nodes[key];
    if d.kind.Join? && !(IncomingSources(s.edges, key) <= v.done) then v
    else if v.visits[key] >= d.maxVisits then Ends(v.visits, WorkflowFailed)
    else
      assert ValidNode(d);
      var visits := v.visits[key := v.visits[key] + 1];
      match d.kind
      case Task => Goes(visits, v.done - {key}, v.opens)
      case Approval => Goes(visits, v.done - {key}, true)
      case Terminal => Ends(visits, d.terminalStatus.value)
      case _ =>
        assert key in Unpassed(s, v);
        PreviewRoute(s, Goes(visits, v.done + {key}, v.opens), key, Choice(Success, map[]))
  }

  function PreviewRoute(s: Snapshot, v: Preview, source: string, c: Choice): (r: Preview)
    requires Fits(s, v)
    ensures r.Goes? ==> Fits(s, r) && Unpassed(s, r) <= Unpassed(s, v) && (v.opens ==> r.opens)
    decreases Unpassed(s, v), 2, 0
  {
    var targets := Chosen(s, source, c);
    if targets == [] then Ends(v.visits, WorkflowFailed)
    else
      ChosenKnown(s, source, c);
      PreviewAll(s, v, targets)
  }

  function PreviewAll(s: Snapshot, v: Preview, targets: seq<string>): (r: Preview)
    requires Fits(s, v) && forall t :: t in targets ==> t in s.nodes
    ensures r.Goes? ==> Fits(s, r) && Unpassed(s, r) <= Unpassed(s, v) && (v.opens ==> r.opens)
    decreases Unpassed(s, v), 1, |targets|
  {
    if targets == [] then v
    else
      var v1 := PreviewNode(s, v, targets[0]);
      if v1.Ends? then v1 else PreviewAll(s, v1, targets[1..])
  }

  // ---- the engine does what is foretold ---------------------------------------------

  ghost function VisitsOf(e: Execution): (visits: map<string, nat>)
    ensures visits.Keys == e.nodes.Keys
  {
    map k | k in e.nodes :: e.nodes[k].visits
  }

  ghost function DoneIn(e: Execution): set<string>
  {
    set k | k in e.nodes && Done(e, k)
  }

  ghost predicate Shows(e: Execution, v: Preview)
  {
    v.Goes? && v.visits == VisitsOf(e) && v.done == DoneIn(e)
  }

  /** `v` shows an execution in the middle of a call. */
  ghost predicate Midway(e: Execution, v: Preview)
  {
    Flowing(e) && Shows(e, v) && Fits(e.snapshot, v) && (v.opens ==> e.status.WorkflowAwaitingApproval?)
  }

  /** What became of `e` is what `r` says. */
  ghost predicate Foretold(e: Execution, f: Execution, r: Preview)
  {
    && (IsTerminal(f) <==> r.Ends?) && VisitsOf(f) == r.visits
    && match r
       case Ends(_, status) => f.status == status
       case Goes(_, done, opens) =>
         DoneIn(f) == done && (f.status.WorkflowAwaitingApproval? <==> e.status.WorkflowAwaitingApproval? || opens)
  }

  lemma ReadySources(e: Execution, v: Preview, key: string)
    requires Shaped(e) && Shows(e, v) && key in e.nodes
    ensures JoinReady(e, key) <==> IncomingSources(e.snapshot.edges, key) <= v.done
  {
    hide NodeOk;
    forall p | p in IncomingSources(e.snapshot.edges, key)
      ensures p in e.nodes
    {
      SourceKnown(e.snapshot, key, p);
    }
    if IncomingSources(e.snapshot.edges, key) <= v.done {
      forall p | p in IncomingSources(e.snapshot.edges, key)
        ensures e.nodes[p].status.Succeeded?
      {
        assert p in v.done;
      }
    }
  }

  lemma EnteredShows(e: Execution, v: Preview, key: string, f: Execution, opens: bool)
    requires Shaped(e) && Shows(e, v) && key in e.nodes && Enters(e, f, key) && key in v.visits
    ensures var done := if IsWork(e.snapshot.nodes[key].kind) then v.done - {key} else v.done + {key};
            !e.snapshot.nodes[key].kind.Terminal? ==>
              Shows(f, Goes(v.visits[key := v.visits[key] + 1], done, opens))
  {
    hide NodeOk, WellFormed;
    assert VisitsOf(f) == VisitsOf(e)[key := VisitsOf(e)[key] + 1];
  }

  lemma {:induction false} ActivateForetold(e: Execution, v: Preview, key: string, at: int)
    requires Midway(e, v) && key in e.nodes
    requires e.snapshot.nodes[key].kind.Join? ==>
               exists s :: s in IncomingSources(e.snapshot.edges, key) && e.nodes[s].visits > 0
    ensures Foretold(e, Activate(e, key, at), PreviewNode(e.snapshot, v, key))
    decreases Potential(e), 0, 0
  {
    hide FailExecution, Conclude, Potential, NodeOk, VisitsOf, DoneIn, JoinReady, Route, PreviewRoute, Enters, Entered;
    hide NothingAborted, AwaitingIsBacked;
    var d, n := e.snapshot.nodes[key], e.nodes[key];
    ReadySources(e, v, key);
    assert n.visits == v.visits[key] by { ShownVisits(e, v, key); }
    if d.kind.Join? && !JoinReady(e, key) {
    } else if n.visits >= d.maxVisits {
      FailedEnds(e, "node visit limit exceeded: " + key, at);
      assert VisitsOf(e) == v.visits by { ShownVisits(e, v, key); }
    } else if d.kind.Terminal? {
      TerminalEnds(e, key, at);
      assert VisitsOf(e) == v.visits by { ShownVisits(e, v, key); }
    } else if IsWork(d.kind) {
      WorkForetold(e, v, key, at);
    } else {
      PassMidway(e, v, key, at);
      RouteForetold(Entered(e, key, at), Goes(v.visits[key := v.visits[key] + 1], v.done + {key}, v.opens), key,
                    Success, at, map[]);
    }
  }

  lemma PassMidway(e: Execution, v: Preview, key: string, at: int)
    requires Midway(e, v) && key in e.nodes && (e.snapshot.nodes[key].kind.Fork? || e.snapshot.nodes[key].kind.Join?)
    requires e.nodes[key].visits < e.snapshot.nodes[key].maxVisits && key in v.visits
    ensures var e1 := Entered(e, key, at);
            && Shaped(e1) && Potential(e1) < Potential(e)
            && Midway(e1, Goes(v.visits[key := v.visits[key] + 1], v.done + {key}, v.opens))
            && e1.snapshot == e.snapshot && e1.status == e.status && key in e1.nodes && e1.nodes[key].visits > 0
  {
    hide Potential, Flowing, WellFormed, Entered, VisitsOf, DoneIn, Enters, NodeOk;
    FlowingShaped(e);
    EnteredEnters(e, key, at);
    EnteredShows(e, v, key, Entered(e, key, at), v.opens);
    EnteredFlows(e, key, at);
    EnteredLowers(e, key, at);
    EnteredStatus(e, key, at);
  }

  lemma ShownVisits(e: Execution, v: Preview, key: string)
    requires Shows(e, v) && key in e.nodes
    ensures key in v.visits && v.visits[key] == e.nodes[key].visits && v.visits == VisitsOf(e)
  {
  }

  lemma EnteredStatus(e: Execution, key: string, at: int)
    requires Shaped(e) && key in e.nodes
    ensures Entered(e, key, at).status == e.status && Entered(e, key, at).snapshot == e.snapshot
    ensures key in Entered(e, key, at).nodes && Entered(e, key, at).nodes[key].visits > 0
  {
  }

  lemma FailedEnds(e: Execution, reason: string, at: int)
    ensures FailExecution(e, reason, at).status == WorkflowFailed
    ensures VisitsOf(FailExecution(e, reason, at)) == VisitsOf(e)
  {
    assert VisitsOf(FailExecution(e, reason, at)) == VisitsOf(e);
  }

  lemma TerminalEnds(e: Execution, key: string, at: int)
    requires Flowing(e) && key in e.nodes && e.nodes[key].visits < e.snapshot.nodes[key].maxVisits
    requires e.snapshot.nodes[key].kind.Terminal?
    ensures Activate(e, key, at).status == TerminalStatusOf(e.snapshot.nodes[key]) && IsTerminal(Activate(e, key, at))
    ensures VisitsOf(Activate(e, key, at)) == VisitsOf(e)[key := e.nodes[key].visits + 1]
  {
    hide NodeOk, Activate, Potential;
    TerminalNodeConcludes(e, key, at);
    assert ValidNode(e.snapshot.nodes[key]);
    assert VisitsOf(Activate(e, key, at)) == VisitsOf(e)[key := e.nodes[key].visits + 1];
  }

  lemma WorkForetold(e: Execution, v: Preview, key: string, at: int)
    requires Midway(e, v) && key in e.nodes && IsWork(e.snapshot.nodes[key].kind)
    requires e.nodes[key].visits < e.snapshot.nodes[key].maxVisits && key in v.visits
    requires v.visits[key] == e.nodes[key].visits
    ensures Foretold(e, Activate(e, key, at), PreviewNode(e.snapshot, v, key))
  {
    hide Flowing, Shaped, Potential, JoinReady, Route, PreviewRoute, VisitsOf, DoneIn, Enters, Entered;
    FlowingShaped(e);
    var f := Activate(e, key, at);
    WorkEntered(e, key, at);
    var opens := v.opens || e.snapshot.nodes[key].kind.Approval?;
    EnteredShows(e, v, key, f, opens);
    var r := Goes(v.visits[key := v.visits[key] + 1], v.done - {key}, opens);
    assert PreviewNode(e.snapshot, v, key) == r && Shows(f, r);
  }

  lemma FlowingShaped(e: Execution)
    requires Flowing(e)
    ensures Shaped(e) && !IsTerminal(e)
  {
  }

  lemma WorkEntered(e: Execution, key: string, at: int)
    requires Flowing(e) && key in e.nodes && IsWork(e.snapshot.nodes[key].kind)
    requires e.nodes[key].visits < e.snapshot.nodes[key].maxVisits
    ensures Enters(e, Activate(e, key, at), key)
    ensures Activate(e, key, at).status ==
            if e.snapshot.nodes[key].kind.Approval? then WorkflowAwaitingApproval else e.status
  {
    hide NodeOk, Potential, JoinReady, Route, NothingAborted, AwaitingIsBacked;
  }

  lemma {:induction false} RouteForetold(
    e: Execution, v: Preview, source: string, outcome: Outcome, at: int, output: Artifact)
    requires Midway(e, v) && source in e.nodes && e.nodes[source].visits > 0
    ensures Foretold(e, Route(e, source, outcome, at, output),
              PreviewRoute(e.snapshot, v, source, Choice(outcome, output)))
    decreases Potential(e), 2, 0
  {
    hide FailExecution, Potential, NodeOk, VisitsOf, DoneIn, ActivateAll, PreviewAll, NothingAborted, AwaitingIsBacked;
    var edges := RouteEdges(e.snapshot.edges, source, outcome);
    var targets := SelectTargets(edges, output);
    if targets == [] {
      FailedEnds(e, NoEdgeReason(edges, source, outcome), at);
      ShownVisits(e, v, source);
    } else {
      RouteTargetsKnown(e.snapshot, source, outcome, output);
      ActivateAllForetold(e, v, source, targets, at);
    }
  }

  lemma {:induction false} ActivateAllForetold(e: Execution, v: Preview, source: string, targets: seq<string>, at: int)
    requires Midway(e, v) && source in e.nodes && e.nodes[source].visits > 0
    requires forall t :: t in targets ==> t in e.nodes && source in IncomingSources(e.snapshot.edges, t)
    ensures Foretold(e, ActivateAll(e, targets, at), PreviewAll(e.snapshot, v, targets))
    decreases Potential(e), 1, |targets|
  {
    hide Activate, PreviewNode, Potential, NodeOk, NothingAborted, AwaitingIsBacked, VisitsOf, DoneIn;
    if targets != [] {
      assert targets[0] in targets;
      ActivateSettles(e, targets[0], at);
      ActivateForetold(e, v, targets[0], at);
      var e1, v1 := Activate(e, targets[0], at), PreviewNode(e.snapshot, v, targets[0]);
      if !IsTerminal(e1) {
        ActivateAllForetold(e1, v1, source, targets[1..], at);
      }
    }
  }

  // ---- engine calls -----------------------------------------------------------------

  ghost function Now(e: Execution): Preview
  {
    Goes(VisitsOf(e), DoneIn(e), false)
  }

  /** The same once `key` is completed. */
  ghost function With(e: Execution, key: string): Preview
  {
    Goes(VisitsOf(e), DoneIn(e) + {key}, false)
  }

  /** The preview of a call that is accepted. */
  ghost function PreviewCall(e: Execution, op: Operation): Preview
    requires Shaped(e) && (op.Complete? || op.FailTask? || op.Expire? || op.Resolve? ==> op.key in e.nodes)
  {
    match op
    case Start => PreviewNode(e.snapshot, Now(e), e.snapshot.entry)
    case Complete(key, outcome, output, _) =>
      PreviewRoute(e.snapshot, With(e, key), key, Choice(outcome, ArtifactOf(output)))
    case Resolve(key, approved) =>
      var c := Choice(if approved then Approved else Rejected, map[]);
      PreviewRoute(e.snapshot, With(e, key), key, c)
    case FailTask(key, _, _) => PreviewFailure(e, key)
    case Expire(key) => PreviewFailure(e, key)
    case Cancel => Ends(VisitsOf(e), WorkflowCancelled)
    case _ => Now(e)
  }

  ghost function PreviewFailure(e: Execution, key: string): Preview
    requires Shaped(e) && key in e.nodes
  {
    if e.nodes[key].attempts < e.snapshot.nodes[key].maxAttempts then Now(e) else Ends(VisitsOf(e), WorkflowFailed)
  }

  lemma AcceptedKey(e: Execution, op: Operation, at: int)
    requires Shaped(e) && Apply(e, op, at).Ok?
    ensures op.Complete? || op.FailTask? || op.Expire? || op.Resolve? ==> op.key in e.nodes
  {
    hide NodeOk, WellFormed;
  }

  /** Resolving an approval first takes the announcement back. */
  predicate StillAnnounced(e: Execution, op: Operation)
  {
    e.status.WorkflowAwaitingApproval? && !op.Resolve?
  }

  /** Every accepted call does to the nodes what its preview says. */
  lemma CallForetold(e: Execution, op: Operation, at: int)
    requires Settled(e) && Apply(e, op, at).Ok?
    ensures Shaped(e) && (op.Complete? || op.FailTask? || op.Expire? || op.Resolve? ==> op.key in e.nodes)
    ensures var f, r := Apply(e, op, at).value, PreviewCall(e, op);
            && (IsTerminal(f) <==> r.Ends?) && VisitsOf(f) == r.visits
            && match r
               case Ends(_, status) => f.status == status
               case Goes(_, done, opens) =>
                 DoneIn(f) == done && (f.status.WorkflowAwaitingApproval? <==> StillAnnounced(e, op) || opens)
  {
    hide Apply, Flowing, Finished, HasActive, HasStarvedJoin, Shaped, PreviewRoute, PreviewNode, VisitsOf, DoneIn;
    SettledShaped(e);
    AcceptedKey(e, op, at);
    match op {
      case Start => StartForetold(e, at);
      case Complete(key, outcome, output, lease) => CompleteForetold(e, key, outcome, output, lease, at);
      case Resolve(key, approved) => ResolveForetold(e, key, approved, at);
      case FailTask(key, reason, lease) => FailureForetold(e, op, at);
      case Expire(key) => FailureForetold(e, op, at);
      case Cancel => CancelForetold(e, at);
      case _ => TaskForetold(e, op, at);
    }
  }

  lemma StartForetold(e: Execution, at: int)
    requires Settled(e) && Shaped(e) && Apply(e, Start, at).Ok?
    ensures Foretold(e, Apply(e, Start, at).value, PreviewCall(e, Start)) && !e.status.WorkflowAwaitingApproval?
  {
    hide Activate, PreviewNode, Potential, NodeOk;
    var e1 := Touch(e.(status := WorkflowRunning, startedAt := Some(at)), at);
    assert Flowing(e1);
    assert VisitsOf(e1) == VisitsOf(e) && DoneIn(e1) == DoneIn(e);
    ActivateForetold(e1, Now(e), e.snapshot.entry, at);
  }

  lemma FinishedShows(e: Execution, key: string, e1: Execution)
    requires key in e.nodes && key in e1.nodes && e1.nodes == e.nodes[key := e1.nodes[key]]
    requires e1.nodes[key].visits == e.nodes[key].visits && Done(e1, key)
    ensures Shows(e1, With(e, key))
  {
    assert VisitsOf(e1) == VisitsOf(e);
    assert DoneIn(e1) == DoneIn(e) + {key};
  }

  lemma CompleteForetold(
    e: Execution, key: string, outcome: Outcome, output: Option<Artifact>, lease: Option<int>, at: int)
    requires Settled(e) && Shaped(e) && Apply(e, Complete(key, outcome, output, lease), at).Ok? && key in e.nodes
    ensures var op := Complete(key, outcome, output, lease);
            Foretold(e, Apply(e, op, at).value, PreviewCall(e, op))
  {
    hide Route, PreviewRoute, Potential, NodeOk, NothingAborted, AwaitingIsBacked, HasActive, HasStarvedJoin;
    hide VisitsOf, DoneIn;
    var e1 := Touch(SetNode(e, key, CompleteNode(e.nodes[key], outcome, output, at)), at);
    CompletedFlows(e, key, outcome, output, at, e1);
    FinishedShows(e, key, e1);
    RouteForetold(e1, With(e, key), key, outcome, at, ArtifactOf(output));
  }

  lemma ResolveForetold(e: Execution, key: string, approved: bool, at: int)
    requires Settled(e) && Shaped(e) && Apply(e, Resolve(key, approved), at).Ok? && key in e.nodes
    ensures var f, r := Apply(e, Resolve(key, approved), at).value, PreviewCall(e, Resolve(key, approved));
            Foretold(e.(status := WorkflowRunning), f, r)
  {
    hide Route, PreviewRoute, Potential, NodeOk, NothingAborted, AwaitingIsBacked, HasActive, HasStarvedJoin;
    hide VisitsOf, DoneIn;
    var outcome := if approved then Approved else Rejected;
    var e1 := Touch(SetNode(e, key, ResolveNode(e.nodes[key], outcome, at)).(status := WorkflowRunning), at);
    ResolvedFlows(e, key, outcome, at, e1);
    FinishedShows(e, key, e1);
    RouteForetold(e1, With(e, key), key, outcome, at, map[]);
  }

  lemma FailureForetold(e: Execution, op: Operation, at: int)
    requires Settled(e) && Shaped(e) && (op.FailTask? || op.Expire?) && Apply(e, op, at).Ok? && op.key in e.nodes
    ensures Foretold(e, Apply(e, op, at).value, PreviewCall(e, op))
  {
    hide HandleTaskFailure, Shaped, Flowing, Finished, HasActive, HasStarvedJoin, VisitsOf, DoneIn, PreviewFailure;
    var reason := if op.FailTask? then op.reason else "task lease expired";
    AttemptForetold(e, op.key, reason, at);
  }

  lemma AttemptForetold(e: Execution, key: string, reason: string, at: int)
    requires Settled(e) && Shaped(e) && key in e.nodes && e.nodes[key].status.Running?
    ensures Foretold(e, HandleTaskFailure(e, key, reason, at), PreviewFailure(e, key))
  {
    hide FailExecution, NodeOk, WellFormed, NothingAborted, AwaitingIsBacked, HasActive, HasStarvedJoin;
    ActiveMeansFlowing(e, key);
    if e.nodes[key].attempts < e.snapshot.nodes[key].maxAttempts {
      var f := HandleTaskFailure(e, key, reason, at);
      assert VisitsOf(f) == VisitsOf(e) && DoneIn(f) == DoneIn(e);
    } else {
      var n := ClearLease(e.nodes[key]).(status := Failed, completedAt := Some(at), updatedAt := at);
      FailedEnds(SetNode(e, key, n), FailureReason(reason), at);
      assert VisitsOf(SetNode(e, key, n)) == VisitsOf(e);
    }
  }

  lemma CancelForetold(e: Execution, at: int)
    requires Shaped(e) && Apply(e, Cancel, at).Ok?
    ensures Foretold(e, Apply(e, Cancel, at).value, PreviewCall(e, Cancel))
  {
    hide NodeOk;
    assert VisitsOf(Apply(e, Cancel, at).value) == VisitsOf(e);
  }

  lemma TaskForetold(e: Execution, op: Operation, at: int)
    requires Settled(e) && Shaped(e) && (op.Begin? || op.Claim? || op.Renew?) && Apply(e, op, at).Ok?
    ensures Foretold(e, Apply(e, op, at).value, PreviewCall(e, op))
  {
    hide Potential, NodeOk, WellFormed, HasActive, HasStarvedJoin, NothingAborted, AwaitingIsBacked;
    var f := Apply(e, op, at).value;
    ActiveMeansFlowing(e, op.key);
    assert VisitsOf(f) == VisitsOf(e) && DoneIn(f) == DoneIn(e);
  }

  // ---- starting ---------------------------------------------------------------------

  /** Nothing has been entered. */
  function Fresh(s: Snapshot): (v: Preview)
    ensures WellFormed(s) ==> Fits(s, v)
  {
    Goes(map k | k in s.nodes :: 0, {}, false)
  }

  /** Starting fails an execution exactly when the preview of the definition, from its entry, ends in failure. */
  lemma StartFailsExactly(s: Snapshot, createdAt: int, at: int)
    requires WellFormed(s)
    ensures Settled(Create(s, createdAt)) && StartExecution(Create(s, createdAt), at).Ok?
    ensures var f, r := StartExecution(Create(s, createdAt), at).value, PreviewNode(s, Fresh(s), s.entry);
            && (f.status.WorkflowFailed? <==> r.Ends? && r.status.WorkflowFailed?)
            && (IsTerminal(f) <==> r.Ends?) && VisitsOf(f) == r.visits && (r.Goes? ==> DoneIn(f) == r.done)
  {
    hide PreviewNode, Activate, Potential;
    var e := Create(s, createdAt);
    CreateSettled(s, createdAt);
    assert VisitsOf(e) == Fresh(s).visits && DoneIn(e) == {};
    CallForetold(e, Start, at);
  }
}
