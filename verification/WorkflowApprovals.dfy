/** When the status of an execution tells whether an approval is open, and what a join does not look at. */
module WorkflowApprovals {
  import opened Wrappers
  import opened Workflows
  import opened WorkflowSafety
  import opened WorkflowDefinitions
  import opened WorkflowStarvation
  import opened WorkflowPreview

  predicate Awaiting(e: Execution, k: string)
  {
    k in e.nodes && e.nodes[k].status.AwaitingApproval?
  }

  /** The status says that an approval is open exactly when one is. */
  ghost predicate Agreed(e: Execution)
  {
    e.status.WorkflowAwaitingApproval? <==> exists k :: Awaiting(e, k)
  }

  /** Open approvals stay open, and a new one is announced. */
  ghost predicate Announced(e: Execution, f: Execution)
  {
    && (forall k :: Awaiting(e, k) ==> Awaiting(f, k))
    && (f.status.WorkflowRunning? ==> e.status.WorkflowRunning? && forall k :: Awaiting(f, k) ==> Awaiting(e, k))
  }

  lemma EnteredAnnounced(e: Execution, key: string, at: int)
    requires Flowing(e) && key in e.nodes && e.nodes[key].visits < e.snapshot.nodes[key].maxVisits
    requires !e.snapshot.nodes[key].kind.Approval?
    ensures Announced(e, Entered(e, key, at))
  {
    hide Potential;
    assert NodeOk(e.snapshot.nodes[key], e.nodes[key]);
  }

  lemma {:induction false} ActivateAnnounces(e: Execution, key: string, at: int)
    requires Flowing(e) && key in e.nodes
    requires e.snapshot.nodes[key].kind.Join? ==>
               exists s :: s in IncomingSources(e.snapshot.edges, key) && e.nodes[s].visits > 0
    ensures !IsTerminal(Activate(e, key, at)) ==> Announced(e, Activate(e, key, at))
    decreases Potential(e), 0, 0
  {
    hide FailExecution, Conclude, Potential, NodeOk, NothingAborted, AwaitingIsBacked;
    var d, n := e.snapshot.nodes[key], e.nodes[key];
    if d.kind.Join? && !JoinReady(e, key) {
    } else if n.visits >= d.maxVisits {
      FailedIsTerminal(e, "node visit limit exceeded: " + key, at);
    } else if d.kind.Terminal? {
      TerminalNodeFinishes(e, key, at);
    } else if d.kind.Approval? {
      EnteredEnters(e, key, at);
    } else {
      EnteredAnnounced(e, key, at);
      if !d.kind.Task? {
        EnteredFlows(e, key, at);
        EnteredLowers(e, key, at);
        RouteAnnounces(Entered(e, key, at), key, Success, at, map[]);
      }
    }
  }

  lemma {:induction false} RouteAnnounces(e: Execution, source: string, outcome: Outcome, at: int, output: Artifact)
    requires Flowing(e) && source in e.nodes && e.nodes[source].visits > 0
    ensures !IsTerminal(Route(e, source, outcome, at, output)) ==> Announced(e, Route(e, source, outcome, at, output))
    decreases Potential(e), 2, 0
  {
    hide FailExecution, Potential, NodeOk, NothingAborted, AwaitingIsBacked, ActivateAll;
    var edges := RouteEdges(e.snapshot.edges, source, outcome);
    var targets := SelectTargets(edges, output);
    if targets == [] {
      FailedIsTerminal(e, NoEdgeReason(edges, source, outcome), at);
    } else {
      RouteTargetsKnown(e.snapshot, source, outcome, output);
      ActivateAllAnnounces(e, source, targets, at);
    }
  }

  lemma {:induction false} ActivateAllAnnounces(e: Execution, source: string, targets: seq<string>, at: int)
    requires Flowing(e) && source in e.nodes && e.nodes[source].visits > 0
    requires forall t :: t in targets ==> t in e.nodes && source in IncomingSources(e.snapshot.edges, t)
    ensures !IsTerminal(ActivateAll(e, targets, at)) ==> Announced(e, ActivateAll(e, targets, at))
    decreases Potential(e), 1, |targets|
  {
    hide Activate, Potential, NodeOk, NothingAborted, AwaitingIsBacked;
    if targets != [] {
      assert targets[0] in targets;
      ActivateSettles(e, targets[0], at);
      ActivateAnnounces(e, targets[0], at);
      var e1 := Activate(e, targets[0], at);
      if !IsTerminal(e1) {
        ActivateAllAnnounces(e1, source, targets[1..], at);
      }
    }
  }

  /** Completing a task, or resolving an approval, up to the point where it is routed. */
  lemma CompleteAnnounces(
    e: Execution, key: string, outcome: Outcome, output: Option<Artifact>, lease: Option<int>, at: int)
    requires Settled(e) && CompleteTask(e, key, outcome, output, lease, at).Ok?
    ensures var f := CompleteTask(e, key, outcome, output, lease, at).value;
            !IsTerminal(f) ==> Announced(e, f)
  {
    hide Route, Potential, Announced, NothingAborted, AwaitingIsBacked, HasActive, HasStarvedJoin;
    var e1 := Touch(SetNode(e, key, CompleteNode(e.nodes[key], outcome, output, at)), at);
    ActiveVisited(e, key);
    CompletedFlows(e, key, outcome, output, at, e1);
    RouteAnnounces(e1, key, outcome, at, ArtifactOf(output));
    var f := Route(e1, key, outcome, at, ArtifactOf(output));
    if !IsTerminal(f) {
      SameApprovals(e, key, e1, f);
    }
  }

  lemma SameApprovals(e: Execution, key: string, e1: Execution, f: Execution)
    requires e1.nodes.Keys == e.nodes.Keys && e1.status == e.status && key in e.nodes
    requires e1.nodes == e.nodes[key := e1.nodes[key]]
    requires !e.nodes[key].status.AwaitingApproval? && !e1.nodes[key].status.AwaitingApproval? && Announced(e1, f)
    ensures Announced(e, f)
  {
    assert forall k :: Awaiting(e, k) <==> Awaiting(e1, k);
  }

  lemma ResolveAnnounces(e: Execution, key: string, approved: bool, at: int)
    requires Settled(e) && ResolveApproval(e, key, approved, at).Ok?
    ensures var f := ResolveApproval(e, key, approved, at).value;
            !IsTerminal(f) ==>
              && (forall k :: Awaiting(e, k) && k != key ==> Awaiting(f, k))
              && (f.status.WorkflowRunning? ==> forall k :: Awaiting(f, k) ==> Awaiting(e, k) && k != key)
  {
    hide Route, Potential, NothingAborted, AwaitingIsBacked, HasActive, HasStarvedJoin;
    var outcome := if approved then Approved else Rejected;
    var e1 := Touch(SetNode(e, key, ResolveNode(e.nodes[key], outcome, at)).(status := WorkflowRunning), at);
    ActiveVisited(e, key);
    ResolvedFlows(e, key, outcome, at, e1);
    RouteAnnounces(e1, key, outcome, at, map[]);
  }

  lemma StartAnnounces(e: Execution, at: int)
    requires Settled(e) && StartExecution(e, at).Ok?
    ensures var f := StartExecution(e, at).value;
            !IsTerminal(f) && f.status.WorkflowRunning? ==> forall k :: !Awaiting(f, k)
  {
    hide Activate, Potential;
    var e1 := Touch(e.(status := WorkflowRunning, startedAt := Some(at)), at);
    assert Flowing(e1);
    ActivateAnnounces(e1, e.snapshot.entry, at);
  }

  /** An approval is open that the call does not resolve. */
  ghost predicate OthersOpen(e: Execution, op: Operation)
  {
    exists k :: Awaiting(e, k) && !(op.Resolve? && k == op.key)
  }

  lemma OtherCallsAnnounce(e: Execution, op: Operation, at: int)
    requires Settled(e) && !e.status.WorkflowPending? && Apply(e, op, at).Ok? && !op.Resolve?
    ensures !IsTerminal(Apply(e, op, at).value) ==> Announced(e, Apply(e, op, at).value)
  {
    hide CompleteTask, HandleTaskFailure, Potential, Flowing, Finished, HasActive, HasStarvedJoin, Announced;
    SettledShaped(e);
    match op {
      case Complete(key, outcome, output, lease) => CompleteAnnounces(e, key, outcome, output, lease, at);
      case FailTask(key, reason, _) => RetryAnnounces(e, key, reason, at);
      case Expire(key) => RetryAnnounces(e, key, "task lease expired", at);
      case Cancel => CancelledIsTerminal(e, at);
      case Start => assert false;
      case _ => TaskAnnounces(e, op, at);
    }
  }

  lemma TaskAnnounces(e: Execution, op: Operation, at: int)
    requires Shaped(e) && (op.Begin? || op.Claim? || op.Renew?) && Apply(e, op, at).Ok?
    ensures Announced(e, Apply(e, op, at).value)
  {
    hide Potential, WellFormed;
  }

  lemma RetryAnnounces(e: Execution, key: string, reason: string, at: int)
    requires Shaped(e) && key in e.nodes && e.nodes[key].status.Running?
    ensures var f := HandleTaskFailure(e, key, reason, at);
            !IsTerminal(f) ==> Announced(e, f)
  {
    hide FailExecution, NodeOk;
    var n := ClearLease(e.nodes[key]).(status := Failed, completedAt := Some(at), updatedAt := at);
    FailedIsTerminal(SetNode(e, key, n), FailureReason(reason), at);
  }

  /**
   When the status tells whether an approval is open after a call: when the call ends the execution, when it opens
   an approval, when an open approval was announced and the call resolves none, and when none stays open.
   */
  lemma StatusAgreesExactly(e: Execution, op: Operation, at: int)
    requires Settled(e) && Apply(e, op, at).Ok?
    ensures Shaped(e) && (op.Complete? || op.FailTask? || op.Expire? || op.Resolve? ==> op.key in e.nodes)
    ensures var r := PreviewCall(e, op);
            Agreed(Apply(e, op, at).value) <==> r.Ends? || r.opens || StillAnnounced(e, op) || !OthersOpen(e, op)
  {
    hide Apply, HasActive, HasStarvedJoin, NothingAborted, Shaped, PreviewCall, Shows, Settled, Agreed, OthersOpen;
    CallForetold(e, op, at);
    SettledAfter(e, op, at);
    var f := Apply(e, op, at).value;
    if IsTerminal(f) {
      EndedAgrees(f);
    } else if f.status.WorkflowAwaitingApproval? {
      AnnouncedAgrees(f);
    } else {
      OpenStays(e, op, at);
      assert Agreed(f) <==> !OthersOpen(e, op) by { RunningAgrees(e, op, f); }
    }
  }

  lemma SettledAfter(e: Execution, op: Operation, at: int)
    requires Settled(e) && Shaped(e) && Apply(e, op, at).Ok?
    ensures Settled(Apply(e, op, at).value) && !Apply(e, op, at).value.status.WorkflowPending?
  {
    hide Apply;
    ApplySettles(e, op, at);
  }

  lemma EndedAgrees(f: Execution)
    requires Settled(f) && IsTerminal(f)
    ensures Agreed(f)
  {
    hide Shaped;
    forall k
      ensures !Awaiting(f, k)
    {
      assert k in f.nodes ==> !Active(f.nodes[k]);
    }
  }

  lemma AnnouncedAgrees(f: Execution)
    requires Settled(f) && f.status.WorkflowAwaitingApproval?
    ensures Agreed(f)
  {
    Backed(f);
  }

  lemma RunningAgrees(e: Execution, op: Operation, f: Execution)
    requires !f.status.WorkflowAwaitingApproval? && forall k :: Awaiting(f, k) <==> StillOpen(e, op, k)
    ensures Agreed(f) <==> !OthersOpen(e, op)
  {
    if OthersOpen(e, op) {
      var k :| Awaiting(e, k) && !(op.Resolve? && k == op.key);
      assert StillOpen(e, op, k);
    }
  }

  ghost predicate StillOpen(e: Execution, op: Operation, k: string)
  {
    Awaiting(e, k) && !(op.Resolve? && k == op.key)
  }

  /** While the execution shows running, the open approvals are those that were open and not resolved. */
  lemma OpenStays(e: Execution, op: Operation, at: int)
    requires Settled(e) && Shaped(e) && Apply(e, op, at).Ok?
    requires !IsTerminal(Apply(e, op, at).value) && !Apply(e, op, at).value.status.WorkflowAwaitingApproval?
    ensures forall k :: Awaiting(Apply(e, op, at).value, k) <==> StillOpen(e, op, k)
  {
    hide Apply, HasActive, HasStarvedJoin, NothingAborted, Shaped, Finished;
    SettledAfter(e, op, at);
    var f := Apply(e, op, at).value;
    if e.status.WorkflowPending? {
      PendingStarts(e, op, at);
      StartAnnounces(e, at);
    } else if op.Resolve? {
      assert Apply(e, op, at) == ResolveApproval(e, op.key, op.approved, at) by { ApplyResolves(e, op, at); }
      ResolveAnnounces(e, op.key, op.approved, at);
    } else {
      OtherCallsAnnounce(e, op, at);
    }
  }

  lemma ApplyResolves(e: Execution, op: Operation, at: int)
    requires Shaped(e) && op.Resolve?
    ensures Apply(e, op, at) == ResolveApproval(e, op.key, op.approved, at)
  {
    hide ResolveApproval, NodeOk, WellFormed;
  }

  lemma Backed(f: Execution)
    requires Settled(f)
    ensures f.status.WorkflowAwaitingApproval? ==> exists k :: Awaiting(f, k)
  {
    hide Shaped, HasActive, HasStarvedJoin;
    if f.status.WorkflowAwaitingApproval? {
      var k :| k in f.nodes && f.nodes[k].status.AwaitingApproval?;
      assert Awaiting(f, k);
    }
  }

}
