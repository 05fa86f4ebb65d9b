/**
 What every engine call keeps, and so what holds in every reachable execution:
 terminal states are final and quiet, counters stay within their limits, leases belong to
 running tasks, and a started execution that is not finished always has a node somebody can
 act on, or a join that waits for a branch which was never entered.
 */
module WorkflowSafety {
  import opened Wrappers
  import opened Text
  import opened Workflows

  ghost predicate HasActive(e: Execution)
  {
    exists k :: k in e.nodes && Active(e.nodes[k])
  }

  /** A join that has been reached from one side while another side has not succeeded. */
  ghost predicate StarvedJoin(e: Execution, j: string)
    requires Shaped(e)
  {
    && j in e.nodes
    && e.snapshot.nodes[j].kind.Join?
    && (exists s :: s in IncomingSources(e.snapshot.edges, j) && e.nodes[s].visits > 0)
    && (exists s :: s in IncomingSources(e.snapshot.edges, j) && !e.nodes[s].status.Succeeded?)
  }

  ghost predicate HasStarvedJoin(e: Execution)
    requires Shaped(e)
  {
    exists j :: StarvedJoin(e, j)
  }

  ghost predicate NothingAborted(e: Execution)
  {
    forall k :: k in e.nodes ==> !e.nodes[k].status.Failed? && !e.nodes[k].status.Cancelled?
  }

  ghost predicate AwaitingIsBacked(e: Execution)
  {
    e.status.WorkflowAwaitingApproval? ==> exists k :: k in e.nodes && e.nodes[k].status.AwaitingApproval?
  }

  /** A started execution in the middle of an engine call. */
  ghost predicate Flowing(e: Execution)
  {
    && Shaped(e)
    && (e.status.WorkflowRunning? || e.status.WorkflowAwaitingApproval?)
    && e.completedAt.None? && e.failureReason.None? && e.startedAt.Some?
    && NothingAborted(e)
    && AwaitingIsBacked(e)
  }

  /** Finished, and nobody is left holding work. */
  ghost predicate Finished(e: Execution)
  {
    && Shaped(e)
    && IsTerminal(e)
    && e.completedAt.Some?
    && (e.status.WorkflowFailed? <==> e.failureReason.Some?)
    && (e.failureReason.Some? ==> !Blank(e.failureReason.value))
    && !HasActive(e)
  }

  /** The invariant between engine calls. */
  ghost predicate Settled(e: Execution)
  {
    if e.status.WorkflowPending? then
      && Shaped(e)
      && e.completedAt.None? && e.failureReason.None? && e.startedAt.None?
      && (forall k :: k in e.nodes ==> e.nodes[k].status.Pending?)
    else if IsTerminal(e) then Finished(e)
    else Flowing(e) && (HasActive(e) || HasStarvedJoin(e))
  }

  ghost predicate VisitsGrew(e: Execution, f: Execution)
  {
    && f.nodes.Keys == e.nodes.Keys
    && forall k :: k in e.nodes ==> e.nodes[k].visits <= f.nodes[k].visits
  }

  // ---- ways to finish ---------------------------------------------------------------

  lemma FailExecutionFinishes(e: Execution, reason: string, at: int)
    requires Shaped(e) && !Blank(reason)
    ensures Finished(FailExecution(e, reason, at)) && VisitsGrew(e, FailExecution(e, reason, at))
    ensures FailExecution(e, reason, at).snapshot == e.snapshot && FailExecution(e, reason, at).status.WorkflowFailed?
  {
    FailExecutionLowers(e, reason, at);
  }

  lemma ConcludeFinishes(e: Execution, status: WorkflowStatus, key: string, at: int)
    requires Shaped(e) && e.failureReason.None?
    requires status.WorkflowSucceeded? || status.WorkflowFailed?
    ensures Finished(Conclude(e, status, key, at)) && VisitsGrew(e, Conclude(e, status, key, at))
    ensures Conclude(e, status, key, at).status == status
  {
    hide NodeOk, Potential;
    ConcludeLowers(e, status, key, at);
    assert !IsSpace(("workflow reached failure terminal: " + key)[0]);
  }

  // ---- activation -------------------------------------------------------------------

  /** Entering a node keeps the execution flowing; tasks and approvals leave it with work. */
  lemma EnteredFlows(e: Execution, key: string, at: int)
    requires Flowing(e) && key in e.nodes
    requires e.nodes[key].visits < e.snapshot.nodes[key].maxVisits
    requires !e.snapshot.nodes[key].kind.Approval?
    ensures Flowing(Entered(e, key, at)) && VisitsGrew(e, Entered(e, key, at))
  {
    hide Potential, ValidNode;
    var f := Entered(e, key, at);
    EnteredLowers(e, key, at);
    if e.status.WorkflowAwaitingApproval? {
      var k :| k in e.nodes && e.nodes[k].status.AwaitingApproval?;
      assert NodeOk(e.snapshot.nodes[k], e.nodes[k]);
      assert k in f.nodes && f.nodes[k].status.AwaitingApproval?;
    }
  }

  lemma EnteredApprovalFlows(e: Execution, key: string, at: int)
    requires Flowing(e) && key in e.nodes
    requires e.nodes[key].visits < e.snapshot.nodes[key].maxVisits
    requires e.snapshot.nodes[key].kind.Approval?
    ensures Flowing(Entered(e, key, at).(status := WorkflowAwaitingApproval))
    ensures VisitsGrew(e, Entered(e, key, at))
    ensures HasActive(Entered(e, key, at))
  {
    EnteredLowers(e, key, at);
    var f := Entered(e, key, at);
    assert f.nodes[key].status.AwaitingApproval?;
    assert Active(f.nodes[key]);
  }

  lemma TerminalNodeFinishes(e: Execution, key: string, at: int)
    requires Flowing(e) && key in e.nodes
    requires e.nodes[key].visits < e.snapshot.nodes[key].maxVisits
    requires e.snapshot.nodes[key].kind.Terminal?
    ensures Finished(Activate(e, key, at)) && VisitsGrew(e, Activate(e, key, at))
    ensures !Activate(e, key, at).status.WorkflowCancelled?
  {
    hide NodeOk, Potential, Conclude, Activate;
    var d, n := e.snapshot.nodes[key], e.nodes[key];
    TerminalNodeConcludes(e, key, at);
    EnterLowers(e, key, at);
    var e0 := SetNode(e, key, Enter(d, n, at));
    assert VisitsGrew(e, e0);
    assert ValidNode(d);
    ConcludeFinishes(e0, TerminalStatusOf(d), key, at);
  }

  lemma WorkNodeSettles(e: Execution, key: string, at: int)
    requires Flowing(e) && key in e.nodes
    requires e.nodes[key].visits < e.snapshot.nodes[key].maxVisits
    requires e.snapshot.nodes[key].kind.Task? || e.snapshot.nodes[key].kind.Approval?
    ensures Flowing(Activate(e, key, at)) && HasActive(Activate(e, key, at))
    ensures VisitsGrew(e, Activate(e, key, at))
  {
    hide Potential, NodeOk, ValidNode, NothingAborted, AwaitingIsBacked, Route;
    if e.snapshot.nodes[key].kind.Task? {
      EnteredFlows(e, key, at);
    } else {
      EnteredApprovalFlows(e, key, at);
    }
    assert Active(Activate(e, key, at).nodes[key]);
  }

  /** Whatever state a node is activated in, the execution is settled afterwards. */
  lemma {:induction false} ActivateSettles(e: Execution, key: string, at: int)
    requires Flowing(e) && key in e.nodes
    requires e.snapshot.nodes[key].kind.Join? ==>
               exists s :: s in IncomingSources(e.snapshot.edges, key) && e.nodes[s].visits > 0
    ensures Settled(Activate(e, key, at)) && !Activate(e, key, at).status.WorkflowPending?
    ensures !Activate(e, key, at).status.WorkflowCancelled?
    ensures VisitsGrew(e, Activate(e, key, at))
    decreases Potential(e), 0, 0
  {
    hide FailExecution, Conclude, Potential, NodeOk;
    var d, n := e.snapshot.nodes[key], e.nodes[key];
    if d.kind.Join? && !JoinReady(e, key) {
      assert StarvedJoin(e, key);
    } else if n.visits >= d.maxVisits {
      assert !IsSpace(("node visit limit exceeded: " + key)[0]);
      FailExecutionFinishes(e, "node visit limit exceeded: " + key, at);
    } else if d.kind.Terminal? {
      TerminalNodeFinishes(e, key, at);
    } else if d.kind.Task? || d.kind.Approval? {
      WorkNodeSettles(e, key, at);
    } else {
      EnteredFlows(e, key, at);
      EnteredLowers(e, key, at);
      RouteSettles(Entered(e, key, at), key, Success, at, map[]);
    }
  }

  lemma {:induction false} RouteSettles(e: Execution, source: string, outcome: Outcome, at: int, output: Artifact)
    requires Flowing(e) && source in e.nodes && e.nodes[source].visits > 0
    ensures Settled(Route(e, source, outcome, at, output))
    ensures !Route(e, source, outcome, at, output).status.WorkflowPending?
    ensures !Route(e, source, outcome, at, output).status.WorkflowCancelled?
    ensures VisitsGrew(e, Route(e, source, outcome, at, output))
    decreases Potential(e), 2, 0
  {
    var edges := RouteEdges(e.snapshot.edges, source, outcome);
    var targets := SelectTargets(edges, output);
    if targets == [] {
      assert !IsSpace(NoEdgeReason(edges, source, outcome)[0]);
      FailExecutionFinishes(e, NoEdgeReason(edges, source, outcome), at);
    } else {
      RouteTargetsKnown(e.snapshot, source, outcome, output);
      ActivateAllSettles(e, source, targets, at);
    }
  }

  lemma {:induction false} ActivateAllSettles(e: Execution, source: string, targets: seq<string>, at: int)
    requires Flowing(e) && source in e.nodes && e.nodes[source].visits > 0
    requires targets != []
    requires forall t :: t in targets ==> t in e.nodes && source in IncomingSources(e.snapshot.edges, t)
    ensures Settled(ActivateAll(e, targets, at)) && !ActivateAll(e, targets, at).status.WorkflowPending?
    ensures !ActivateAll(e, targets, at).status.WorkflowCancelled?
    ensures VisitsGrew(e, ActivateAll(e, targets, at))
    decreases Potential(e), 1, |targets|
  {
    var e1 := Activate(e, targets[0], at);
    ActivateSettles(e, targets[0], at);
    if !IsTerminal(e1) {
      if targets[1..] == [] {
        assert ActivateAll(e1, targets[1..], at) == e1;
      } else {
        ActivateAllSettles(e1, source, targets[1..], at);
      }
    }
  }

  // ---- one engine call --------------------------------------------------------------

  lemma CreateSettled(s: Snapshot, at: int)
    requires WellFormed(s)
    ensures Settled(Create(s, at))
  {
  }

  /** Replacing one active node by another keeps a flowing execution flowing. */
  lemma KeepFlowing(e: Execution, key: string, f: Execution)
    requires Flowing(e) && key in e.nodes && !e.nodes[key].status.AwaitingApproval?
    requires f.nodes.Keys == e.nodes.Keys && f.snapshot == e.snapshot
    requires forall k :: k in e.nodes && k != key ==> f.nodes[k] == e.nodes[k]
    requires NodeOk(e.snapshot.nodes[key], f.nodes[key])
    requires !f.nodes[key].status.Failed? && !f.nodes[key].status.Cancelled?
    requires f.status == e.status && f.completedAt.None? && f.failureReason.None? && f.startedAt.Some?
    ensures Flowing(f)
  {
    if e.status.WorkflowAwaitingApproval? {
      var k :| k in e.nodes && e.nodes[k].status.AwaitingApproval?;
      assert f.nodes[k].status.AwaitingApproval?;
    }
  }

  lemma ActiveMeansFlowing(e: Execution, key: string)
    requires Settled(e) && key in e.nodes && Active(e.nodes[key])
    ensures Flowing(e)
  {
  }

  /** A call that did not raise: settled before and after, the run had not ended, and no visit was taken back. */
  ghost predicate GoodStep(e: Execution, f: Execution)
  {
    Settled(f) && f.snapshot == e.snapshot && !f.status.WorkflowPending? && !IsTerminal(e) && VisitsGrew(e, f)
  }

  lemma RetrySettles(e: Execution, key: string, at: int, f: Execution)
    requires Flowing(e) && key in e.nodes && e.nodes[key].status.Running?
    requires e.nodes[key].attempts < e.snapshot.nodes[key].maxAttempts
    requires f == Touch(SetNode(e, key, ClearLease(e.nodes[key]).(status := Ready, updatedAt := at)), at)
    ensures GoodStep(e, f)
  {
    assert NodeOk(e.snapshot.nodes[key], e.nodes[key]);
    KeepFlowing(e, key, f);
    assert Active(f.nodes[key]);
  }

  lemma LastFailureSettles(e: Execution, key: string, reason: string, at: int, g: Execution)
    requires Flowing(e) && key in e.nodes && e.nodes[key].status.Running?
    requires g == SetNode(e, key, ClearLease(e.nodes[key]).(status := Failed, completedAt := Some(at), updatedAt := at))
    ensures GoodStep(e, FailExecution(g, FailureReason(reason), at))
  {
    hide FailExecution;
    assert NodeOk(e.snapshot.nodes[key], e.nodes[key]);
    assert Shaped(g) by {
      assert g.nodes.Keys == e.nodes.Keys;
    }
    FailureReasonNotBlank(reason);
    FailExecutionFinishes(g, FailureReason(reason), at);
  }

  lemma FailureReasonNotBlank(reason: string)
    ensures !Blank(FailureReason(reason))
  {
    StripFacts(reason);
    assert !IsSpace(FailureReason(reason)[0]);
  }

  lemma FailureSettles(e: Execution, key: string, reason: string, at: int)
    requires Settled(e) && key in e.nodes && e.nodes[key].status.Running?
    ensures GoodStep(e, HandleTaskFailure(e, key, reason, at))
  {
    ActiveMeansFlowing(e, key);
    var d, n := e.snapshot.nodes[key], ClearLease(e.nodes[key]);
    if n.attempts < d.maxAttempts {
      RetrySettles(e, key, at, HandleTaskFailure(e, key, reason, at));
    } else {
      LastFailureSettles(e, key, reason, at,
                         SetNode(e, key, n.(status := Failed, completedAt := Some(at), updatedAt := at)));
    }
  }

  lemma CompletedFlows(e: Execution, key: string, outcome: Outcome, output: Option<Artifact>, at: int, e1: Execution)
    requires Settled(e) && key in e.nodes && e.nodes[key].status.Running?
    requires e1 == Touch(SetNode(e, key, CompleteNode(e.nodes[key], outcome, output, at)), at)
    ensures Flowing(e1) && VisitsGrew(e, e1) && e1.snapshot == e.snapshot && e1.nodes[key].visits > 0
  {
    ActiveMeansFlowing(e, key);
    assert NodeOk(e.snapshot.nodes[key], e.nodes[key]);
    KeepFlowing(e, key, e1);
  }

  lemma ResolvedFlows(e: Execution, key: string, outcome: Outcome, at: int, e1: Execution)
    requires Settled(e) && key in e.nodes && e.nodes[key].status.AwaitingApproval?
    requires e1 == Touch(SetNode(e, key, ResolveNode(e.nodes[key], outcome, at)).(status := WorkflowRunning), at)
    ensures Flowing(e1) && VisitsGrew(e, e1) && e1.snapshot == e.snapshot && e1.nodes[key].visits > 0
  {
    ActiveMeansFlowing(e, key);
    assert NodeOk(e.snapshot.nodes[key], e.nodes[key]);
    assert e1.nodes.Keys == e.nodes.Keys;
  }

  lemma CompletedRouteSettles(
    e: Execution, key: string, outcome: Outcome, output: Option<Artifact>, at: int, e1: Execution)
    requires Settled(e) && key in e.nodes && e.nodes[key].status.Running?
    requires e1 == Touch(SetNode(e, key, CompleteNode(e.nodes[key], outcome, output, at)), at)
    ensures Shaped(e1) && GoodStep(e, Route(e1, key, outcome, at, ArtifactOf(output)))
  {
    hide Route, Potential, NodeOk, NothingAborted, AwaitingIsBacked, HasStarvedJoin, HasActive, Finished, CompleteNode;
    ActiveMeansFlowing(e, key);
    CompletedFlows(e, key, outcome, output, at, e1);
    RouteSettles(e1, key, outcome, at, ArtifactOf(output));
  }

  lemma CompleteSettles(
    e: Execution, key: string, outcome: Outcome, output: Option<Artifact>, lease: Option<int>, at: int)
    requires Settled(e)
    ensures var r := CompleteTask(e, key, outcome, output, lease, at);
            r.Ok? ==> GoodStep(e, r.value)
  {
    hide Route, NodeOk, Potential, GoodStep, NothingAborted, AwaitingIsBacked, HasActive, HasStarvedJoin;
    if CompleteTask(e, key, outcome, output, lease, at).Ok? {
      var e1 := Touch(SetNode(e, key, CompleteNode(e.nodes[key], outcome, output, at)), at);
      CompletedRouteSettles(e, key, outcome, output, at, e1);
      assert CompleteTask(e, key, outcome, output, lease, at).value == Route(e1, key, outcome, at, ArtifactOf(output));
    }
  }

  lemma ResolvedRouteSettles(e: Execution, key: string, outcome: Outcome, at: int, e1: Execution)
    requires Settled(e) && key in e.nodes && e.nodes[key].status.AwaitingApproval?
    requires e1 == Touch(SetNode(e, key, ResolveNode(e.nodes[key], outcome, at)).(status := WorkflowRunning), at)
    ensures Shaped(e1) && GoodStep(e, Route(e1, key, outcome, at, map[]))
  {
    hide Route, Potential, NodeOk, NothingAborted, AwaitingIsBacked, HasStarvedJoin, HasActive, Finished, ResolveNode;
    ActiveMeansFlowing(e, key);
    ResolvedFlows(e, key, outcome, at, e1);
    RouteSettles(e1, key, outcome, at, map[]);
  }

  lemma ResolveSettles(e: Execution, key: string, approved: bool, at: int)
    requires Settled(e)
    ensures var r := ResolveApproval(e, key, approved, at);
            r.Ok? ==> GoodStep(e, r.value)
  {
    if ResolveApproval(e, key, approved, at).Ok? {
      var outcome := if approved then Approved else Rejected;
      var e1 := Touch(SetNode(e, key, ResolveNode(e.nodes[key], outcome, at)).(status := WorkflowRunning), at);
      ResolvedRouteSettles(e, key, outcome, at, e1);
      assert ResolveApproval(e, key, approved, at).value == Route(e1, key, outcome, at, map[]);
    }
  }

  lemma StartSettles(e: Execution, at: int)
    requires Settled(e)
    ensures var r := StartExecution(e, at);
            && (r.Ok? <==> e.status.WorkflowPending?)
            && (r.Ok? ==> GoodStep(e, r.value) && !r.value.status.WorkflowCancelled?)
  {
    hide Activate, Potential;
    if StartExecution(e, at).Ok? {
      var e1 := Touch(e.(status := WorkflowRunning, startedAt := Some(at)), at);
      assert Flowing(e1);
      ActivateSettles(e1, e.snapshot.entry, at);
    }
  }

  lemma BeginSettles(e: Execution, key: string, at: int)
    requires Settled(e)
    ensures var r := BeginTask(e, key, at);
            r.Ok? ==> GoodStep(e, r.value) && r.value.nodes.Keys == e.nodes.Keys && r.value.nodes[key].status.Running?
  {
    if BeginTask(e, key, at).Ok? {
      ActiveMeansFlowing(e, key);
      var f := BeginTask(e, key, at).value;
      assert NodeOk(e.snapshot.nodes[key], e.nodes[key]);
      KeepFlowing(e, key, f);
      assert Active(f.nodes[key]);
    }
  }

  /** Only the lease of a running task changed. */
  lemma LeaseSettles(e: Execution, key: string, f: Execution)
    requires Settled(e) && key in e.nodes && e.nodes[key].status.Running?
    requires f.nodes.Keys == e.nodes.Keys && f.snapshot == e.snapshot
    requires forall k :: k in e.nodes && k != key ==> f.nodes[k] == e.nodes[k]
    requires NodeOk(e.snapshot.nodes[key], f.nodes[key]) && f.nodes[key].status.Running?
    requires f.nodes[key].visits == e.nodes[key].visits
    requires f.status == e.status && f.completedAt == e.completedAt
    requires f.failureReason == e.failureReason && f.startedAt == e.startedAt
    ensures GoodStep(e, f)
  {
    ActiveMeansFlowing(e, key);
    KeepFlowing(e, key, f);
    assert Active(f.nodes[key]);
  }

  lemma ClaimSettles(e: Execution, key: string, worker: string, leaseSeconds: int, token: int, at: int)
    requires Settled(e)
    ensures var r := ClaimTask(e, key, worker, leaseSeconds, token, at);
            r.Ok? ==> GoodStep(e, r.value)
  {
    hide Potential, NothingAborted, AwaitingIsBacked, HasStarvedJoin;
    if ClaimTask(e, key, worker, leaseSeconds, token, at).Ok? {
      BeginSettles(e, key, at);
      var f := BeginTask(e, key, at).value;
      assert NodeOk(f.snapshot.nodes[key], f.nodes[key]);
      LeaseSettles(f, key, ClaimTask(e, key, worker, leaseSeconds, token, at).value);
    }
  }

  lemma RenewSettles(e: Execution, key: string, token: int, leaseSeconds: int, at: int)
    requires Settled(e)
    ensures var r := RenewLease(e, key, token, leaseSeconds, at);
            r.Ok? ==> GoodStep(e, r.value)
  {
    if RenewLease(e, key, token, leaseSeconds, at).Ok? {
      assert NodeOk(e.snapshot.nodes[key], e.nodes[key]);
      LeaseSettles(e, key, RenewLease(e, key, token, leaseSeconds, at).value);
    }
  }

  lemma CancelSettles(e: Execution, at: int)
    requires Settled(e)
    ensures var r := CancelExecution(e, at);
            r.Ok? ==> GoodStep(e, r.value)
  {
    CancelActiveNodesLowers(e, at);
  }

  /**
   The invariant: every engine call that does not raise takes a settled execution to a
   settled one, never back to pending, and never out of a terminal state.
   */
  lemma ApplySettles(e: Execution, op: Operation, at: int)
    requires Settled(e)
    ensures Apply(e, op, at).Ok? ==> GoodStep(e, Apply(e, op, at).value)
  {
    hide StartExecution, BeginTask, ClaimTask, RenewLease;
    hide CompleteTask, ResolveApproval, CancelExecution, HandleTaskFailure;
    match op {
      case Start => StartSettles(e, at);
      case Begin(key) => BeginSettles(e, key, at);
      case Claim(key, worker, leaseSeconds, token) => ClaimSettles(e, key, worker, leaseSeconds, token, at);
      case Renew(key, token, leaseSeconds) => RenewSettles(e, key, token, leaseSeconds, at);
      case Complete(key, outcome, output, lease) => CompleteSettles(e, key, outcome, output, lease, at);
      case FailTask(key, reason, lease) => if Apply(e, op, at).Ok? { FailureSettles(e, key, reason, at); }
      case Expire(key) => if Apply(e, op, at).Ok? { FailureSettles(e, key, "task lease expired", at); }
      case Resolve(key, approved) => ResolveSettles(e, key, approved, at);
      case Cancel => CancelSettles(e, at);
    }
  }

  // ---- runs -------------------------------------------------------------------------

  /** A history of engine calls; a call that raises leaves the execution as it was. */
  ghost function Replay(e: Execution, history: seq<(Operation, int)>): (r: Execution)
    requires Settled(e)
    ensures Settled(r) && r.snapshot == e.snapshot
    decreases |history|
  {
    if history == [] then e
    else
      ApplySettles(e, history[0].0, history[0].1);
      match Apply(e, history[0].0, history[0].1)
      case Ok(f) => Replay(f, history[1..])
      case Err(_) => Replay(e, history[1..])
  }

  /** A finished execution never changes again, whatever is called on it. */
  lemma {:induction false} TerminalIsFinal(e: Execution, history: seq<(Operation, int)>)
    requires Settled(e) && IsTerminal(e)
    ensures Replay(e, history) == e
  {
    if history != [] {
      ApplySettles(e, history[0].0, history[0].1);
      TerminalIsFinal(e, history[1..]);
    }
  }

  // ---- when can an execution move? --------------------------------------------------

  /** A call by which somebody acts on a node: begin, complete or fail a task, or resolve an approval. */
  predicate IsMove(op: Operation)
  {
    op.Begin? || op.Complete? || op.FailTask? || op.Resolve?
  }

  /** Some such call is accepted at some instant. */
  ghost predicate CanMove(e: Execution)
    requires Shaped(e)
  {
    exists op: Operation, at: int :: IsMove(op) && Apply(e, op, at).Ok?
  }

  lemma ReadyAccepts(e: Execution, k: string)
    requires Shaped(e) && k in e.nodes && e.nodes[k].status.Ready?
    ensures Apply(e, Begin(k), 0).Ok?
  {
    assert NodeOk(e.snapshot.nodes[k], e.nodes[k]);
  }

  lemma AwaitingAccepts(e: Execution, k: string)
    requires Shaped(e) && k in e.nodes && e.nodes[k].status.AwaitingApproval?
    ensures Apply(e, Resolve(k, true), 0).Ok?
  {
  }

  lemma RunningAccepts(e: Execution, k: string) returns (op: Operation, at: int)
    requires Shaped(e) && k in e.nodes && e.nodes[k].status.Running?
    ensures IsMove(op) && Apply(e, op, at).Ok?
  {
    var n := e.nodes[k];
    assert NodeOk(e.snapshot.nodes[k], n);
    op, at := FailTask(k, "", n.leaseToken), if n.leaseToken.Some? then n.leaseExpiresAt.value - 1 else 0;
  }

  lemma ActiveCanMove(e: Execution, k: string)
    requires Settled(e) && k in e.nodes && Active(e.nodes[k])
    ensures CanMove(e)
  {
    if e.nodes[k].status.Ready? {
      ReadyAccepts(e, k);
    } else if e.nodes[k].status.AwaitingApproval? {
      AwaitingAccepts(e, k);
    } else {
      var op, at := RunningAccepts(e, k);
    }
  }

  lemma MoveNeedsActive(e: Execution, op: Operation, at: int)
    requires Settled(e) && !e.status.WorkflowPending?
    requires IsMove(op) && Apply(e, op, at).Ok?
    ensures HasActive(e)
  {
    assert op.key in e.nodes && Active(e.nodes[op.key]);
  }

  /** A started execution can move exactly when one of its nodes is active. */
  lemma MovesExactlyWhenActive(e: Execution)
    requires Settled(e) && !e.status.WorkflowPending?
    ensures CanMove(e) <==> HasActive(e)
  {
    if HasActive(e) {
      var k :| k in e.nodes && Active(e.nodes[k]);
      ActiveCanMove(e, k);
    }
    if CanMove(e) {
      var op: Operation, at: int :| IsMove(op) && Apply(e, op, at).Ok?;
      MoveNeedsActive(e, op, at);
    }
  }

  /** A started, unfinished execution with nothing left to act on. */
  ghost predicate Stuck(e: Execution)
  {
    !e.status.WorkflowPending? && !IsTerminal(e) && !HasActive(e)
  }
}
