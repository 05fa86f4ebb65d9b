/**
 The engine in its own form: methods that change an execution object in place.  Each method
 is proved to do exactly what the corresponding function of `Workflows` says, and to leave
 the object untouched when it raises.
 */
module WorkflowEngine {
  import opened Wrappers
  import opened Text
  import opened Workflows

  class WorkflowExecution {
    const snapshot: Snapshot
    var status: WorkflowStatus
    var nodes: map<string, NodeExecution>
    var failureReason: Option<string>
    var startedAt: Option<int>
    var completedAt: Option<int>
    var updatedAt: int
    var version: int

    ghost function State(): Execution
      reads this
    {
      Execution(snapshot, status, nodes, failureReason, startedAt, completedAt, updatedAt, version)
    }

    constructor (snapshot: Snapshot, at: int)
      ensures State() == Create(snapshot, at)
    {
      this.snapshot := snapshot;
      status := WorkflowPending;
      nodes := map k | k in snapshot.nodes ::
                 NodeExecution(Pending, 0, 0, None, None, None, None, None, None, None, at);
      failureReason, startedAt, completedAt := None, None, None;
      updatedAt, version := at, 1;
    }

    predicate Terminal()
      reads this
    {
      status.WorkflowSucceeded? || status.WorkflowFailed? || status.WorkflowCancelled?
    }

    method TouchAt(at: int)
      modifies this
      ensures State() == Touch(old(State()), at)
    {
      updatedAt := at;
      version := version + 1;
    }

    /** The loop over all nodes shared by cancelling, failing and reaching a terminal node. */
    method CancelActive(at: int)
      modifies this
      ensures State() == CancelActiveNodes(old(State()), at)
    {
      var left := nodes.Keys;
      while left != {}
        invariant left <= nodes.Keys == old(nodes.Keys)
        invariant State() == old(State()).(nodes := nodes)
        invariant forall k :: k in left ==> nodes[k] == old(nodes)[k]
        invariant forall k :: k in old(nodes) && k !in left ==>
                    nodes[k] == if Active(old(nodes)[k]) then CancelNode(old(nodes)[k], at) else old(nodes)[k]
        decreases left
      {
        var k :| k in left;
        if Active(nodes[k]) {
          nodes := nodes[k := CancelNode(nodes[k], at)];
        }
        left := left - {k};
      }
      assert nodes == CancelActiveNodes(old(State()), at).nodes;
    }

    method Fail(reason: string, at: int)
      modifies this
      ensures State() == FailExecution(old(State()), reason, at)
    {
      CancelActive(at);
      status := WorkflowFailed;
      failureReason := Some(reason);
      completedAt := Some(at);
      TouchAt(at);
    }

    /** Reset a node for a new visit and give it the status of its kind. */
    method EnterNode(key: string, at: int)
      requires key in nodes && key in snapshot.nodes
      modifies this
      ensures State() == SetNode(old(State()), key, Enter(snapshot.nodes[key], old(nodes[key]), at))
    {
      var d, n := snapshot.nodes[key], nodes[key];
      n := n.(visits := n.visits + 1, attempts := 0, outcome := None, output := None, startedAt := None,
          completedAt := None);
      n := ClearLease(n).(updatedAt := at);
      match d.kind {
        case Task => n := n.(status := Ready);
        case Approval => n := n.(status := AwaitingApproval);
        case _ => n := n.(status := Succeeded, outcome := Some(Success), completedAt := Some(at));
      }
      nodes := nodes[key := n];
    }

    method ConcludeAt(key: string, result: WorkflowStatus, at: int)
      modifies this
      ensures State() == Conclude(old(State()), result, key, at)
    {
      status := result;
      completedAt := Some(at);
      CancelActive(at);
      if status.WorkflowFailed? {
        failureReason := Some("workflow reached failure terminal: " + key);
      }
      TouchAt(at);
    }

    method ActivateNode(key: string, at: int)
      requires Shaped(State()) && key in nodes
      modifies this
      ensures State() == Activate(old(State()), key, at)
      decreases Potential(State()), 0
    {
      hide FailExecution, Conclude, Route, NodeOk;
      var d := snapshot.nodes[key];
      ghost var before := State();
      var sources := IncomingSources(snapshot.edges, key);
      var waiting := d.kind.Join? && exists s :: s in sources && !nodes[s].status.Succeeded?;
      if waiting {
        return;
      }
      if nodes[key].visits >= d.maxVisits {
        Fail("node visit limit exceeded: " + key, at);
        return;
      }
      EnterNode(key, at);
      if d.kind.Terminal? {
        TerminalNodeConcludes(before, key, at);
        ConcludeAt(key, TerminalStatusOf(d), at);
        return;
      }
      if d.kind.Approval? {
        status := WorkflowAwaitingApproval;
      }
      TouchAt(at);
      InnerNodeUnfolds(before, key, at);
      if d.kind.Fork? || d.kind.Join? {
        RouteFrom(key, Success, at, map[]);
      }
    }

    method RouteFrom(source: string, outcome: Outcome, at: int, output: Artifact)
      requires Shaped(State())
      modifies this
      ensures State() == Route(old(State()), source, outcome, at, output)
      decreases Potential(State()), 1
    {
      hide Activate, NodeOk, FailExecution;
      var edges := RouteEdges(snapshot.edges, source, outcome);
      var targets := SelectTargets(edges, output);
      if targets == [] {
        Fail(NoEdgeReason(edges, source, outcome), at);
        return;
      }
      ghost var before := State();
      RouteTargetsKnown(snapshot, source, outcome, output);
      var i := 0;
      while i < |targets|
        invariant 0 <= i <= |targets|
        invariant Shaped(State()) && State().snapshot == before.snapshot && Potential(State()) <= Potential(before)
        invariant nodes.Keys == before.nodes.Keys
        invariant ActivateAll(before, targets, at) == ActivateAll(State(), targets[i..], at)
      {
        ghost var current := State();
        ActivateNode(targets[i], at);
        ActivateAllUnfolds(current, targets, i, at);
        if Terminal() {
          return;
        }
        i := i + 1;
      }
    }
  }

  lemma ActivateAllUnfolds(e: Execution, targets: seq<string>, i: nat, at: int)
    requires Shaped(e) && i < |targets| && forall t :: t in targets ==> t in e.nodes
    ensures var f := Activate(e, targets[i], at);
            ActivateAll(e, targets[i..], at) == if IsTerminal(f) then f else ActivateAll(f, targets[i + 1..], at)
  {
    assert targets[i..][0] == targets[i] && targets[i..][1..] == targets[i + 1..];
  }

  lemma InnerNodeUnfolds(e: Execution, key: string, at: int)
    requires Shaped(e) && key in e.nodes && e.nodes[key].visits < e.snapshot.nodes[key].maxVisits
    requires !e.snapshot.nodes[key].kind.Terminal?
    requires e.snapshot.nodes[key].kind.Join? ==> JoinReady(e, key)
    ensures var e1 := Entered(e, key, at);
            && Shaped(e1) && Potential(e1) < Potential(e)
            && Activate(e, key, at) ==
               match e.snapshot.nodes[key].kind
               case Task => e1
               case Approval => e1.(status := WorkflowAwaitingApproval)
               case _ => Route(e1, key, Success, at, map[])
  {
    hide Potential, NodeOk, Conclude, FailExecution;
    EnteredLowers(e, key, at);
  }

  // ---- engine calls -----------------------------------------------------------------

  /** A call did what `result` says; if it raised, nothing changed. */
  ghost predicate Reports(
    result: Result<Execution, EngineError>, before: Execution, after: Execution, error: Option<EngineError>)
  {
    match result
    case Ok(e) => error.None? && after == e
    case Err(x) => error == Some(x) && after == before
  }

  method Start(x: WorkflowExecution, at: int) returns (error: Option<EngineError>)
    requires Shaped(x.State())
    modifies x
    ensures Reports(StartExecution(old(x.State()), at), old(x.State()), x.State(), error)
  {
    if !x.status.WorkflowPending? {
      return Some(NotPending);
    }
    ghost var before := x.State();
    x.status := WorkflowRunning;
    x.startedAt := Some(at);
    x.TouchAt(at);
    PotentialFrame(before, x.State());
    x.ActivateNode(x.snapshot.entry, at);
    return None;
  }

  method BeginTask(x: WorkflowExecution, key: string, at: int) returns (error: Option<EngineError>)
    requires Shaped(x.State())
    modifies x
    ensures Reports(Workflows.BeginTask(old(x.State()), key, at), old(x.State()), x.State(), error)
  {
    if key !in x.nodes {
      return Some(UnknownNode);
    }
    var d, n := x.snapshot.nodes[key], x.nodes[key];
    if !d.kind.Task? || !n.status.Ready? {
      return Some(NotReadyTask);
    }
    if n.attempts >= d.maxAttempts {
      return Some(AttemptLimitReached);
    }
    x.nodes := x.nodes[key := n.(status := Running, attempts := n.attempts + 1, startedAt := Some(at),
        updatedAt := at)];
    x.TouchAt(at);
    return None;
  }

  method ClaimTask(x: WorkflowExecution, key: string, worker: string, leaseSeconds: int, token: int, at: int)
    returns (error: Option<EngineError>)
    requires Shaped(x.State())
    modifies x
    ensures Reports(Workflows.ClaimTask(old(x.State()), key, worker, leaseSeconds, token, at), old(x.State()),
              x.State(), error)
  {
    StripFacts(worker);
    if Strip(worker) == [] {
      return Some(BlankWorker);
    }
    if leaseSeconds < 1 {
      return Some(LeaseTooShort);
    }
    error := BeginTask(x, key, at);
    if error.None? {
      x.nodes := x.nodes[key := x.nodes[key].(worker := Some(worker), leaseToken := Some(token),
                                              leaseExpiresAt := Some(at + leaseSeconds))];
    }
  }

  method RenewLease(x: WorkflowExecution, key: string, token: int, leaseSeconds: int, at: int)
    returns (error: Option<EngineError>)
    requires Shaped(x.State())
    modifies x
    ensures Reports(Workflows.RenewLease(old(x.State()), key, token, leaseSeconds, at), old(x.State()), x.State(),
              error)
  {
    if leaseSeconds < 1 {
      return Some(LeaseTooShort);
    }
    if key !in x.nodes {
      return Some(UnknownNode);
    }
    if !x.nodes[key].status.Running? {
      return Some(NotRunning);
    }
    error := CheckLease(x.nodes[key], Some(token), at);
    if error.None? {
      x.nodes := x.nodes[key := x.nodes[key].(leaseExpiresAt := Some(at + leaseSeconds), updatedAt := at)];
      x.TouchAt(at);
    }
  }

  method CompleteTask(
    x: WorkflowExecution, key: string, outcome: Outcome, output: Option<Artifact>, lease: Option<int>, at: int)
    returns (error: Option<EngineError>)
    requires Shaped(x.State())
    modifies x
    ensures Reports(Workflows.CompleteTask(old(x.State()), key, outcome, output, lease, at), old(x.State()),
              x.State(), error)
  {
    hide Route;
    if key !in x.nodes {
      return Some(UnknownNode);
    }
    if !x.nodes[key].status.Running? {
      return Some(NotRunning);
    }
    if !outcome.Success? && !outcome.Failure? {
      return Some(BadTaskOutcome);
    }
    error := CheckLease(x.nodes[key], lease, at);
    if error.Some? {
      return;
    }
    ghost var before := x.State();
    var n := x.nodes[key];
    n := ClearLease(n.(status := Succeeded, outcome := Some(outcome), output := output, completedAt := Some(at),
        updatedAt := at));
    assert NodeOk(x.snapshot.nodes[key], before.nodes[key]) && NodeOk(x.snapshot.nodes[key], n);
    x.nodes := x.nodes[key := n];
    x.TouchAt(at);
    FinishShaped(before, key, n, x.State());
    x.RouteFrom(key, outcome, at, ArtifactOf(output));
  }

  /** `_handle_task_failure` */
  method HandleFailure(x: WorkflowExecution, key: string, reason: string, at: int)
    requires Shaped(x.State()) && key in x.nodes
    modifies x
    ensures x.State() == HandleTaskFailure(old(x.State()), key, reason, at)
  {
    var d, n := x.snapshot.nodes[key], ClearLease(x.nodes[key]);
    if n.attempts < d.maxAttempts {
      x.nodes := x.nodes[key := n.(status := Ready, updatedAt := at)];
      x.TouchAt(at);
    } else {
      x.nodes := x.nodes[key := n.(status := Failed, completedAt := Some(at), updatedAt := at)];
      x.Fail(FailureReason(reason), at);
    }
  }

  method FailTask(x: WorkflowExecution, key: string, reason: string, lease: Option<int>, at: int)
    returns (error: Option<EngineError>)
    requires Shaped(x.State())
    modifies x
    ensures Reports(FailTaskStep(old(x.State()), key, reason, lease, at), old(x.State()), x.State(), error)
  {
    if key !in x.nodes {
      return Some(UnknownNode);
    }
    if !x.nodes[key].status.Running? {
      return Some(NotRunning);
    }
    error := CheckLease(x.nodes[key], lease, at);
    if error.None? {
      HandleFailure(x, key, reason, at);
    }
  }

  method ExpireTask(x: WorkflowExecution, key: string, at: int) returns (error: Option<EngineError>)
    requires Shaped(x.State())
    modifies x
    ensures Reports(Workflows.ExpireTask(old(x.State()), key, at), old(x.State()), x.State(), error)
  {
    if key !in x.nodes {
      return Some(UnknownNode);
    }
    if !x.nodes[key].status.Running? || x.nodes[key].leaseExpiresAt.None? {
      return Some(NoActiveLease);
    }
    if x.nodes[key].leaseExpiresAt.value > at {
      return Some(LeaseNotExpired);
    }
    HandleFailure(x, key, "task lease expired", at);
    return None;
  }

  method ResolveApproval(x: WorkflowExecution, key: string, approved: bool, at: int)
    returns (error: Option<EngineError>)
    requires Shaped(x.State())
    modifies x
    ensures Reports(Workflows.ResolveApproval(old(x.State()), key, approved, at), old(x.State()), x.State(), error)
  {
    if key !in x.nodes {
      return Some(UnknownNode);
    }
    if !x.nodes[key].status.AwaitingApproval? {
      return Some(NotAwaitingApproval);
    }
    ghost var before := x.State();
    var outcome := if approved then Approved else Rejected;
    var n := x.nodes[key].(status := Succeeded, outcome := Some(outcome), completedAt := Some(at), updatedAt := at);
    assert NodeOk(x.snapshot.nodes[key], before.nodes[key]) && NodeOk(x.snapshot.nodes[key], n);
    x.nodes := x.nodes[key := n];
    x.status := WorkflowRunning;
    x.TouchAt(at);
    ghost var resolved := SetNode(before, key, ResolveNode(before.nodes[key], outcome, at));
    assert x.State() == Touch(resolved.(status := WorkflowRunning), at);
    FinishShaped(before, key, n, x.State());
    x.RouteFrom(key, outcome, at, map[]);
    return None;
  }

  method Cancel(x: WorkflowExecution, at: int) returns (error: Option<EngineError>)
    modifies x
    ensures Reports(CancelExecution(old(x.State()), at), old(x.State()), x.State(), error)
  {
    if x.Terminal() {
      return Some(AlreadyTerminal);
    }
    x.CancelActive(at);
    x.status := WorkflowCancelled;
    x.completedAt := Some(at);
    x.TouchAt(at);
    return None;
  }
}
