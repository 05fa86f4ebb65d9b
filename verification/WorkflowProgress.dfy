/**
 Every history is short: each accepted engine call other than a lease renewal uses up part
 of a fixed allowance that the definition gives to the execution.  Repair loops, retries,
 expiries, forks and joins can be mixed in any way without exceeding it.
 */
module WorkflowProgress {
  import opened Wrappers
  import opened Sums
  import opened Workflows
  import opened WorkflowSafety

  /** What is left of the allowance. */
  ghost function Measure(e: Execution): nat
    requires Shaped(e)
  {
    Potential(e) + if IsTerminal(e) then 0 else 1
  }

  function NodeAllowance(d: NodeDefinition): int
  {
    d.maxVisits * (2 * d.maxAttempts + 2)
  }

  /** The allowance of a definition: for every node, its visits times two steps an attempt and two more. */
  ghost function Allowance(s: Snapshot): int
  {
    MapSum(s.nodes, NodeAllowance) + 1
  }

  lemma CreateHasAllowance(s: Snapshot, at: int)
    requires WellFormed(s)
    ensures Shaped(Create(s, at)) && Measure(Create(s, at)) == Allowance(s)
  {
    var e := Create(s, at);
    assert e.nodes.Keys == s.nodes.Keys;
    forall k | k in s.nodes
      ensures NodeWeight(Paired(e)[k]) == NodeAllowance(s.nodes[k])
    {
      VisitsWorthIsProduct(s.nodes[k].maxVisits, 2 * s.nodes[k].maxAttempts + 2);
    }
    MapSumSame(Paired(e), s.nodes, NodeWeight, NodeAllowance);
  }

  lemma NodeStepLowers(e: Execution, key: string, n: NodeExecution, f: Execution)
    requires Shaped(e) && key in e.nodes && NodeOk(e.snapshot.nodes[key], n)
    requires n.visits == e.nodes[key].visits
    requires PhaseWeight(e.snapshot.nodes[key], n) < PhaseWeight(e.snapshot.nodes[key], e.nodes[key])
    requires f.nodes == e.nodes[key := n] && f.snapshot == e.snapshot
    ensures Shaped(f) && Potential(f) < Potential(e)
  {
    PotentialUpdate(e, key, n);
    PotentialFrame(SetNode(e, key, n), f);
  }

  lemma EntryIsUnvisited(e: Execution)
    requires Settled(e) && e.status.WorkflowPending?
    ensures Shaped(e) && e.snapshot.entry in e.nodes
    ensures e.nodes[e.snapshot.entry].visits < e.snapshot.nodes[e.snapshot.entry].maxVisits
  {
    var key := e.snapshot.entry;
    assert NodeOk(e.snapshot.nodes[key], e.nodes[key]) && ValidNode(e.snapshot.nodes[key]);
  }

  lemma StartLowers(e: Execution, at: int)
    requires Settled(e) && StartExecution(e, at).Ok?
    ensures Shaped(StartExecution(e, at).value) && Measure(StartExecution(e, at).value) < Measure(e)
  {
    hide NodeOk, ValidNode, Potential, Conclude, Enter, Activate, Finished, Flowing;
    var key := e.snapshot.entry;
    var e1 := Touch(e.(status := WorkflowRunning, startedAt := Some(at)), at);
    EntryIsUnvisited(e);
    PotentialFrame(e, e1);
    EnteredLowers(e1, key, at);
    if e.snapshot.nodes[key].kind.Terminal? {
      EnterLowers(e1, key, at);
      var e0 := SetNode(e1, key, Enter(e1.snapshot.nodes[key], e1.nodes[key], at));
      ConcludeLowers(e0, TerminalStatusOf(e1.snapshot.nodes[key]), key, at);
      TerminalNodeConcludes(e1, key, at);
    } else {
      NonTerminalNodeLowers(e1, key, at);
    }
  }

  /** Activating a node other than an unready join uses up a visit. */
  lemma NonTerminalNodeLowers(e: Execution, key: string, at: int)
    requires Shaped(e) && key in e.nodes && e.nodes[key].visits < e.snapshot.nodes[key].maxVisits
    requires !e.snapshot.nodes[key].kind.Terminal? && !e.snapshot.nodes[key].kind.Join?
    ensures Potential(Activate(e, key, at)) < Potential(e)
  {
    EnteredLowers(e, key, at);
    var e1 := Entered(e, key, at);
    PotentialFrame(e1, e1.(status := WorkflowAwaitingApproval));
  }

  lemma BeginLowers(e: Execution, key: string, at: int)
    requires Settled(e) && BeginTask(e, key, at).Ok?
    ensures Shaped(BeginTask(e, key, at).value) && Measure(BeginTask(e, key, at).value) < Measure(e)
  {
    assert NodeOk(e.snapshot.nodes[key], e.nodes[key]);
    NodeStepLowers(e, key, BeginNode(e.nodes[key], at), BeginTask(e, key, at).value);
  }

  lemma ClaimLowers(e: Execution, key: string, worker: string, leaseSeconds: int, token: int, at: int)
    requires Settled(e) && ClaimTask(e, key, worker, leaseSeconds, token, at).Ok?
    ensures var f := ClaimTask(e, key, worker, leaseSeconds, token, at).value;
            Shaped(f) && Measure(f) < Measure(e)
  {
    hide Potential, NothingAborted, AwaitingIsBacked, HasActive, HasStarvedJoin;
    assert NodeOk(e.snapshot.nodes[key], e.nodes[key]);
    var f := ClaimTask(e, key, worker, leaseSeconds, token, at).value;
    assert f.nodes == e.nodes[key := f.nodes[key]];
    NodeStepLowers(e, key, f.nodes[key], f);
  }

  /** Finishing a node and routing from it. */
  lemma FinishAndRouteLowers(
    e: Execution, key: string, n: NodeExecution, e1: Execution, outcome: Outcome, at: int, output: Artifact)
    requires Settled(e) && key in e.nodes && Active(e.nodes[key])
    requires NodeOk(e.snapshot.nodes[key], n) && n.visits == e.nodes[key].visits && n.status.Succeeded?
    requires e1.nodes == e.nodes[key := n] && e1.snapshot == e.snapshot
    ensures Shaped(e1) && Measure(Route(e1, key, outcome, at, output)) < Measure(e)
  {
    ActiveMeansFlowing(e, key);
    FinishShaped(e, key, n, e1);
  }

  lemma CompleteLowers(
    e: Execution, key: string, outcome: Outcome, output: Option<Artifact>, lease: Option<int>, at: int)
    requires Settled(e) && CompleteTask(e, key, outcome, output, lease, at).Ok?
    ensures var f := CompleteTask(e, key, outcome, output, lease, at).value;
            Shaped(f) && Measure(f) < Measure(e)
  {
    var n := CompleteNode(e.nodes[key], outcome, output, at);
    assert NodeOk(e.snapshot.nodes[key], e.nodes[key]);
    FinishAndRouteLowers(e, key, n, Touch(SetNode(e, key, n), at), outcome, at, ArtifactOf(output));
  }

  lemma ResolveLowers(e: Execution, key: string, approved: bool, at: int)
    requires Settled(e) && ResolveApproval(e, key, approved, at).Ok?
    ensures var f := ResolveApproval(e, key, approved, at).value;
            Shaped(f) && Measure(f) < Measure(e)
  {
    var outcome := if approved then Approved else Rejected;
    var n := ResolveNode(e.nodes[key], outcome, at);
    assert NodeOk(e.snapshot.nodes[key], e.nodes[key]);
    FinishAndRouteLowers(e, key, n, Touch(SetNode(e, key, n).(status := WorkflowRunning), at), outcome, at, map[]);
  }

  lemma FailureLowers(e: Execution, key: string, reason: string, at: int)
    requires Settled(e) && key in e.nodes && e.nodes[key].status.Running?
    ensures var f := HandleTaskFailure(e, key, reason, at);
            Shaped(f) && Measure(f) < Measure(e)
  {
    hide Potential, NothingAborted, AwaitingIsBacked, HasActive, HasStarvedJoin;
    ActiveMeansFlowing(e, key);
    var d, n := e.snapshot.nodes[key], ClearLease(e.nodes[key]);
    assert NodeOk(d, e.nodes[key]);
    if n.attempts < d.maxAttempts {
      NodeStepLowers(e, key, n.(status := Ready, updatedAt := at), HandleTaskFailure(e, key, reason, at));
    } else {
      var failed := n.(status := Failed, completedAt := Some(at), updatedAt := at);
      var g := SetNode(e, key, failed);
      FinishShaped(e, key, failed, g);
      FailExecutionLowers(g, FailureReason(reason), at);
    }
  }

  lemma CancelLowers(e: Execution, at: int)
    requires Settled(e) && CancelExecution(e, at).Ok?
    ensures Shaped(CancelExecution(e, at).value) && Measure(CancelExecution(e, at).value) < Measure(e)
  {
    hide Potential, NodeOk, Active, NothingAborted, AwaitingIsBacked, CancelActiveNodes;
    CancelActiveNodesLowers(e, at);
    PotentialFrame(CancelActiveNodes(e, at), CancelExecution(e, at).value);
  }

  lemma NodeStepKeeps(e: Execution, key: string, n: NodeExecution, f: Execution)
    requires Shaped(e) && key in e.nodes && NodeOk(e.snapshot.nodes[key], n)
    requires n.visits == e.nodes[key].visits && n.attempts == e.nodes[key].attempts && n.status == e.nodes[key].status
    requires f.nodes == e.nodes[key := n] && f.snapshot == e.snapshot
    ensures Shaped(f) && Potential(f) == Potential(e)
  {
    hide Potential;
    PotentialUpdate(e, key, n);
    PotentialFrame(SetNode(e, key, n), f);
  }

  lemma RenewKeeps(e: Execution, key: string, token: int, leaseSeconds: int, at: int)
    requires Settled(e) && RenewLease(e, key, token, leaseSeconds, at).Ok?
    ensures var f := RenewLease(e, key, token, leaseSeconds, at).value;
            Shaped(f) && Measure(f) == Measure(e)
  {
    var f := RenewLease(e, key, token, leaseSeconds, at).value;
    assert NodeOk(e.snapshot.nodes[key], e.nodes[key]);
    NodeStepKeeps(e, key, f.nodes[key], f);
  }

  /** Every accepted call but a renewal uses up some of the allowance; a renewal uses none. */
  lemma ApplyLowers(e: Execution, op: Operation, at: int)
    requires Settled(e) && Apply(e, op, at).Ok?
    ensures Shaped(Apply(e, op, at).value)
    ensures if op.Renew? then Measure(Apply(e, op, at).value) == Measure(e)
            else Measure(Apply(e, op, at).value) < Measure(e)
  {
    hide StartExecution, BeginTask, ClaimTask, RenewLease, CompleteTask;
    hide ResolveApproval, CancelExecution, HandleTaskFailure, Settled, Measure;
    match op {
      case Start => StartLowers(e, at);
      case Begin(key) => BeginLowers(e, key, at);
      case Claim(key, worker, leaseSeconds, token) => ClaimLowers(e, key, worker, leaseSeconds, token, at);
      case Renew(key, token, leaseSeconds) => RenewKeeps(e, key, token, leaseSeconds, at);
      case Complete(key, outcome, output, lease) => CompleteLowers(e, key, outcome, output, lease, at);
      case FailTask(key, reason, lease) => FailureLowers(e, key, reason, at);
      case Expire(key) => FailureLowers(e, key, "task lease expired", at);
      case Resolve(key, approved) => ResolveLowers(e, key, approved, at);
      case Cancel => CancelLowers(e, at);
    }
  }

  /** How many calls of a history were accepted, lease renewals aside. */
  ghost function Accepted(e: Execution, history: seq<(Operation, int)>): nat
    requires Settled(e)
    decreases |history|
  {
    if history == [] then 0
    else
      ApplySettles(e, history[0].0, history[0].1);
      match Apply(e, history[0].0, history[0].1)
      case Ok(f) => (if history[0].0.Renew? then 0 else 1) + Accepted(f, history[1..])
      case Err(_) => Accepted(e, history[1..])
  }

  lemma {:induction false} AcceptedWithinMeasure(e: Execution, history: seq<(Operation, int)>)
    requires Settled(e)
    ensures Accepted(e, history) + Measure(Replay(e, history)) <= Measure(e)
    decreases |history|
  {
    if history != [] {
      var op, at := history[0].0, history[0].1;
      ApplySettles(e, op, at);
      match Apply(e, op, at) {
        case Ok(f) =>
          ApplyLowers(e, op, at);
          AcceptedWithinMeasure(f, history[1..]);
        case Err(_) => AcceptedWithinMeasure(e, history[1..]);
      }
    }
  }

  /** No history of an execution has more accepted calls than its definition allows. */
  lemma HistoriesAreBounded(s: Snapshot, createdAt: int, history: seq<(Operation, int)>)
    requires WellFormed(s)
    ensures Settled(Create(s, createdAt)) && Accepted(Create(s, createdAt), history) <= Allowance(s)
  {
    CreateSettled(s, createdAt);
    CreateHasAllowance(s, createdAt);
    AcceptedWithinMeasure(Create(s, createdAt), history);
  }
}
