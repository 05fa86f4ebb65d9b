/**
 Workflow definitions, executions and the deterministic state-transition engine.

 The functions of this module say what one engine call does to an execution.  The engine's
 own form (methods that change an execution object in place) is in `WorkflowEngine.dfy`;
 what holds of every run is in `WorkflowSafety.dfy` and `WorkflowProgress.dfy`.
 Instants are integers.
 */
module Workflows {
  import opened Wrappers
  import opened Sums
  import opened Ordering
  import opened Text

  datatype NodeKind = Task | Approval | Fork | Join | Terminal

  datatype Outcome = Success | Failure | Approved | Rejected

  datatype NodeStatus = Pending | Ready | Running | AwaitingApproval | Succeeded | Failed | Cancelled

  datatype WorkflowStatus =
    | WorkflowPending
    | WorkflowRunning
    | WorkflowAwaitingApproval
    | WorkflowSucceeded
    | WorkflowFailed
    | WorkflowCancelled

  /** Typed JSON scalars: `1`, `1.0`, `true` and `"1"` are four different values. */
  datatype Scalar = Null | Bool(b: bool) | Int(i: int) | Float(f: real) | Str(s: string)

  /** A task artifact, as the map from each JSON Pointer that resolves in it to a scalar. */
  type Artifact = map<string, Scalar>

  datatype Condition = Condition(path: string, equals: Scalar)

  datatype NodeDefinition = NodeDefinition(
    kind: NodeKind,
    maxAttempts: int,
    maxVisits: int,
    terminalStatus: Option<WorkflowStatus>)

  datatype Edge = Edge(source: string, outcome: Outcome, target: string, condition: Option<Condition>)

  datatype Snapshot = Snapshot(entry: string, nodes: map<string, NodeDefinition>, edges: seq<Edge>)

  datatype NodeExecution = NodeExecution(
    status: NodeStatus,
    visits: nat,
    attempts: nat,
    outcome: Option<Outcome>,
    output: Option<Artifact>,
    worker: Option<string>,
    leaseToken: Option<int>,
    leaseExpiresAt: Option<int>,
    startedAt: Option<int>,
    completedAt: Option<int>,
    updatedAt: int)

  datatype Execution = Execution(
    snapshot: Snapshot,
    status: WorkflowStatus,
    nodes: map<string, NodeExecution>,
    failureReason: Option<string>,
    startedAt: Option<int>,
    completedAt: Option<int>,
    updatedAt: int,
    version: int)

  datatype EngineError =
    | UnknownNode
    | NotPending
    | NotReadyTask
    | AttemptLimitReached
    | BlankWorker
    | LeaseTooShort
    | NotRunning
    | BadTaskOutcome
    | NotLeased
    | WrongLeaseToken
    | LeaseExpired
    | NoActiveLease
    | LeaseNotExpired
    | NotAwaitingApproval
    | AlreadyTerminal

  // ---- definitions ------------------------------------------------------------------

  predicate AllowedOutcome(kind: NodeKind, outcome: Outcome)
  {
    match kind
    case Task => outcome.Success? || outcome.Failure?
    case Approval => outcome.Approved? || outcome.Rejected?
    case Fork => outcome.Success?
    case Join => outcome.Success?
    case Terminal => false
  }

  predicate ValidNode(d: NodeDefinition)
  {
    && d.maxAttempts >= 1
    && d.maxVisits >= 1
    && (d.kind.Fork? || d.kind.Join? ==> d.maxVisits == 1)
    && (d.kind.Terminal? <==> d.terminalStatus.Some?)
    && (d.kind.Terminal? ==> d.terminalStatus.value.WorkflowSucceeded? || d.terminalStatus.value.WorkflowFailed?)
  }

  function AdjacencyFrom(edges: seq<Edge>, source: string): set<string>
  {
    set i | 0 <= i < |edges| && edges[i].source == source :: edges[i].target
  }

  function IncomingSources(edges: seq<Edge>, target: string): set<string>
  {
    set i | 0 <= i < |edges| && edges[i].target == target :: edges[i].source
  }

  /** The part of validation that the engine needs in order to run at all. */
  predicate WellFormed(s: Snapshot)
  {
    && s.entry in s.nodes
    && (forall k :: k in s.nodes ==> ValidNode(s.nodes[k]))
    && (forall i :: 0 <= i < |s.edges| ==> s.edges[i].source in s.nodes && s.edges[i].target in s.nodes)
    && !s.nodes[s.entry].kind.Join?
  }

  // ---- node and execution updates ---------------------------------------------------

  predicate Active(n: NodeExecution)
  {
    n.status.Ready? || n.status.Running? || n.status.AwaitingApproval?
  }

  predicate IsTerminal(e: Execution)
  {
    e.status.WorkflowSucceeded? || e.status.WorkflowFailed? || e.status.WorkflowCancelled?
  }

  function ClearLease(n: NodeExecution): NodeExecution
  {
    n.(worker := None, leaseToken := None, leaseExpiresAt := None)
  }

  function CancelNode(n: NodeExecution, at: int): NodeExecution
  {
    ClearLease(n.(status := Cancelled, completedAt := Some(at), updatedAt := at))
  }

  function Touch(e: Execution, at: int): Execution
  {
    e.(updatedAt := at, version := e.version + 1)
  }

  function SetNode(e: Execution, key: string, n: NodeExecution): Execution
  {
    e.(nodes := e.nodes[key := n])
  }

  function CancelActiveNodes(e: Execution, at: int): Execution
  {
    e.(nodes := map k | k in e.nodes :: if Active(e.nodes[k]) then CancelNode(e.nodes[k], at) else e.nodes[k])
  }

  function FailExecution(e: Execution, reason: string, at: int): Execution
  {
    var f := CancelActiveNodes(e, at);
    Touch(f.(status := WorkflowFailed, failureReason := Some(reason), completedAt := Some(at)), at)
  }

  function Create(s: Snapshot, at: int): Execution
  {
    var entered := NodeExecution(Pending, 0, 0, None, None, None, None, None, None, None, at);
    Execution(s, WorkflowPending, map k | k in s.nodes :: entered, None, None, None, at, 1)
  }

  // ---- what a node may look like ----------------------------------------------------

  predicate NodeOk(d: NodeDefinition, n: NodeExecution)
  {
    && n.visits <= d.maxVisits
    && n.attempts <= d.maxAttempts
    && (n.status.Pending? <==> n.visits == 0)
    && (n.status.Ready? ==> d.kind.Task? && n.attempts < d.maxAttempts)
    && (n.status.Running? ==> d.kind.Task? && n.attempts >= 1)
    && (n.status.AwaitingApproval? ==> d.kind.Approval?)
    && (n.leaseToken.Some? ==> n.status.Running?)
    && (n.leaseToken.Some? <==> n.leaseExpiresAt.Some?)
    && (n.leaseToken.Some? <==> n.worker.Some?)
    && (n.outcome.Some? <==> n.status.Succeeded?)
    && (n.completedAt.Some? <==> n.status.Succeeded? || n.status.Failed? || n.status.Cancelled?)
  }

  ghost predicate Shaped(e: Execution)
  {
    && WellFormed(e.snapshot)
    && e.nodes.Keys == e.snapshot.nodes.Keys
    && forall k :: k in e.nodes ==> NodeOk(e.snapshot.nodes[k], e.nodes[k])
  }

  // ---- the progress measure ---------------------------------------------------------

  /** Steps the current visit of a node can still take. */
  function PhaseWeight(d: NodeDefinition, n: NodeExecution): int
  {
    match n.status
    case Ready => 2 * (d.maxAttempts - n.attempts) + 1
    case Running => 2 * (d.maxAttempts - n.attempts) + 2
    case AwaitingApproval => 1
    case _ => 0
  }

  /** `visits` visits of `unit` steps each. */
  function VisitsWorth(visits: int, unit: int): int
    decreases visits
  {
    if visits <= 0 then 0 else unit + VisitsWorth(visits - 1, unit)
  }

  /** Every visit not yet used is worth more than any single visit can take. */
  function NodeWeight(p: (NodeDefinition, NodeExecution)): int
  {
    VisitsWorth(p.0.maxVisits - p.1.visits, 2 * p.0.maxAttempts + 2) + PhaseWeight(p.0, p.1)
  }

  lemma {:induction false} VisitsWorthIsProduct(visits: int, unit: int)
    requires visits >= 0
    ensures VisitsWorth(visits, unit) == visits * unit
    decreases visits
  {
    if visits > 0 {
      VisitsWorthIsProduct(visits - 1, unit);
    }
  }

  ghost function Paired(e: Execution): map<string, (NodeDefinition, NodeExecution)>
    requires e.nodes.Keys == e.snapshot.nodes.Keys
  {
    map k | k in e.nodes :: (e.snapshot.nodes[k], e.nodes[k])
  }

  /** Work left in the nodes of an execution. */
  ghost function Potential(e: Execution): nat
    requires Shaped(e)
  {
    var pairs := Paired(e);
    assert forall k :: k in pairs ==> NodeWeight(pairs[k]) >= 0 by {
      forall k | k in pairs ensures NodeWeight(pairs[k]) >= 0 {
        assert NodeOk(e.snapshot.nodes[k], e.nodes[k]) && ValidNode(e.snapshot.nodes[k]);
        NodeWeightNonNegative(e.snapshot.nodes[k], e.nodes[k]);
      }
    }
    MapSumNonNegative(pairs, NodeWeight);
    MapSum(pairs, NodeWeight)
  }

  lemma NodeWeightNonNegative(d: NodeDefinition, n: NodeExecution)
    requires ValidNode(d) && NodeOk(d, n)
    ensures NodeWeight((d, n)) >= PhaseWeight(d, n) >= 0
  {
    var left, unit := d.maxVisits - n.visits, 2 * d.maxAttempts + 2;
    VisitsWorthIsProduct(left, unit);
    assert left * unit >= 0;
  }

  /** Writing one node moves the potential by the difference of the two weights. */
  lemma PotentialUpdate(e: Execution, key: string, n: NodeExecution)
    requires Shaped(e) && key in e.nodes && NodeOk(e.snapshot.nodes[key], n)
    ensures Shaped(SetNode(e, key, n))
    ensures Potential(SetNode(e, key, n)) ==
            Potential(e) + NodeWeight((e.snapshot.nodes[key], n)) - NodeWeight((e.snapshot.nodes[key], e.nodes[key]))
  {
    hide NodeWeight;
    var e' := SetNode(e, key, n);
    assert e'.nodes.Keys == e.nodes.Keys;
    assert Paired(e') == Paired(e)[key := (e.snapshot.nodes[key], n)];
    MapSumUpdate(Paired(e), NodeWeight, key, (e.snapshot.nodes[key], n));
  }

  /** Fields outside the node table do not count. */
  lemma PotentialFrame(e: Execution, f: Execution)
    requires Shaped(e) && f.snapshot == e.snapshot && f.nodes == e.nodes
    ensures Shaped(f) && Potential(f) == Potential(e)
  {
    assert Paired(e) == Paired(f);
  }

  lemma CancelActiveNodesLowers(e: Execution, at: int)
    requires Shaped(e)
    ensures Shaped(CancelActiveNodes(e, at))
    ensures Potential(CancelActiveNodes(e, at)) <= Potential(e)
    ensures forall k :: k in e.nodes ==> !Active(CancelActiveNodes(e, at).nodes[k])
  {
    hide NodeOk, NodeWeight, ValidNode, CancelNode, Active;
    var f := CancelActiveNodes(e, at);
    assert f.nodes.Keys == e.nodes.Keys;
    forall k | k in e.nodes
      ensures NodeOk(e.snapshot.nodes[k], f.nodes[k])
      ensures NodeWeight(Paired(f)[k]) <= NodeWeight(Paired(e)[k]) && !Active(f.nodes[k])
    {
      assert NodeOk(e.snapshot.nodes[k], e.nodes[k]) && ValidNode(e.snapshot.nodes[k]);
      CancelWeight(e.snapshot.nodes[k], e.nodes[k], at);
    }
    MapSumMonotone(Paired(f), Paired(e), NodeWeight);
  }

  lemma CancelWeight(d: NodeDefinition, n: NodeExecution, at: int)
    requires NodeOk(d, n) && ValidNode(d)
    ensures Active(n) ==> NodeOk(d, CancelNode(n, at)) && !Active(CancelNode(n, at))
    ensures Active(n) ==> NodeWeight((d, CancelNode(n, at))) <= NodeWeight((d, n))
  {
    hide VisitsWorth;
  }

  lemma FailExecutionLowers(e: Execution, reason: string, at: int)
    requires Shaped(e)
    ensures Shaped(FailExecution(e, reason, at))
    ensures Potential(FailExecution(e, reason, at)) <= Potential(e)
    ensures forall k :: k in e.nodes ==> !Active(FailExecution(e, reason, at).nodes[k])
  {
    CancelActiveNodesLowers(e, at);
    PotentialFrame(CancelActiveNodes(e, at), FailExecution(e, reason, at));
  }

  // ---- routing ----------------------------------------------------------------------

  function RouteEdges(edges: seq<Edge>, source: string, outcome: Outcome): seq<Edge>
  {
    if edges == [] then []
    else if edges[0].source == source && edges[0].outcome == outcome then
      [edges[0]] + RouteEdges(edges[1..], source, outcome)
    else RouteEdges(edges[1..], source, outcome)
  }

  predicate Matches(e: Edge, output: Artifact)
  {
    e.condition.Some? && e.condition.value.path in output && output[e.condition.value.path] == e.condition.value.equals
  }

  function FirstMatch(edges: seq<Edge>, output: Artifact): Option<string>
  {
    if edges == [] then None
    else if Matches(edges[0], output) then Some(edges[0].target)
    else FirstMatch(edges[1..], output)
  }

  function FirstDefault(edges: seq<Edge>): Option<string>
  {
    if edges == [] then None
    else if edges[0].condition.None? then Some(edges[0].target)
    else FirstDefault(edges[1..])
  }

  predicate HasConditional(edges: seq<Edge>)
  {
    exists i :: 0 <= i < |edges| && edges[i].condition.Some?
  }

  function Targets(edges: seq<Edge>): seq<string>
  {
    seq(|edges|, i requires 0 <= i < |edges| => edges[i].target)
  }

  function SelectTargets(edges: seq<Edge>, output: Artifact): seq<string>
  {
    if !HasConditional(edges) then Sort(Targets(edges), StringLe)
    else
      match FirstMatch(edges, output)
      case Some(target) => [target]
      case None =>
        match FirstDefault(edges)
        case Some(target) => [target]
        case None => []
  }

  lemma {:induction false} RouteEdgesSound(edges: seq<Edge>, source: string, outcome: Outcome)
    ensures forall x :: x in RouteEdges(edges, source, outcome) <==>
                        x in edges && x.source == source && x.outcome == outcome
  {
    if edges != [] {
      RouteEdgesSound(edges[1..], source, outcome);
      assert edges == [edges[0]] + edges[1..];
    }
  }

  lemma {:induction false} FirstMatchSound(edges: seq<Edge>, output: Artifact)
    ensures FirstMatch(edges, output).Some? ==>
              exists x :: x in edges && Matches(x, output) && x.target == FirstMatch(edges, output).value
    ensures FirstMatch(edges, output).None? ==> forall x :: x in edges ==> !Matches(x, output)
  {
    if edges != [] {
      FirstMatchSound(edges[1..], output);
      assert edges == [edges[0]] + edges[1..];
    }
  }

  lemma {:induction false} FirstDefaultSound(edges: seq<Edge>)
    ensures FirstDefault(edges).Some? ==>
              exists x :: x in edges && x.condition.None? && x.target == FirstDefault(edges).value
    ensures FirstDefault(edges).None? ==> forall x :: x in edges ==> x.condition.Some?
  {
    if edges != [] {
      FirstDefaultSound(edges[1..]);
      assert edges == [edges[0]] + edges[1..];
    }
  }

  /** Every selected target is the target of one of the edges. */
  lemma SelectTargetsSound(edges: seq<Edge>, output: Artifact, t: string)
    requires t in SelectTargets(edges, output)
    ensures exists x :: x in edges && x.target == t
  {
    if !HasConditional(edges) {
      StringOrder();
      SortMembers(Targets(edges), StringLe, t);
      var i :| 0 <= i < |edges| && Targets(edges)[i] == t;
      assert edges[i] in edges;
    } else {
      FirstMatchSound(edges, output);
      FirstDefaultSound(edges);
    }
  }

  /** Every target the engine routes to is joined to the source by an edge of the definition. */
  lemma RouteTargetsKnown(s: Snapshot, source: string, outcome: Outcome, output: Artifact)
    requires WellFormed(s)
    ensures forall t :: t in SelectTargets(RouteEdges(s.edges, source, outcome), output) ==>
                        t in s.nodes && source in IncomingSources(s.edges, t)
  {
    var edges := RouteEdges(s.edges, source, outcome);
    forall t | t in SelectTargets(edges, output)
      ensures t in s.nodes && source in IncomingSources(s.edges, t)
    {
      SelectTargetsSound(edges, output, t);
      RouteEdgesSound(s.edges, source, outcome);
      var x :| x in edges && x.target == t;
      var i :| 0 <= i < |s.edges| && s.edges[i] == x;
    }
  }

  // ---- activation -------------------------------------------------------------------

  predicate JoinReady(e: Execution, key: string)
    requires WellFormed(e.snapshot) && e.nodes.Keys == e.snapshot.nodes.Keys
  {
    forall s :: s in IncomingSources(e.snapshot.edges, key) ==> e.nodes[s].status.Succeeded?
  }

  /** A node at the start of a new visit. */
  function Enter(d: NodeDefinition, n: NodeExecution, at: int): NodeExecution
  {
    var entered := NodeExecution(Ready, n.visits + 1, 0, None, None, None, None, None, None, None, at);
    match d.kind
    case Task => entered
    case Approval => entered.(status := AwaitingApproval)
    case _ => entered.(status := Succeeded, outcome := Some(Success), completedAt := Some(at))
  }

  /** A new visit costs more than it can give back. */
  lemma EnterWeight(d: NodeDefinition, n: NodeExecution, at: int)
    requires ValidNode(d) && NodeOk(d, n) && n.visits < d.maxVisits
    ensures NodeOk(d, Enter(d, n, at))
    ensures NodeWeight((d, Enter(d, n, at))) < NodeWeight((d, n))
  {
    var left, unit := d.maxVisits - n.visits, 2 * d.maxAttempts + 2;
    assert VisitsWorth(left, unit) == unit + VisitsWorth(left - 1, unit);
  }

  lemma EnterLowers(e: Execution, key: string, at: int)
    requires Shaped(e) && key in e.nodes
    requires e.nodes[key].visits < e.snapshot.nodes[key].maxVisits
    ensures Shaped(SetNode(e, key, Enter(e.snapshot.nodes[key], e.nodes[key], at)))
    ensures Potential(SetNode(e, key, Enter(e.snapshot.nodes[key], e.nodes[key], at))) < Potential(e)
  {
    EnterWeight(e.snapshot.nodes[key], e.nodes[key], at);
    PotentialUpdate(e, key, Enter(e.snapshot.nodes[key], e.nodes[key], at));
  }

  /** What a terminal node does to the whole execution. */
  function Conclude(e: Execution, status: WorkflowStatus, key: string, at: int): Execution
  {
    var f := CancelActiveNodes(e.(status := status, completedAt := Some(at)), at);
    var reason := "workflow reached failure terminal: " + key;
    Touch(if status.WorkflowFailed? then f.(failureReason := Some(reason)) else f, at)
  }

  lemma ConcludeLowers(e: Execution, status: WorkflowStatus, key: string, at: int)
    requires Shaped(e)
    ensures Shaped(Conclude(e, status, key, at))
    ensures Potential(Conclude(e, status, key, at)) <= Potential(e)
    ensures forall k :: k in e.nodes ==> !Active(Conclude(e, status, key, at).nodes[k])
  {
    var g := e.(status := status, completedAt := Some(at));
    PotentialFrame(e, g);
    CancelActiveNodesLowers(g, at);
    PotentialFrame(CancelActiveNodes(g, at), Conclude(e, status, key, at));
  }

  function TerminalStatusOf(d: NodeDefinition): WorkflowStatus
  {
    match d.terminalStatus
    case Some(s) => s
    case None => WorkflowFailed
  }

  /** The state right after a node has been entered, before anything is routed from it. */
  function Entered(e: Execution, key: string, at: int): Execution
    requires Shaped(e) && key in e.nodes
  {
    Touch(SetNode(e, key, Enter(e.snapshot.nodes[key], e.nodes[key], at)), at)
  }

  lemma EnteredLowers(e: Execution, key: string, at: int)
    requires Shaped(e) && key in e.nodes
    requires e.nodes[key].visits < e.snapshot.nodes[key].maxVisits
    ensures Shaped(Entered(e, key, at)) && Potential(Entered(e, key, at)) < Potential(e)
  {
    EnterLowers(e, key, at);
    PotentialFrame(SetNode(e, key, Enter(e.snapshot.nodes[key], e.nodes[key], at)), Entered(e, key, at));
  }

  function Activate(e: Execution, key: string, at: int): (r: Execution)
    requires Shaped(e) && key in e.nodes
    ensures Shaped(r) && r.snapshot == e.snapshot && Potential(r) <= Potential(e)
    decreases Potential(e), 0, 0
  {
    var d, n := e.snapshot.nodes[key], e.nodes[key];
    if d.kind.Join? && !JoinReady(e, key) then e
    else if n.visits >= d.maxVisits then
      var reason := "node visit limit exceeded: " + key;
      FailExecutionLowers(e, reason, at);
      FailExecution(e, reason, at)
    else
      EnteredLowers(e, key, at);
      var e1 := Entered(e, key, at);
      match d.kind
      case Task => e1
      case Approval =>
        PotentialFrame(e1, e1.(status := WorkflowAwaitingApproval));
        e1.(status := WorkflowAwaitingApproval)
      case Terminal =>
        EnterLowers(e, key, at);
        var e0 := SetNode(e, key, Enter(d, n, at));
        ConcludeLowers(e0, TerminalStatusOf(d), key, at);
        Conclude(e0, TerminalStatusOf(d), key, at)
      case _ => Route(e1, key, Success, at, map[])
  }

  function OutcomeName(outcome: Outcome): string
  {
    match outcome
    case Success => "success"
    case Failure => "failure"
    case Approved => "approved"
    case Rejected => "rejected"
  }

  function NoEdgeReason(edges: seq<Edge>, source: string, outcome: Outcome): string
  {
    (if edges != [] then "no matching edge for " else "no edge for ") + source + ":" + OutcomeName(outcome)
  }

  function Route(e: Execution, source: string, outcome: Outcome, at: int, output: Artifact): (r: Execution)
    requires Shaped(e)
    ensures Shaped(r) && r.snapshot == e.snapshot && Potential(r) <= Potential(e)
    decreases Potential(e), 2, 0
  {
    var edges := RouteEdges(e.snapshot.edges, source, outcome);
    var targets := SelectTargets(edges, output);
    if targets == [] then
      FailExecutionLowers(e, NoEdgeReason(edges, source, outcome), at);
      FailExecution(e, NoEdgeReason(edges, source, outcome), at)
    else
      RouteTargetsKnown(e.snapshot, source, outcome, output);
      ActivateAll(e, targets, at)
  }

  function ActivateAll(e: Execution, targets: seq<string>, at: int): (r: Execution)
    requires Shaped(e) && forall t :: t in targets ==> t in e.nodes
    ensures Shaped(r) && r.snapshot == e.snapshot && Potential(r) <= Potential(e)
    decreases Potential(e), 1, |targets|
  {
    if targets == [] then e
    else
      var e1 := Activate(e, targets[0], at);
      if IsTerminal(e1) then e1 else ActivateAll(e1, targets[1..], at)
  }

  /** What activating a terminal node amounts to. */
  lemma TerminalNodeConcludes(e: Execution, key: string, at: int)
    requires Shaped(e) && key in e.nodes
    requires e.nodes[key].visits < e.snapshot.nodes[key].maxVisits
    requires e.snapshot.nodes[key].kind.Terminal?
    ensures Activate(e, key, at) ==
            Conclude(SetNode(e, key, Enter(e.snapshot.nodes[key], e.nodes[key], at)),
                     TerminalStatusOf(e.snapshot.nodes[key]), key, at)
  {
  }

  // ---- operations -------------------------------------------------------------------

  datatype Operation =
    | Start
    | Begin(key: string)
    | Claim(key: string, worker: string, leaseSeconds: int, token: int)
    | Renew(key: string, heldToken: int, leaseSeconds: int)
    | Complete(key: string, outcome: Outcome, output: Option<Artifact>, lease: Option<int>)
    | FailTask(key: string, reason: string, lease: Option<int>)
    | Expire(key: string)
    | Resolve(key: string, approved: bool)
    | Cancel

  function BeginNode(n: NodeExecution, at: int): NodeExecution
  {
    n.(status := Running, attempts := n.attempts + 1, startedAt := Some(at), updatedAt := at)
  }

  function BeginTask(e: Execution, key: string, at: int): Result<Execution, EngineError>
    requires Shaped(e)
  {
    if key !in e.nodes then Err(UnknownNode)
    else
      var d, n := e.snapshot.nodes[key], e.nodes[key];
      if !d.kind.Task? || !n.status.Ready? then Err(NotReadyTask)
      else if n.attempts >= d.maxAttempts then Err(AttemptLimitReached)
      else Ok(Touch(SetNode(e, key, BeginNode(n, at)), at))
  }

  function ClaimTask(e: Execution, key: string, worker: string, leaseSeconds: int, token: int, at: int)
    : Result<Execution, EngineError>
    requires Shaped(e)
  {
    if Blank(worker) then Err(BlankWorker)
    else if leaseSeconds < 1 then Err(LeaseTooShort)
    else
      match BeginTask(e, key, at)
      case Err(x) => Err(x)
      case Ok(f) =>
        Ok(SetNode(f, key, f.nodes[key].(worker := Some(worker), leaseToken := Some(token),
                                         leaseExpiresAt := Some(at + leaseSeconds))))
  }

  /** `_validate_optional_lease`: nothing raised. */
  function CheckLease(n: NodeExecution, lease: Option<int>, at: int): Option<EngineError>
  {
    if n.leaseToken.None? then (if lease.Some? then Some(NotLeased) else None)
    else if lease != n.leaseToken then Some(WrongLeaseToken)
    else if n.leaseExpiresAt.None? || n.leaseExpiresAt.value <= at then Some(LeaseExpired)
    else None
  }

  function RenewLease(e: Execution, key: string, token: int, leaseSeconds: int, at: int): Result<Execution, EngineError>
    requires Shaped(e)
  {
    if leaseSeconds < 1 then Err(LeaseTooShort)
    else if key !in e.nodes then Err(UnknownNode)
    else if !e.nodes[key].status.Running? then Err(NotRunning)
    else
      match CheckLease(e.nodes[key], Some(token), at)
      case Some(x) => Err(x)
      case None =>
        Ok(Touch(SetNode(e, key, e.nodes[key].(leaseExpiresAt := Some(at + leaseSeconds), updatedAt := at)), at))
  }

  function CompleteNode(n: NodeExecution, outcome: Outcome, output: Option<Artifact>, at: int): NodeExecution
  {
    ClearLease(n.(status := Succeeded, outcome := Some(outcome), output := output, completedAt := Some(at),
        updatedAt := at))
  }

  function ArtifactOf(output: Option<Artifact>): Artifact
  {
    match output
    case Some(a) => a
    case None => map[]
  }

  function CompleteTask(
    e: Execution, key: string, outcome: Outcome, output: Option<Artifact>, lease: Option<int>, at: int)
    : Result<Execution, EngineError>
    requires Shaped(e)
  {
    if key !in e.nodes then Err(UnknownNode)
    else if !e.nodes[key].status.Running? then Err(NotRunning)
    else if !outcome.Success? && !outcome.Failure? then Err(BadTaskOutcome)
    else
      match CheckLease(e.nodes[key], lease, at)
      case Some(x) => Err(x)
      case None =>
        var e1 := Touch(SetNode(e, key, CompleteNode(e.nodes[key], outcome, output, at)), at);
        FinishShaped(e, key, CompleteNode(e.nodes[key], outcome, output, at), e1);
        Ok(Route(e1, key, outcome, at, ArtifactOf(output)))
  }

  /** Finishing a node keeps the execution shaped and uses up the visit. */
  lemma FinishShaped(e: Execution, key: string, n: NodeExecution, e1: Execution)
    requires Shaped(e) && key in e.nodes && Active(e.nodes[key])
    requires NodeOk(e.snapshot.nodes[key], n) && n.visits == e.nodes[key].visits
    requires n.status.Succeeded? || n.status.Failed?
    requires e1.nodes == e.nodes[key := n] && e1.snapshot == e.snapshot
    ensures Shaped(e1) && Potential(e1) < Potential(e)
  {
    PotentialUpdate(e, key, n);
    PotentialFrame(SetNode(e, key, n), e1);
    assert ValidNode(e.snapshot.nodes[key]) && NodeOk(e.snapshot.nodes[key], e.nodes[key]);
  }

  function FailureReason(reason: string): string
  {
    if Strip(reason) != [] then Strip(reason) else "task execution failed"
  }

  function HandleTaskFailure(e: Execution, key: string, reason: string, at: int): Execution
    requires Shaped(e) && key in e.nodes
  {
    var d, n := e.snapshot.nodes[key], ClearLease(e.nodes[key]);
    if n.attempts < d.maxAttempts then
      Touch(SetNode(e, key, n.(status := Ready, updatedAt := at)), at)
    else
      FailExecution(SetNode(e, key, n.(status := Failed, completedAt := Some(at), updatedAt := at)),
                    FailureReason(reason), at)
  }

  function FailTaskStep(
    e: Execution, key: string, reason: string, lease: Option<int>, at: int): Result<Execution, EngineError>
    requires Shaped(e)
  {
    if key !in e.nodes then Err(UnknownNode)
    else if !e.nodes[key].status.Running? then Err(NotRunning)
    else
      match CheckLease(e.nodes[key], lease, at)
      case Some(x) => Err(x)
      case None => Ok(HandleTaskFailure(e, key, reason, at))
  }

  function ExpireTask(e: Execution, key: string, at: int): Result<Execution, EngineError>
    requires Shaped(e)
  {
    if key !in e.nodes then Err(UnknownNode)
    else if !e.nodes[key].status.Running? || e.nodes[key].leaseExpiresAt.None? then Err(NoActiveLease)
    else if e.nodes[key].leaseExpiresAt.value > at then Err(LeaseNotExpired)
    else Ok(HandleTaskFailure(e, key, "task lease expired", at))
  }

  function ResolveNode(n: NodeExecution, outcome: Outcome, at: int): NodeExecution
  {
    n.(status := Succeeded, outcome := Some(outcome), completedAt := Some(at), updatedAt := at)
  }

  function ResolveApproval(e: Execution, key: string, approved: bool, at: int): Result<Execution, EngineError>
    requires Shaped(e)
  {
    if key !in e.nodes then Err(UnknownNode)
    else if !e.nodes[key].status.AwaitingApproval? then Err(NotAwaitingApproval)
    else
      var outcome := if approved then Approved else Rejected;
      var e1 := Touch(SetNode(e, key, ResolveNode(e.nodes[key], outcome, at)).(status := WorkflowRunning), at);
      FinishShaped(e, key, ResolveNode(e.nodes[key], outcome, at), e1);
      Ok(Route(e1, key, outcome, at, map[]))
  }

  function StartExecution(e: Execution, at: int): Result<Execution, EngineError>
    requires Shaped(e)
  {
    if !e.status.WorkflowPending? then Err(NotPending)
    else
      var e1 := Touch(e.(status := WorkflowRunning, startedAt := Some(at)), at);
      PotentialFrame(e, e1);
      Ok(Activate(e1, e.snapshot.entry, at))
  }

  function CancelExecution(e: Execution, at: int): Result<Execution, EngineError>
  {
    if IsTerminal(e) then Err(AlreadyTerminal)
    else Ok(Touch(CancelActiveNodes(e, at).(status := WorkflowCancelled, completedAt := Some(at)), at))
  }

  /** One engine call. */
  function Apply(e: Execution, op: Operation, at: int): Result<Execution, EngineError>
    requires Shaped(e)
  {
    match op
    case Start => StartExecution(e, at)
    case Begin(key) => BeginTask(e, key, at)
    case Claim(key, worker, leaseSeconds, token) => ClaimTask(e, key, worker, leaseSeconds, token, at)
    case Renew(key, token, leaseSeconds) => RenewLease(e, key, token, leaseSeconds, at)
    case Complete(key, outcome, output, lease) => CompleteTask(e, key, outcome, output, lease, at)
    case FailTask(key, reason, lease) => FailTaskStep(e, key, reason, lease, at)
    case Expire(key) => ExpireTask(e, key, at)
    case Resolve(key, approved) => ResolveApproval(e, key, approved, at)
    case Cancel => CancelExecution(e, at)
  }
}
