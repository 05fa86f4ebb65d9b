/**
 Cancelling a run: one unit of work over the execution, the run, the request and the budget
 ledger.  Either everything below happens or nothing does.
 */
module Cancellation {
  import opened Wrappers
  import opened Workflows
  import opened WorkflowSafety
  import opened Lifecycle
  import Budget
  import BudgetSafety
  import BudgetService
  import WorkflowEngine

  datatype CancelError =
    | TerminalRun
    | MissingRun
    | MissingRequest
    | BudgetFailed
    | LifecycleFailed(error: LifecycleError)

  /** The rows the unit of work reads and writes; `context` says whether the execution has a request context. */
  datatype Rows = Rows(
    context: bool,
    execution: Option<Execution>,
    run: Option<Run>,
    request: Option<Request>,
    ledger: Budget.Ledger)

  ghost predicate WellFormedRows(s: Rows, run: int, keys: seq<string>)
  {
    && Budget.Consistent(s.ledger)
    && Budget.Listing(s.ledger, run, keys)
    && (s.execution.Some? ==> Settled(s.execution.value))
  }

  /** A run with a workflow is cancelled through its execution. */
  function CancelThroughExecution(s: Rows, keys: seq<string>, at: int): Result<Rows, CancelError>
    requires s.execution.Some? && forall k :: k in keys ==> k in s.ledger.reservations
  {
    match CancelExecution(s.execution.value, at)
    case Err(_) => Err(TerminalRun)
    case Ok(e) =>
      match Budget.ReleaseRun(s.ledger, keys)
      case Err(_) => Err(BudgetFailed)
      case Ok(l) =>
        match SynchronizeRows(s.context, s.run, s.request, e)
        case Err(x) => Err(LifecycleFailed(x))
        case Ok(p) => if p.0.None? then Err(MissingRun) else Ok(Rows(s.context, Some(e), p.0, p.1, l))
  }

  /** A run without a workflow is cancelled directly. */
  function CancelDirectly(s: Rows, keys: seq<string>, at: int): Result<Rows, CancelError>
    requires forall k :: k in keys ==> k in s.ledger.reservations
  {
    if s.run.None? then Err(MissingRun)
    else if s.request.None? then Err(MissingRequest)
    else
      match Budget.ReleaseRun(s.ledger, keys)
      case Err(_) => Err(BudgetFailed)
      case Ok(l) =>
        match TransitionTo(s.run.value, RunCancelled, at)
        case Err(x) => Err(LifecycleFailed(x))
        case Ok(r) =>
          match SetRequestStatus(s.request.value, RequestCancelled, at)
          case Err(x) => Err(LifecycleFailed(x))
          case Ok(q) => Ok(s.(run := Some(r), request := Some(q), ledger := l))
  }

  function CancelRun(s: Rows, keys: seq<string>, at: int): Result<Rows, CancelError>
    requires forall k :: k in keys ==> k in s.ledger.reservations
  {
    if s.execution.Some? then CancelThroughExecution(s, keys, at) else CancelDirectly(s, keys, at)
  }

  /** The reservations of the run, and only those, have been released. */
  ghost predicate Freed(l: Budget.Ledger, m: Budget.Ledger, run: int, keys: seq<string>)
  {
    && Budget.Consistent(m)
    && BudgetSafety.ReleasedExactly(l, m, keys)
    && forall k :: k in m.reservations ==> !Budget.HeldForRun(m.reservations[k], run)
  }

  lemma ReleaseFrees(l: Budget.Ledger, run: int, keys: seq<string>)
    requires Budget.Consistent(l) && Budget.Listing(l, run, keys)
    ensures forall k :: k in keys ==> k in l.reservations
    ensures Budget.ReleaseRun(l, keys).Ok? && Freed(l, Budget.ReleaseRun(l, keys).value, run, keys)
  {
    BudgetSafety.ReleaseRunKeeps(l, run, keys);
  }

  /** What a cancelled run looks like in all four tables. */
  ghost predicate FullyCancelled(before: Rows, after: Rows, run: int, keys: seq<string>)
  {
    && after.run.Some? && after.run.value.status.RunCancelled? && after.run.value.completedAt.Some?
    && after.request.Some? && after.request.value.status.RequestCancelled?
    && (after.execution.Some? <==> before.execution.Some?)
    && (after.execution.Some? ==> after.execution.value.status.WorkflowCancelled? && Settled(after.execution.value))
    && Freed(before.ledger, after.ledger, run, keys)
  }

  /** Cancelling the workflow of a tracked run cancels run and request with it. */
  lemma CancelTracks(e: Execution, r: Run, q: Request, at: int)
    requires Tracking(e, r, q) && !IsTerminal(e)
    ensures CancelExecution(e, at).Ok?
    ensures var f := CancelExecution(e, at).value;
            && f.status.WorkflowCancelled? && Settled(f) && Synchronize(r, q, f).Ok?
            && var p := Synchronize(r, q, f).value;
               && Tracking(f, p.0, p.1)
               && p.0.status.RunCancelled? && p.0.completedAt.Some? && p.1.status.RequestCancelled?
  {
    hide Synchronize;
    assert Apply(e, Cancel, at) == CancelExecution(e, at);
    TrackingKept(e, r, q, Cancel, at);
  }

  /**
   A tracked run can be cancelled exactly while its workflow has not ended; afterwards the
   execution, run and request are cancelled together, still track each other, and the run holds
   no reservation.
   */
  lemma CancelTrackedRun(s: Rows, run: int, keys: seq<string>, at: int)
    requires WellFormedRows(s, run, keys)
    requires s.context && s.execution.Some? && s.run.Some? && s.request.Some?
    requires Tracking(s.execution.value, s.run.value, s.request.value)
    ensures forall k :: k in keys ==> k in s.ledger.reservations
    ensures CancelRun(s, keys, at).Err? <==> IsTerminal(s.execution.value)
    ensures CancelRun(s, keys, at).Ok? ==>
              var t := CancelRun(s, keys, at).value;
              && FullyCancelled(s, t, run, keys)
              && Tracking(t.execution.value, t.run.value, t.request.value)
  {
    hide Freed, Budget.ReleaseRun, Budget.Consistent, Budget.Listing, Settled, Tracking, Synchronize, CancelActiveNodes;
    ReleaseFrees(s.ledger, run, keys);
    if !IsTerminal(s.execution.value) {
      CancelTracks(s.execution.value, s.run.value, s.request.value, at);
    }
  }

  /**
   Without a request context the execution is cancelled and its reservations are released, but run and request
   stay as they were, also when they are open.
   */
  lemma CancelWithoutContext(s: Rows, run: int, keys: seq<string>, at: int)
    requires WellFormedRows(s, run, keys) && !s.context && s.execution.Some? && s.run.Some?
    ensures forall k :: k in keys ==> k in s.ledger.reservations
    ensures CancelRun(s, keys, at).Err? <==> IsTerminal(s.execution.value)
    ensures CancelRun(s, keys, at).Ok? ==>
              var t := CancelRun(s, keys, at).value;
              && t.execution.Some? && t.execution.value.status.WorkflowCancelled?
              && t.run == s.run && t.request == s.request && Freed(s.ledger, t.ledger, run, keys)
  {
    hide Freed, Budget.ReleaseRun, Budget.Consistent, Budget.Listing, Settled, Synchronize, CancelActiveNodes;
    ReleaseFrees(s.ledger, run, keys);
  }

  /** Without a workflow: a run can be cancelled exactly while it and its request are open. */
  lemma CancelPlainRun(s: Rows, run: int, keys: seq<string>, at: int)
    requires WellFormedRows(s, run, keys) && s.execution.None?
    requires s.run.Some? && s.request.Some?
    ensures forall k :: k in keys ==> k in s.ledger.reservations
    ensures CancelRun(s, keys, at).Err? <==>
              || RunIsTerminal(s.run.value.status)
              || s.request.value.status.RequestCompleted? || s.request.value.status.RequestCancelled?
    ensures CancelRun(s, keys, at).Ok? ==> FullyCancelled(s, CancelRun(s, keys, at).value, run, keys)
  {
    hide Freed, Budget.ReleaseRun, Budget.Consistent, Budget.Listing;
    hide AllowedRunTransitions, AllowedRequestTransitions, CancelThroughExecution, Settled;
    ReleaseFrees(s.ledger, run, keys);
    CancelAllowed(s.run.value.status, s.request.value.status);
  }

  lemma CancelAllowed(r: RunStatus, q: RequestStatus)
    ensures RunCancelled in AllowedRunTransitions(r) <==> !RunIsTerminal(r)
    ensures RequestCancelled in AllowedRequestTransitions(q) <==> !q.RequestCompleted? && !q.RequestCancelled?
  {
  }

  /** An accepted cancellation reaches the request, except through an execution stored without request context. */
  lemma CancelReachesRequestExactly(s: Rows, run: int, keys: seq<string>, at: int)
    requires WellFormedRows(s, run, keys) && s.run.Some? && s.request.Some?
    requires s.execution.Some? && s.context ==> Tracking(s.execution.value, s.run.value, s.request.value)
    requires !s.request.value.status.RequestCancelled?
    ensures forall k :: k in keys ==> k in s.ledger.reservations
    ensures CancelRun(s, keys, at).Ok? ==>
              var t := CancelRun(s, keys, at).value;
              t.request.Some? && (t.request.value.status.RequestCancelled? <==> s.execution.None? || s.context)
  {
    hide CancelRun, Freed, Tracking, Settled;
    if s.execution.None? {
      CancelPlainRun(s, run, keys, at);
    } else if s.context {
      CancelTrackedRun(s, run, keys, at);
    } else {
      CancelWithoutContext(s, run, keys, at);
    }
  }

  /** `cancel_run` over loaded objects; when it raises, the unit of work discards them. */
  method CancelLoaded(
    context: bool, execution: WorkflowEngine.WorkflowExecution?, run: RunAggregate?, request: RequestAggregate?,
    tables: BudgetService.BudgetTables, runId: int, keys: seq<string>, at: int)
    returns (error: Option<CancelError>)
    requires Budget.Consistent(tables.State()) && Budget.Listing(tables.State(), runId, keys)
    modifies execution, run, request, tables
    ensures match CancelRun(old(Loaded(context, execution, run, request, tables)), keys, at)
            case Err(x) => error == Some(x)
            case Ok(t) => error.None? && t == Loaded(context, execution, run, request, tables)
  {
    if execution != null {
      var raised := WorkflowEngine.Cancel(execution, at);
      if raised.Some? {
        return Some(TerminalRun);
      }
      var _ := tables.ReleaseRunReservations(runId, keys);
      var view := Execution(execution.snapshot, execution.status, execution.nodes, execution.failureReason,
                            execution.startedAt, execution.completedAt, execution.updatedAt, execution.version);
      var failed := SynchronizeAggregates(context, run, request, view);
      if failed.Some? {
        return Some(LifecycleFailed(failed.value));
      }
      return if run == null then Some(MissingRun) else None;
    }
    if run == null {
      return Some(MissingRun);
    }
    if request == null {
      return Some(MissingRequest);
    }
    var _ := tables.ReleaseRunReservations(runId, keys);
    var failed := run.MoveTo(RunCancelled, at);
    if failed.Some? {
      return Some(LifecycleFailed(failed.value));
    }
    failed := request.SetStatus(RequestCancelled, at);
    return if failed.Some? then Some(LifecycleFailed(failed.value)) else None;
  }

  ghost function Loaded(
    context: bool, execution: WorkflowEngine.WorkflowExecution?, run: RunAggregate?, request: RequestAggregate?,
    tables: BudgetService.BudgetTables): Rows
    reads execution, run, request, tables
  {
    var state := if execution == null then None else Some(execution.State());
    Rows(context, state, RunRow(run), RequestRow(request), tables.State())
  }
}
