/**
 Runs, user requests, and their synchronisation with the workflow execution they track.

 `Synchronize` says what one synchronisation does; `TrackingKept` composes it with the engine:
 over every history of engine calls the synchronisation never raises and the run and the
 request always show the projected outcome.  The classes at the end are the aggregates in
 their own form, changed in place.
 */
module Lifecycle {
  import opened Wrappers
  import opened Text
  import opened Workflows
  import opened WorkflowSafety

  datatype RunStatus =
    | RunQueued
    | RunPlanning
    | RunAwaitingApproval
    | RunReady
    | RunRunning
    | RunVerifying
    | RunSucceeded
    | RunFailed
    | RunCancelled

  datatype RequestStatus = RequestReceived | RequestActive | RequestCompleted | RequestCancelled

  datatype Run = Run(
    status: RunStatus,
    failureReason: Option<string>,
    updatedAt: int,
    startedAt: Option<int>,
    completedAt: Option<int>,
    version: int)

  datatype Request = Request(status: RequestStatus, updatedAt: int)

  datatype LifecycleError = InvalidTransition | EmptyFailureReason | RunMissing | RequestMissing

  predicate RunIsTerminal(s: RunStatus)
  {
    s.RunSucceeded? || s.RunFailed? || s.RunCancelled?
  }

  function AllowedRunTransitions(s: RunStatus): set<RunStatus>
  {
    var ending := {RunSucceeded, RunFailed, RunCancelled};
    match s
    case RunQueued => {RunPlanning, RunRunning, RunAwaitingApproval} + ending
    case RunPlanning => {RunAwaitingApproval, RunReady, RunRunning} + ending
    case RunAwaitingApproval => {RunReady, RunRunning} + ending
    case RunReady => {RunRunning, RunAwaitingApproval} + ending
    case RunRunning => {RunAwaitingApproval, RunVerifying} + ending
    case RunVerifying => {RunRunning, RunAwaitingApproval} + ending
    case _ => {}
  }

  function AllowedRequestTransitions(s: RequestStatus): set<RequestStatus>
  {
    match s
    case RequestReceived => {RequestActive, RequestCancelled}
    case RequestActive => {RequestCompleted, RequestCancelled}
    case _ => {}
  }

  function NewRun(at: int): Run
  {
    Run(RunQueued, None, at, None, None, 1)
  }

  function TransitionTo(r: Run, target: RunStatus, at: int): Result<Run, LifecycleError>
  {
    if target !in AllowedRunTransitions(r.status) then Err(InvalidTransition)
    else
      var starts := r.startedAt.None? && (target.RunRunning? || (r.status.RunQueued? && !target.RunCancelled?));
      Ok(r.(status := target, updatedAt := at, version := r.version + 1,
            startedAt := if starts then Some(at) else r.startedAt,
            completedAt := if RunIsTerminal(target) then Some(at) else r.completedAt))
  }

  function FailRun(r: Run, reason: string, at: int): Result<Run, LifecycleError>
  {
    if Strip(reason) == [] then Err(EmptyFailureReason)
    else
      match TransitionTo(r, RunFailed, at)
      case Err(x) => Err(x)
      case Ok(f) => Ok(f.(failureReason := Some(Strip(reason))))
  }

  function SetRequestStatus(q: Request, target: RequestStatus, at: int): Result<Request, LifecycleError>
  {
    if target !in AllowedRequestTransitions(q.status) then Err(InvalidTransition) else Ok(Request(target, at))
  }

  /** Where a run that has not ended may go: to any end, and which states lead to each other state. */
  lemma RunMovesExactly(r: Run, target: RunStatus, at: int)
    ensures TransitionTo(r, target, at).Ok? <==>
              && !RunIsTerminal(r.status) && target != r.status
              && match target
                 case RunQueued => false
                 case RunPlanning => r.status.RunQueued?
                 case RunReady => r.status.RunPlanning? || r.status.RunAwaitingApproval?
                 case RunVerifying => r.status.RunRunning?
                 case _ => true
    ensures TransitionTo(r, target, at).Ok? ==>
              var f := TransitionTo(r, target, at).value;
              && f.status == target && f.updatedAt == at && f.version == r.version + 1
              && f.failureReason == r.failureReason
              && (RunIsTerminal(target) ==> f.completedAt == Some(at))
              && (f.startedAt != r.startedAt ==> r.startedAt.None? && f.startedAt == Some(at))
  {
  }

  /** A request is activated once, completed when active, and cancelled while it is open. */
  lemma RequestMovesExactly(q: Request, target: RequestStatus, at: int)
    ensures SetRequestStatus(q, target, at) ==
              (if match target
                  case RequestReceived => false
                  case RequestActive => q.status.RequestReceived?
                  case RequestCompleted => q.status.RequestActive?
                  case RequestCancelled => q.status.RequestReceived? || q.status.RequestActive?
               then Ok(Request(target, at)) else Err(InvalidTransition))
  {
  }

  // ---- timestamps of a run ----------------------------------------------------------

  /** What the timestamps of a run say about it. */
  predicate Stamped(r: Run)
  {
    && (r.completedAt.Some? <==> RunIsTerminal(r.status))
    && (!r.status.RunQueued? && !r.status.RunCancelled? ==> r.startedAt.Some?)
    && (r.status.RunQueued? ==> r.startedAt.None?)
  }

  /** A run after a list of attempted transitions; refused ones leave it as it was. */
  function RunHistory(r: Run, targets: seq<(RunStatus, int)>): Run
    decreases |targets|
  {
    if targets == [] then r
    else
      match TransitionTo(r, targets[0].0, targets[0].1)
      case Ok(f) => RunHistory(f, targets[1..])
      case Err(_) => RunHistory(r, targets[1..])
  }

  /**
   In every history of a run: `completed_at` is set exactly in terminal states, a run that left
   the queue other than by cancellation has `started_at`, and a terminal run never changes.
   */
  lemma {:induction false} RunTimestamps(r: Run, targets: seq<(RunStatus, int)>)
    requires Stamped(r)
    ensures Stamped(RunHistory(r, targets))
    ensures RunIsTerminal(r.status) ==> RunHistory(r, targets) == r
    ensures r.startedAt.Some? ==> RunHistory(r, targets).startedAt == r.startedAt
    decreases |targets|
  {
    if targets != [] {
      match TransitionTo(r, targets[0].0, targets[0].1) {
        case Ok(f) => RunTimestamps(f, targets[1..]);
        case Err(_) => RunTimestamps(r, targets[1..]);
      }
    }
  }

  // ---- synchronisation --------------------------------------------------------------

  function RunStatusFor(s: WorkflowStatus): RunStatus
  {
    match s
    case WorkflowPending => RunQueued
    case WorkflowRunning => RunRunning
    case WorkflowAwaitingApproval => RunAwaitingApproval
    case WorkflowSucceeded => RunSucceeded
    case WorkflowFailed => RunFailed
    case WorkflowCancelled => RunCancelled
  }

  function ReasonToRecord(e: Execution): string
  {
    match e.failureReason
    case Some(reason) => if reason != [] then reason else "workflow execution failed"
    case None => "workflow execution failed"
  }

  function SynchronizeRun(r: Run, e: Execution): Result<Run, LifecycleError>
  {
    var target := RunStatusFor(e.status);
    if r.status == target then Ok(r)
    else if target.RunFailed? then FailRun(r, ReasonToRecord(e), e.updatedAt)
    else TransitionTo(r, target, e.updatedAt)
  }

  function SynchronizeRequest(q: Request, e: Execution): Result<Request, LifecycleError>
  {
    if e.status.WorkflowSucceeded? && q.status.RequestActive? then
      SetRequestStatus(q, RequestCompleted, e.updatedAt)
    else if e.status.WorkflowCancelled? && (q.status.RequestReceived? || q.status.RequestActive?) then
      SetRequestStatus(q, RequestCancelled, e.updatedAt)
    else Ok(q)
  }

  function Synchronize(r: Run, q: Request, e: Execution): Result<(Run, Request), LifecycleError>
  {
    match SynchronizeRun(r, e)
    case Err(x) => Err(x)
    case Ok(r') =>
      match SynchronizeRequest(q, e)
      case Err(x) => Err(x)
      case Ok(q') => Ok((r', q'))
  }

  /** `synchronize_execution_lifecycle`: an execution without request context leaves the rows alone. */
  function SynchronizeRows(context: bool, run: Option<Run>, request: Option<Request>, e: Execution)
    : Result<(Option<Run>, Option<Request>), LifecycleError>
  {
    if !context then Ok((run, request))
    else if run.None? then Err(RunMissing)
    else if request.None? then Err(RequestMissing)
    else
      match Synchronize(run.value, request.value, e)
      case Err(x) => Err(x)
      case Ok(p) => Ok((Some(p.0), Some(p.1)))
  }

  /** What a run and a request show after any synchronisation that does not raise. */
  lemma SynchronizedExactly(r: Run, q: Request, e: Execution)
    requires Synchronize(r, q, e).Ok?
    ensures var r', q' := Synchronize(r, q, e).value.0, Synchronize(r, q, e).value.1;
            && (r'.status.RunQueued? <==> e.status.WorkflowPending?)
            && (r'.status.RunRunning? <==> e.status.WorkflowRunning?)
            && (r'.status.RunAwaitingApproval? <==> e.status.WorkflowAwaitingApproval?)
            && (r'.status.RunSucceeded? <==> e.status.WorkflowSucceeded?)
            && (r'.status.RunFailed? <==> e.status.WorkflowFailed?)
            && (r'.status.RunCancelled? <==> e.status.WorkflowCancelled?)
            && (r'.status == r.status ==> r' == r)
            && (r'.status != r.status ==>
                  && r'.updatedAt == e.updatedAt && r'.version == r.version + 1
                  && (IsTerminal(e) ==> r'.completedAt == Some(e.updatedAt))
                  && (!e.status.WorkflowFailed? ==> r'.failureReason == r.failureReason)
                  && (e.status.WorkflowFailed? && e.failureReason.Some? && e.failureReason.value != [] ==>
                        r'.failureReason == Some(Strip(e.failureReason.value)))
                  && (e.status.WorkflowFailed? && (e.failureReason.None? || e.failureReason.value == []) ==>
                        r'.failureReason == Some("workflow execution failed")))
            && (q'.status.RequestCompleted? <==>
                  q.status.RequestCompleted? || (q.status.RequestActive? && e.status.WorkflowSucceeded?))
            && (q'.status.RequestCancelled? <==>
                  || q.status.RequestCancelled?
                  || ((q.status.RequestActive? || q.status.RequestReceived?) && e.status.WorkflowCancelled?))
            && (q'.status == q.status ==> q' == q) && (q'.status != q.status ==> q'.updatedAt == e.updatedAt)
  {
    hide Strip;
    DefaultReasonStripped();
  }

  lemma DefaultReasonStripped()
    ensures Strip("workflow execution failed") == "workflow execution failed"
  {
    var s := "workflow execution failed";
    assert !IsSpace(s[0]) && !IsSpace(s[|s| - 1]);
    assert StripLeft(s) == s && StripRight(s) == s;
  }

  /**
   The projection is a simulation: from any run that has not ended, whatever its status, moving
   to the status projected from a started execution is allowed.
   */
  lemma ProjectionIsAllowed(s: RunStatus, w: WorkflowStatus)
    requires !RunIsTerminal(s) && !w.WorkflowPending?
    ensures s == RunStatusFor(w) || RunStatusFor(w) in AllowedRunTransitions(s)
  {
  }

  /** Run and request show the state of the execution. */
  ghost predicate Tracking(e: Execution, r: Run, q: Request)
  {
    && Settled(e) && !e.status.WorkflowPending?
    && r.status == RunStatusFor(e.status)
    && Stamped(r) && r.startedAt.Some?
    && (r.status.RunFailed? ==> e.failureReason.Some? && r.failureReason == Some(Strip(e.failureReason.value)))
    && (e.status.WorkflowSucceeded? <==> q.status.RequestCompleted?)
    && (e.status.WorkflowCancelled? <==> q.status.RequestCancelled?)
    && !q.status.RequestReceived?
  }

  lemma SynchronizeRunTracks(r: Run, e: Execution)
    requires Settled(e) && !e.status.WorkflowPending?
    requires Stamped(r) && !RunIsTerminal(r.status)
    requires (r.startedAt.Some? || (r.status.RunQueued? && !e.status.WorkflowCancelled?))
    ensures SynchronizeRun(r, e).Ok?
    ensures var r' := SynchronizeRun(r, e).value;
            && r'.status == RunStatusFor(e.status) && Stamped(r') && r'.startedAt.Some?
            && (r'.status.RunFailed? ==>
                  e.failureReason.Some? && r'.failureReason == Some(Strip(e.failureReason.value)))
  {
    ProjectionIsAllowed(r.status, e.status);
    if e.status.WorkflowFailed? {
      StripFacts(e.failureReason.value);
    }
  }

  /** Creating and starting an execution for a queued run of an active request. */
  lemma TrackingStarts(s: Snapshot, createdAt: int, at: int, r: Run, q: Request)
    requires WellFormed(s)
    requires r.status.RunQueued? && Stamped(r) && q.status.RequestActive?
    ensures Settled(Create(s, createdAt)) && Apply(Create(s, createdAt), Start, at).Ok?
    ensures var e := Apply(Create(s, createdAt), Start, at).value;
            Synchronize(r, q, e).Ok? && Tracking(e, Synchronize(r, q, e).value.0, Synchronize(r, q, e).value.1)
  {
    CreateSettled(s, createdAt);
    var e0 := Create(s, createdAt);
    StartSettles(e0, at);
    SynchronizeRunTracks(r, Apply(e0, Start, at).value);
  }

  /**
   One engine call and the synchronisation in the same transaction: the synchronisation never
   raises, and run and request track the execution again.
   */
  lemma TrackingKept(e: Execution, r: Run, q: Request, op: Operation, at: int)
    requires Tracking(e, r, q) && Apply(e, op, at).Ok?
    ensures Synchronize(r, q, Apply(e, op, at).value).Ok?
    ensures var (r', q') := Synchronize(r, q, Apply(e, op, at).value).value;
            Tracking(Apply(e, op, at).value, r', q')
  {
    hide Apply, Shaped, HasActive, HasStarvedJoin, NothingAborted, AwaitingIsBacked;
    ApplySettles(e, op, at);
    var f := Apply(e, op, at).value;
    SynchronizeRunTracks(r, f);
  }

  /** A history of engine calls, each followed by a synchronisation. */
  ghost function TrackedHistory(
    e: Execution, r: Run, q: Request, history: seq<(Operation, int)>): (t: (Execution, Run, Request))
    requires Tracking(e, r, q)
    ensures Tracking(t.0, t.1, t.2)
    decreases |history|
  {
    if history == [] then (e, r, q)
    else
      match Apply(e, history[0].0, history[0].1)
      case Err(_) => TrackedHistory(e, r, q, history[1..])
      case Ok(f) =>
        TrackingKept(e, r, q, history[0].0, history[0].1);
        var (r', q') := Synchronize(r, q, f).value;
        TrackedHistory(f, r', q', history[1..])
  }

  /** Once the workflow has ended, nothing moves the run or the request any more. */
  lemma {:induction false} TrackedEndIsFinal(e: Execution, r: Run, q: Request, history: seq<(Operation, int)>)
    requires Tracking(e, r, q) && IsTerminal(e)
    ensures TrackedHistory(e, r, q, history) == (e, r, q)
  {
    if history != [] {
      ApplySettles(e, history[0].0, history[0].1);
      TrackedEndIsFinal(e, r, q, history[1..]);
    }
  }

  // ---- any status history -----------------------------------------------------------

  /** The synchronisations after each state of an execution, ending at the first that raises. */
  function SynchronizeAll(r: Run, q: Request, states: seq<Execution>): Result<(Run, Request), LifecycleError>
    decreases |states|
  {
    if states == [] then Ok((r, q))
    else
      match Synchronize(r, q, states[0])
      case Err(x) => Err(x)
      case Ok(p) => SynchronizeAll(p.0, p.1, states[1..])
  }

  /** A reason that `fail` rejects: there is one, and it is only white space. */
  predicate BlankReason(e: Execution)
  {
    e.status.WorkflowFailed? && e.failureReason.Some? && e.failureReason.value != [] && Blank(e.failureReason.value)
  }

  /** Never back to pending, and ended means ended. */
  ghost predicate StatusHistory(states: seq<Execution>)
  {
    && (forall i :: 0 <= i < |states| ==> !states[i].status.WorkflowPending? && !BlankReason(states[i]))
    && (forall i, j :: 0 <= i < j < |states| && IsTerminal(states[i]) ==> states[j].status == states[i].status)
  }

  /** Run and request show a workflow status. */
  predicate Shows(r: Run, q: Request, s: WorkflowStatus)
  {
    && Stamped(r) && r.status == RunStatusFor(s)
    && q.status ==
         if s.WorkflowSucceeded? then RequestCompleted
         else if s.WorkflowCancelled? then RequestCancelled
         else RequestActive
  }

  /** From an open run of an active request, synchronising raises exactly on a blank failure reason. */
  lemma OpenRunSynchronizes(r: Run, q: Request, e: Execution)
    requires Stamped(r) && !RunIsTerminal(r.status) && q.status.RequestActive? && !e.status.WorkflowPending?
    ensures Synchronize(r, q, e).Err? <==> BlankReason(e)
    ensures Synchronize(r, q, e).Ok? ==> Shows(Synchronize(r, q, e).value.0, Synchronize(r, q, e).value.1, e.status)
  {
    hide Strip, Blank;
    ProjectionIsAllowed(r.status, e.status);
    StripFacts(ReasonToRecord(e));
    DefaultReasonNotBlank();
  }

  lemma DefaultReasonNotBlank()
    ensures !Blank("workflow execution failed") && "workflow execution failed" != ""
  {
    assert !IsSpace("workflow execution failed"[0]);
  }

  lemma EndedRunSynchronizes(r: Run, q: Request, e: Execution)
    requires Shows(r, q, e.status)
    ensures Synchronize(r, q, e) == Ok((r, q))
  {
  }

  /**
   Any status history that never returns to pending and stays in its terminal state: from an open run with
   an active request, no synchronisation raises, and run and request show the last status.
   */
  lemma {:induction false} StatusHistoriesProject(r: Run, q: Request, states: seq<Execution>)
    requires StatusHistory(states) && states != []
    requires Stamped(r) && !RunIsTerminal(r.status) && q.status.RequestActive?
    ensures SynchronizeAll(r, q, states).Ok?
    ensures var p := SynchronizeAll(r, q, states).value; Shows(p.0, p.1, states[|states| - 1].status)
    decreases |states|
  {
    hide Synchronize, Stamped, BlankReason;
    OpenRunSynchronizes(r, q, states[0]);
    var p := Synchronize(r, q, states[0]).value;
    HistoryTail(states);
    if |states| > 1 {
      if IsTerminal(states[0]) {
        EndedHistory(p.0, p.1, states[1..], states[0].status);
      } else {
        StatusHistoriesProject(p.0, p.1, states[1..]);
      }
      assert states[|states| - 1] == states[1..][|states[1..]| - 1];
    }
  }

  lemma HistoryTail(states: seq<Execution>)
    requires StatusHistory(states) && states != []
    ensures StatusHistory(states[1..])
    ensures IsTerminal(states[0]) ==> forall i :: 0 <= i < |states[1..]| ==> states[1..][i].status == states[0].status
  {
    assert forall i :: 0 <= i < |states[1..]| ==> states[1..][i] == states[i + 1];
  }

  lemma {:induction false} EndedHistory(r: Run, q: Request, states: seq<Execution>, s: WorkflowStatus)
    requires Shows(r, q, s) && forall i :: 0 <= i < |states| ==> states[i].status == s
    ensures SynchronizeAll(r, q, states) == Ok((r, q))
    decreases |states|
  {
    hide Synchronize, Shows;
    if states != [] {
      EndedRunSynchronizes(r, q, states[0]);
      EndedHistory(r, q, states[1..], s);
    }
  }

  // ---- the aggregates in place ------------------------------------------------------

  class RunAggregate {
    var status: RunStatus
    var failureReason: Option<string>
    var updatedAt: int
    var startedAt: Option<int>
    var completedAt: Option<int>
    var version: int

    ghost function State(): Run
      reads this
    {
      Run(status, failureReason, updatedAt, startedAt, completedAt, version)
    }

    constructor (at: int)
      ensures State() == NewRun(at) && Stamped(State())
    {
      status, failureReason, updatedAt, startedAt, completedAt, version := RunQueued, None, at, None, None, 1;
    }

    method MoveTo(target: RunStatus, at: int) returns (error: Option<LifecycleError>)
      modifies this
      ensures match TransitionTo(old(State()), target, at)
              case Ok(r) => error.None? && State() == r
              case Err(x) => error == Some(x) && State() == old(State())
    {
      if target !in AllowedRunTransitions(status) {
        return Some(InvalidTransition);
      }
      var previous := status;
      status := target;
      updatedAt := at;
      version := version + 1;
      if startedAt.None? && (target.RunRunning? || (previous.RunQueued? && !target.RunCancelled?)) {
        startedAt := Some(at);
      }
      if RunIsTerminal(target) {
        completedAt := Some(at);
      }
      return None;
    }

    method Fail(reason: string, at: int) returns (error: Option<LifecycleError>)
      modifies this
      ensures match FailRun(old(State()), reason, at)
              case Ok(r) => error.None? && State() == r
              case Err(x) => error == Some(x) && State() == old(State())
    {
      var stripped := Strip(reason);
      if stripped == [] {
        return Some(EmptyFailureReason);
      }
      error := MoveTo(RunFailed, at);
      if error.None? {
        failureReason := Some(stripped);
      }
    }
  }

  class RequestAggregate {
    var status: RequestStatus
    var updatedAt: int

    ghost function State(): Request
      reads this
    {
      Request(status, updatedAt)
    }

    constructor (at: int)
      ensures State() == Request(RequestReceived, at)
    {
      status, updatedAt := RequestReceived, at;
    }

    method SetStatus(target: RequestStatus, at: int) returns (error: Option<LifecycleError>)
      modifies this
      ensures match SetRequestStatus(old(State()), target, at)
              case Ok(q) => error.None? && State() == q
              case Err(x) => error == Some(x) && State() == old(State())
    {
      if target !in AllowedRequestTransitions(status) {
        return Some(InvalidTransition);
      }
      status := target;
      updatedAt := at;
      return None;
    }
  }

  ghost function RunRow(run: RunAggregate?): Option<Run>
    reads run
  {
    if run == null then None else Some(run.State())
  }

  ghost function RequestRow(request: RequestAggregate?): Option<Request>
    reads request
  {
    if request == null then None else Some(request.State())
  }

  /** The objects end as the rows do; when it raises, the unit of work discards them. */
  method SynchronizeAggregates(context: bool, run: RunAggregate?, request: RequestAggregate?, e: Execution)
    returns (error: Option<LifecycleError>)
    modifies run, request
    ensures match SynchronizeRows(context, old(RunRow(run)), old(RequestRow(request)), e)
            case Ok(p) => error.None? && RunRow(run) == p.0 && RequestRow(request) == p.1
            case Err(x) => error == Some(x)
  {
    error := None;
    if !context {
      return;
    }
    if run == null {
      return Some(RunMissing);
    }
    if request == null {
      return Some(RequestMissing);
    }
    var target := RunStatusFor(e.status);
    if run.status != target {
      if target.RunFailed? {
        error := run.Fail(ReasonToRecord(e), e.updatedAt);
      } else {
        error := run.MoveTo(target, e.updatedAt);
      }
      if error.Some? {
        return;
      }
    }
    if e.status.WorkflowSucceeded? && request.status.RequestActive? {
      error := request.SetStatus(RequestCompleted, e.updatedAt);
    } else if e.status.WorkflowCancelled? && (request.status.RequestReceived? || request.status.RequestActive?) {
      error := request.SetStatus(RequestCancelled, e.updatedAt);
    }
  }
}
