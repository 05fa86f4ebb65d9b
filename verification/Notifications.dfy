/**
 Notification deliveries and their numbered attempts.  The functions below are the domain
 operations and the units of work over one delivery and its attempts; an `Err` changes nothing.
 Instants are integers (seconds); lease tokens are integers.
 */
module Notifications {
  import opened Wrappers
  import opened Text

  const MAX_AUTOMATIC_RETRY_LIMIT := 10

  datatype DeliveryStatus = Pending | Claimed | Succeeded | Failed

  datatype FailureCode = ProviderRejected | ProviderUnavailable | Timeout | LeaseExpired | Unexpected

  datatype AttemptStatus = AttemptOpen | AttemptSucceeded | AttemptFailed

  datatype Trigger = Initial | Manual | Automatic | LeaseRecovery

  datatype Delivery = Delivery(
    status: DeliveryStatus,
    worker: Option<string>,
    token: Option<int>,
    expiresAt: Option<int>,
    result: Option<string>,
    reason: Option<string>,
    code: Option<FailureCode>,
    retryable: Option<bool>,
    attemptCount: nat,
    retryLimit: int,
    nextAttemptAt: Option<int>,
    updatedAt: int,
    completedAt: Option<int>)

  datatype Attempt = Attempt(
    number: int,
    trigger: Trigger,
    worker: string,
    token: int,
    status: AttemptStatus,
    result: Option<string>,
    reason: Option<string>,
    code: Option<FailureCode>,
    retryable: Option<bool>,
    startedAt: int,
    finishedAt: Option<int>)

  /** A delivery and its rows in the attempt table, by number. */
  datatype Record = Record(delivery: Delivery, attempts: map<nat, Attempt>)

  datatype NotificationError =
    | CannotBeClaimed
    | ClaimNeedsWorkerAndLease
    | OnlyFailedCanBeRetried
    | OnlyFailedCanBeCancelled
    | LeaseNotOwned
    | AttemptLeaseNotOwned
    | EmptyReason
    | BadRetryLimit
    | NoRetryAvailable
    | AttemptNeedsNumberAndWorker
    | AttemptExists
    | SucceededCannotBeRetried
    | NothingToCancel
    | NoWorker

  // ---- delivery ---------------------------------------------------------------------

  function NewDelivery(at: int): Delivery
  {
    Delivery(Pending, None, None, None, None, None, None, None, 0, 0, None, at, None)
  }

  predicate LeaseIsOver(d: Delivery, at: int)
  {
    d.status.Claimed? && d.expiresAt.Some? && d.expiresAt.value <= at
  }

  predicate RetryIsDue(d: Delivery, at: int)
  {
    && d.status.Failed?
    && d.retryable == Some(true)
    && d.nextAttemptAt.Some? && d.nextAttemptAt.value <= at
    && d.attemptCount <= d.retryLimit
  }

  function ClaimTrigger(d: Delivery, at: int): Trigger
  {
    if LeaseIsOver(d, at) then LeaseRecovery
    else if d.status.Failed? then Automatic
    else if d.attemptCount > 0 then Manual
    else Initial
  }

  function Claim(
    d: Delivery, worker: string, leaseSeconds: int, token: int, at: int): Result<(Delivery, Trigger), NotificationError>
  {
    if !d.status.Pending? && !LeaseIsOver(d, at) && !RetryIsDue(d, at) then Err(CannotBeClaimed)
    else if Strip(worker) == [] || leaseSeconds <= 0 then Err(ClaimNeedsWorkerAndLease)
    else
      var claimed := d.(status := Claimed, worker := Some(Strip(worker)), token := Some(token),
                        expiresAt := Some(at + leaseSeconds), attemptCount := d.attemptCount + 1, updatedAt := at);
      var cleared := claimed.(reason := None, code := None, retryable := None, nextAttemptAt := None,
          completedAt := None);
      Ok((if RetryIsDue(d, at) then cleared else claimed, ClaimTrigger(d, at)))
  }

  function Retry(d: Delivery, at: int): Result<Delivery, NotificationError>
  {
    if !d.status.Failed? then Err(OnlyFailedCanBeRetried)
    else
      Ok(d.(status := Pending, worker := None, token := None, expiresAt := None, result := None, reason := None,
            code := None, retryable := None, retryLimit := 0, nextAttemptAt := None, completedAt := None,
            updatedAt := at))
  }

  function CancelAutomaticRetry(d: Delivery, at: int): Result<(Delivery, bool), NotificationError>
  {
    if !d.status.Failed? then Err(OnlyFailedCanBeCancelled)
    else if d.nextAttemptAt.None? then Ok((d, false))
    else Ok((d.(retryLimit := 0, nextAttemptAt := None, updatedAt := at), true))
  }

  predicate Owns(d: Delivery, token: int)
  {
    d.status.Claimed? && d.token == Some(token)
  }

  function Succeed(d: Delivery, token: int, result: string, at: int): Result<Delivery, NotificationError>
  {
    if !Owns(d, token) then Err(LeaseNotOwned)
    else
      Ok(d.(status := Succeeded, result := Some(result), reason := None, code := None, expiresAt := None,
            updatedAt := at, completedAt := Some(at)))
  }

  datatype FailureReport = FailureReport(
    reason: string,
    code: FailureCode,
    retryable: bool,
    retryLimit: int,
    nextAttemptAt: Option<int>)

  function Fail(d: Delivery, token: int, f: FailureReport, at: int): Result<Delivery, NotificationError>
  {
    if !Owns(d, token) then Err(LeaseNotOwned)
    else if Strip(f.reason) == [] then Err(EmptyReason)
    else if !(0 <= f.retryLimit <= MAX_AUTOMATIC_RETRY_LIMIT) then Err(BadRetryLimit)
    else if f.nextAttemptAt.Some? && (!f.retryable || d.attemptCount > f.retryLimit) then Err(NoRetryAvailable)
    else
      Ok(d.(status := Failed, result := None, reason := Some(Strip(f.reason)), code := Some(f.code),
            retryable := Some(f.retryable), retryLimit := f.retryLimit, nextAttemptAt := f.nextAttemptAt,
            expiresAt := None, updatedAt := at, completedAt := Some(at)))
  }

  // ---- attempt ----------------------------------------------------------------------

  function OpenAttempt(
    number: int, trigger: Trigger, worker: string, token: int, at: int): Result<Attempt, NotificationError>
  {
    if number <= 0 || Strip(worker) == [] then Err(AttemptNeedsNumberAndWorker)
    else Ok(Attempt(number, trigger, Strip(worker), token, AttemptOpen, None, None, None, None, at, None))
  }

  predicate AttemptOwns(a: Attempt, token: int)
  {
    a.status.AttemptOpen? && a.token == token
  }

  function SucceedAttempt(a: Attempt, token: int, result: string, at: int): Result<Attempt, NotificationError>
  {
    if !AttemptOwns(a, token) then Err(AttemptLeaseNotOwned)
    else Ok(a.(status := AttemptSucceeded, result := Some(result), finishedAt := Some(at)))
  }

  function FailAttempt(
    a: Attempt, token: int, reason: string, code: FailureCode, retryable: bool, at: int)
    : Result<Attempt, NotificationError>
  {
    if !AttemptOwns(a, token) then Err(AttemptLeaseNotOwned)
    else if Strip(reason) == [] then Err(EmptyReason)
    else
      Ok(a.(status := AttemptFailed, reason := Some(Strip(reason)), code := Some(code), retryable := Some(retryable),
            finishedAt := Some(at)))
  }

  // ---- units of work ----------------------------------------------------------------

  const LEASE_EXPIRED_REASON := "notification " + "delivery lease expired before completion"

  /** On lease recovery the abandoned attempt is closed, if it is still open. */
  function CloseAbandoned(
    attempts: map<nat, Attempt>, number: nat, at: int): Result<map<nat, Attempt>, NotificationError>
  {
    if number !in attempts || !attempts[number].status.AttemptOpen? then Ok(attempts)
    else
      match FailAttempt(attempts[number], attempts[number].token, LEASE_EXPIRED_REASON, LeaseExpired, false, at)
      case Err(x) => Err(x)
      case Ok(a) => Ok(attempts[number := a])
  }

  function ClaimWork(
    r: Record, worker: string, leaseSeconds: int, token: int, at: int): Result<Record, NotificationError>
  {
    match Claim(r.delivery, worker, leaseSeconds, token, at)
    case Err(x) => Err(x)
    case Ok((d, trigger)) =>
      var closed :=
        if trigger.LeaseRecovery? then CloseAbandoned(r.attempts, d.attemptCount - 1, d.updatedAt) else Ok(r.attempts);
      match closed
      case Err(x) => Err(x)
      case Ok(attempts) =>
        var holder := if d.worker.Some? then d.worker.value else worker;
        match OpenAttempt(d.attemptCount, trigger, holder, token, d.updatedAt)
        case Err(x) => Err(x)
        case Ok(a) =>
          if d.attemptCount in attempts then Err(AttemptExists)
          else Ok(Record(d, attempts[d.attemptCount := a]))
  }

  /** The attempt a finish refers to; one that is missing would be filled in. */
  function CurrentAttempt(r: Record, token: int): Result<Attempt, NotificationError>
  {
    if r.delivery.attemptCount in r.attempts then Ok(r.attempts[r.delivery.attemptCount])
    else if r.delivery.worker.None? then Err(NoWorker)
    else OpenAttempt(r.delivery.attemptCount, LeaseRecovery, r.delivery.worker.value, token, r.delivery.updatedAt)
  }

  function SucceedWork(r: Record, token: int, result: string, at: int): Result<Record, NotificationError>
  {
    match CurrentAttempt(r, token)
    case Err(x) => Err(x)
    case Ok(a) =>
      match Succeed(r.delivery, token, result, at)
      case Err(x) => Err(x)
      case Ok(d) =>
        match SucceedAttempt(a, token, result, at)
        case Err(x) => Err(x)
        case Ok(a') => Ok(Record(d, r.attempts[d.attemptCount := a']))
  }

  function FailWork(r: Record, token: int, f: FailureReport, at: int): Result<Record, NotificationError>
  {
    match CurrentAttempt(r, token)
    case Err(x) => Err(x)
    case Ok(a) =>
      match Fail(r.delivery, token, f, at)
      case Err(x) => Err(x)
      case Ok(d) =>
        match FailAttempt(a, token, f.reason, f.code, f.retryable, at)
        case Err(x) => Err(x)
        case Ok(a') => Ok(Record(d, r.attempts[d.attemptCount := a']))
  }

  /** Retrying an active delivery is answered without a change. */
  function RetryWork(r: Record, at: int): Result<Record, NotificationError>
  {
    if r.delivery.status.Pending? || r.delivery.status.Claimed? then Ok(r)
    else if r.delivery.status.Succeeded? then Err(SucceededCannotBeRetried)
    else
      match Retry(r.delivery, at)
      case Err(x) => Err(x)
      case Ok(d) => Ok(r.(delivery := d))
  }

  function CancelWork(r: Record, at: int): Result<Record, NotificationError>
  {
    if !r.delivery.status.Failed? then Err(NothingToCancel)
    else
      match CancelAutomaticRetry(r.delivery, at)
      case Err(x) => Err(x)
      case Ok((d, changed)) => Ok(if changed then r.(delivery := d) else r)
  }

  datatype Call =
    | ClaimCall(worker: string, leaseSeconds: int, token: int)
    | SucceedCall(heldToken: int, result: string)
    | FailCall(heldToken: int, report: FailureReport)
    | RetryCall
    | CancelCall

  function Perform(r: Record, c: Call, at: int): Result<Record, NotificationError>
  {
    match c
    case ClaimCall(worker, leaseSeconds, token) => ClaimWork(r, worker, leaseSeconds, token, at)
    case SucceedCall(token, result) => SucceedWork(r, token, result, at)
    case FailCall(token, report) => FailWork(r, token, report, at)
    case RetryCall => RetryWork(r, at)
    case CancelCall => CancelWork(r, at)
  }
}
