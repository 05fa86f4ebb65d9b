/**
 The notification aggregates and service in their own form: objects are loaded from rows, changed
 in place and saved.  Every method is proved to do what the function of `Notifications` says to
 the delivery it works on, and to leave every other delivery alone.
 */
module NotificationService {
  import opened Wrappers
  import opened Text
  import opened Notifications

  class NotificationDelivery {
    var status: DeliveryStatus
    var worker: Option<string>
    var token: Option<int>
    var expiresAt: Option<int>
    var result: Option<string>
    var reason: Option<string>
    var code: Option<FailureCode>
    var retryable: Option<bool>
    var attemptCount: nat
    var retryLimit: int
    var nextAttemptAt: Option<int>
    var updatedAt: int
    var completedAt: Option<int>

    ghost function State(): Delivery
      reads this
    {
      Delivery(status, worker, token, expiresAt, result, reason, code, retryable, attemptCount, retryLimit,
               nextAttemptAt, updatedAt, completedAt)
    }

    constructor (row: Delivery)
      ensures State() == row
    {
      status, worker, token, expiresAt := row.status, row.worker, row.token, row.expiresAt;
      result, reason, code, retryable := row.result, row.reason, row.code, row.retryable;
      attemptCount, retryLimit, nextAttemptAt := row.attemptCount, row.retryLimit, row.nextAttemptAt;
      updatedAt, completedAt := row.updatedAt, row.completedAt;
    }

    method Row() returns (row: Delivery)
      ensures row == State()
    {
      row := Delivery(status, worker, token, expiresAt, result, reason, code, retryable, attemptCount, retryLimit,
                      nextAttemptAt, updatedAt, completedAt);
    }

    method ClaimFor(workerId: string, leaseSeconds: int, newToken: int, at: int)
      returns (r: Result<Trigger, NotificationError>)
      modifies this
      ensures match Claim(old(State()), workerId, leaseSeconds, newToken, at)
              case Ok(p) => r == Ok(p.1) && State() == p.0
              case Err(x) => r == Err(x) && State() == old(State())
    {
      hide Strip;
      var expired := status.Claimed? && expiresAt.Some? && expiresAt.value <= at;
      var trigger :=
        if expired then LeaseRecovery
        else if status.Failed? then Automatic
        else if attemptCount > 0 then Manual
        else Initial;
      var scheduledRetry :=
        && status.Failed? && retryable == Some(true)
        && nextAttemptAt.Some? && nextAttemptAt.value <= at
        && attemptCount <= retryLimit;
      if !status.Pending? && !expired && !scheduledRetry {
        return Err(CannotBeClaimed);
      }
      if Strip(workerId) == [] || leaseSeconds <= 0 {
        return Err(ClaimNeedsWorkerAndLease);
      }
      Lease(Strip(workerId), newToken, at + leaseSeconds, at);
      if scheduledRetry {
        ClearFailure();
      }
      return Ok(trigger);
    }

    method Lease(workerId: string, newToken: int, until: int, at: int)
      modifies this
      ensures State() == old(State()).(status := Claimed, worker := Some(workerId), token := Some(newToken),
                                       expiresAt := Some(until), attemptCount := old(attemptCount) + 1, updatedAt := at)
    {
      status := Claimed;
      worker, token, expiresAt := Some(workerId), Some(newToken), Some(until);
      attemptCount := attemptCount + 1;
      updatedAt := at;
    }

    /** What the last failure left behind is dropped. */
    method ClearFailure()
      modifies this
      ensures State() == old(State()).(reason := None, code := None, retryable := None, nextAttemptAt := None,
                completedAt := None)
    {
      reason, code, retryable, nextAttemptAt, completedAt := None, None, None, None, None;
    }

    method RetryAt(at: int) returns (error: Option<NotificationError>)
      modifies this
      ensures match Retry(old(State()), at)
              case Ok(d) => error.None? && State() == d
              case Err(x) => error == Some(x) && State() == old(State())
    {
      if !status.Failed? {
        return Some(OnlyFailedCanBeRetried);
      }
      ClearFailure();
      status := Pending;
      worker, token, expiresAt, result := None, None, None, None;
      retryLimit := 0;
      updatedAt := at;
      return None;
    }

    method CancelRetryAt(at: int) returns (r: Result<bool, NotificationError>)
      modifies this
      ensures match CancelAutomaticRetry(old(State()), at)
              case Ok(p) => r == Ok(p.1) && State() == p.0
              case Err(x) => r == Err(x) && State() == old(State())
    {
      if !status.Failed? {
        return Err(OnlyFailedCanBeCancelled);
      }
      if nextAttemptAt.None? {
        return Ok(false);
      }
      retryLimit := 0;
      nextAttemptAt := None;
      updatedAt := at;
      return Ok(true);
    }

    method SucceedWith(held: int, value: string, at: int) returns (error: Option<NotificationError>)
      modifies this
      ensures match Succeed(old(State()), held, value, at)
              case Ok(d) => error.None? && State() == d
              case Err(x) => error == Some(x) && State() == old(State())
    {
      if !status.Claimed? || token != Some(held) {
        return Some(LeaseNotOwned);
      }
      Close(Succeeded, at);
      result, reason, code := Some(value), None, None;
      return None;
    }

    method FailWith(held: int, f: FailureReport, at: int) returns (error: Option<NotificationError>)
      modifies this
      ensures match Fail(old(State()), held, f, at)
              case Ok(d) => error.None? && State() == d
              case Err(x) => error == Some(x) && State() == old(State())
    {
      hide Strip;
      if !status.Claimed? || token != Some(held) {
        return Some(LeaseNotOwned);
      }
      var normalized := Strip(f.reason);
      if normalized == [] {
        return Some(EmptyReason);
      }
      if !(0 <= f.retryLimit <= MAX_AUTOMATIC_RETRY_LIMIT) {
        return Some(BadRetryLimit);
      }
      if f.nextAttemptAt.Some? && (!f.retryable || attemptCount > f.retryLimit) {
        return Some(NoRetryAvailable);
      }
      Close(Failed, at);
      result, reason, code, retryable := None, Some(normalized), Some(f.code), Some(f.retryable);
      retryLimit, nextAttemptAt := f.retryLimit, f.nextAttemptAt;
      return None;
    }

    /** The lease ends with the attempt. */
    method Close(outcome: DeliveryStatus, at: int)
      modifies this
      ensures State() == old(State()).(status := outcome, expiresAt := None, updatedAt := at, completedAt := Some(at))
    {
      status, expiresAt, updatedAt, completedAt := outcome, None, at, Some(at);
    }
  }

  class NotificationDeliveryAttempt {
    var row: Attempt

    constructor (row: Attempt)
      ensures this.row == row
    {
      this.row := row;
    }

    method SucceedWith(held: int, value: string, at: int) returns (error: Option<NotificationError>)
      modifies this
      ensures match SucceedAttempt(old(row), held, value, at)
              case Ok(a) => error.None? && row == a
              case Err(x) => error == Some(x) && row == old(row)
    {
      if !row.status.AttemptOpen? || row.token != held {
        return Some(AttemptLeaseNotOwned);
      }
      row := row.(status := AttemptSucceeded, result := Some(value), finishedAt := Some(at));
      return None;
    }

    method FailWith(held: int, reason: string, code: FailureCode, retryable: bool, at: int)
      returns (error: Option<NotificationError>)
      modifies this
      ensures match FailAttempt(old(row), held, reason, code, retryable, at)
              case Ok(a) => error.None? && row == a
              case Err(x) => error == Some(x) && row == old(row)
    {
      if !row.status.AttemptOpen? || row.token != held {
        return Some(AttemptLeaseNotOwned);
      }
      if Strip(reason) == [] {
        return Some(EmptyReason);
      }
      row := row.(status := AttemptFailed, reason := Some(Strip(reason)), code := Some(code),
                  retryable := Some(retryable), finishedAt := Some(at));
      return None;
    }
  }

  /** The delivery and attempt tables, keyed by delivery, and the use cases over them. */
  class NotificationTables {
    var deliveries: map<int, Delivery>
    var attempts: map<int, map<nat, Attempt>>

    ghost predicate Valid()
      reads this
    {
      deliveries.Keys == attempts.Keys
    }

    ghost function RecordOf(id: int): Record
      requires Valid() && id in deliveries
      reads this
    {
      Record(deliveries[id], attempts[id])
    }

    constructor ()
      ensures Valid() && deliveries == map[]
    {
      deliveries, attempts := map[], map[];
    }

    /** Only the rows of one delivery may differ. */
    twostate predicate OnlyChanges(id: int)
      reads this
    {
      && deliveries.Keys == old(deliveries.Keys) && attempts.Keys == old(attempts.Keys)
      && forall k :: k in deliveries && k in attempts && k != id ==>
          deliveries[k] == old(deliveries)[k] && attempts[k] == old(attempts)[k]
    }

    method Save(id: int, d: Delivery, rows: map<nat, Attempt>)
      requires Valid() && id in deliveries
      modifies this
      ensures Valid() && id in deliveries && RecordOf(id) == Record(d, rows) && OnlyChanges(id)
    {
      deliveries := deliveries[id := d];
      attempts := attempts[id := rows];
    }

    /** The recovery half of `claim_next`. */
    method CloseAbandonedRow(rows: map<nat, Attempt>, number: nat, at: int)
      returns (r: Result<map<nat, Attempt>, NotificationError>)
      ensures r == CloseAbandoned(rows, number, at)
    {
      if number !in rows || !rows[number].status.AttemptOpen? {
        return Ok(rows);
      }
      var previous := new NotificationDeliveryAttempt(rows[number]);
      var error := previous.FailWith(previous.row.token, LEASE_EXPIRED_REASON, LeaseExpired, false, at);
      return if error.Some? then Err(error.value) else Ok(rows[number := previous.row]);
    }

    /** `claim_next` on the delivery that the repository picked. */
    method ClaimNext(id: int, workerId: string, leaseSeconds: int, newToken: int, at: int)
      returns (error: Option<NotificationError>)
      requires Valid() && id in deliveries
      modifies this
      ensures Valid() && id in deliveries && OnlyChanges(id)
      ensures match ClaimWork(old(RecordOf(id)), workerId, leaseSeconds, newToken, at)
              case Ok(r) => error.None? && RecordOf(id) == r
              case Err(x) => error == Some(x) && RecordOf(id) == old(RecordOf(id))
    {
      hide Strip, CloseAbandoned, OpenAttempt;
      var delivery := new NotificationDelivery(deliveries[id]);
      var claimed := delivery.ClaimFor(workerId, leaseSeconds, newToken, at);
      if claimed.Err? {
        return Some(claimed.error);
      }
      var rows := attempts[id];
      var number := delivery.attemptCount;
      if claimed.value.LeaseRecovery? {
        var closed := CloseAbandonedRow(rows, number - 1, delivery.updatedAt);
        if closed.Err? {
          return Some(closed.error);
        }
        rows := closed.value;
      }
      var worker := if delivery.worker.Some? then delivery.worker.value else workerId;
      var created := OpenAttempt(number, claimed.value, worker,
                                newToken, delivery.updatedAt);
      if created.Err? {
        return Some(created.error);
      }
      if number in rows {
        return Some(AttemptExists);
      }
      var row := delivery.Row();
      Save(id, row, rows[number := created.value]);
      return None;
    }

    /** The first half of `_finish`: the attempt the report is about. */
    method LoadAttempt(id: int, held: int) returns (r: Result<Attempt, NotificationError>)
      requires Valid() && id in deliveries
      ensures r == CurrentAttempt(RecordOf(id), held)
    {
      var d := deliveries[id];
      if d.attemptCount in attempts[id] {
        return Ok(attempts[id][d.attemptCount]);
      }
      if d.worker.None? {
        return Err(NoWorker);
      }
      return OpenAttempt(d.attemptCount, LeaseRecovery, d.worker.value, held, d.updatedAt);
    }

    method FinishSucceeded(id: int, held: int, value: string, at: int) returns (error: Option<NotificationError>)
      requires Valid() && id in deliveries
      modifies this
      ensures Valid() && id in deliveries && OnlyChanges(id)
      ensures match SucceedWork(old(RecordOf(id)), held, value, at)
              case Ok(r) => error.None? && RecordOf(id) == r
              case Err(x) => error == Some(x) && RecordOf(id) == old(RecordOf(id))
    {
      var loaded := LoadAttempt(id, held);
      if loaded.Err? {
        return Some(loaded.error);
      }
      var delivery := new NotificationDelivery(deliveries[id]);
      error := delivery.SucceedWith(held, value, at);
      if error.Some? {
        return;
      }
      var attempt := new NotificationDeliveryAttempt(loaded.value);
      error := attempt.SucceedWith(held, value, at);
      if error.Some? {
        return;
      }
      var row := delivery.Row();
      Save(id, row, attempts[id][row.attemptCount := attempt.row]);
    }

    method FinishFailed(id: int, held: int, f: FailureReport, at: int) returns (error: Option<NotificationError>)
      requires Valid() && id in deliveries
      modifies this
      ensures Valid() && id in deliveries && OnlyChanges(id)
      ensures match FailWork(old(RecordOf(id)), held, f, at)
              case Ok(r) => error.None? && RecordOf(id) == r
              case Err(x) => error == Some(x) && RecordOf(id) == old(RecordOf(id))
    {
      var loaded := LoadAttempt(id, held);
      if loaded.Err? {
        return Some(loaded.error);
      }
      var delivery := new NotificationDelivery(deliveries[id]);
      error := delivery.FailWith(held, f, at);
      if error.Some? {
        return;
      }
      var attempt := new NotificationDeliveryAttempt(loaded.value);
      error := attempt.FailWith(held, f.reason, f.code, f.retryable, at);
      if error.Some? {
        return;
      }
      var row := delivery.Row();
      Save(id, row, attempts[id][row.attemptCount := attempt.row]);
    }

    method RetryDelivery(id: int, at: int) returns (error: Option<NotificationError>)
      requires Valid() && id in deliveries
      modifies this
      ensures Valid() && id in deliveries && OnlyChanges(id)
      ensures match RetryWork(old(RecordOf(id)), at)
              case Ok(r) => error.None? && RecordOf(id) == r
              case Err(x) => error == Some(x) && RecordOf(id) == old(RecordOf(id))
    {
      var delivery := new NotificationDelivery(deliveries[id]);
      if delivery.status.Pending? || delivery.status.Claimed? {
        return None;
      }
      if delivery.status.Succeeded? {
        return Some(SucceededCannotBeRetried);
      }
      error := delivery.RetryAt(at);
      if error.None? {
        var row := delivery.Row();
        Save(id, row, attempts[id]);
      }
    }

    method CancelRetry(id: int, at: int) returns (error: Option<NotificationError>)
      requires Valid() && id in deliveries
      modifies this
      ensures Valid() && id in deliveries && OnlyChanges(id)
      ensures match CancelWork(old(RecordOf(id)), at)
              case Ok(r) => error.None? && RecordOf(id) == r
              case Err(x) => error == Some(x) && RecordOf(id) == old(RecordOf(id))
    {
      var delivery := new NotificationDelivery(deliveries[id]);
      if !delivery.status.Failed? {
        return Some(NothingToCancel);
      }
      var changed := delivery.CancelRetryAt(at);
      match changed {
        case Err(x) => return Some(x);
        case Ok(yes) =>
          if yes {
            var row := delivery.Row();
            Save(id, row, attempts[id]);
          }
          return None;
      }
    }
  }
}
