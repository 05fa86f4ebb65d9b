/**
 What the calls on a notification delivery ask for and what they leave behind, field by field, and what follows: how
 long a lease lasts, that a scheduled failure runs again, and what a manual retry and a cancellation do.
 */
module NotificationCalls {
  import opened Wrappers
  import opened Text
  import opened Notifications
  import opened NotificationSafety

  /** When a delivery is free to be claimed: new or retried, its lease has run out, or its scheduled retry is due. */
  predicate Free(d: Delivery, at: int)
  {
    || d.status.Pending?
    || (d.status.Claimed? && d.expiresAt.Some? && d.expiresAt.value <= at)
    || (d.nextAttemptAt.Some? && d.nextAttemptAt.value <= at)
  }

  /** What each call asks of the delivery before it. */
  predicate Accepts(d: Delivery, c: Call, at: int)
  {
    match c
    case ClaimCall(worker, seconds, _) => Free(d, at) && !Blank(worker) && seconds > 0
    case SucceedCall(token, _) => d.status.Claimed? && d.token == Some(token)
    case FailCall(token, f) =>
      && d.status.Claimed? && d.token == Some(token) && !Blank(f.reason) && 0 <= f.retryLimit <= 10
      && (f.nextAttemptAt.Some? ==> f.retryable && d.attemptCount <= f.retryLimit)
    case RetryCall => !d.status.Succeeded?
    case CancelCall => d.status.Failed?
  }

  lemma AcceptedExactly(r: Record, c: Call, at: int)
    requires Sound(r)
    ensures Perform(r, c, at).Ok? <==> Accepts(r.delivery, c, at)
  {
    hide Timed, AllExplained, Strip, Blank;
    match c {
      case ClaimCall(worker, seconds, token) => ClaimAcceptedExactly(r, worker, seconds, token, at);
      case SucceedCall(token, _) => FinishNeedsHolder(r, token);
      case FailCall(token, f) =>
        FinishNeedsHolder(r, token);
        StripFacts(f.reason);
      case _ =>
    }
  }

  lemma ClaimAcceptedExactly(r: Record, worker: string, seconds: int, token: int, at: int)
    requires Sound(r)
    ensures ClaimWork(r, worker, seconds, token, at).Ok? <==> Free(r.delivery, at) && !Blank(worker) && seconds > 0
  {
    hide Timed, AllExplained, Strip, Blank;
    StripFacts(worker);
    StripIdempotent(worker);
    ReasonNotBlank();
    assert r.delivery.attemptCount + 1 !in r.attempts;
  }

  // ---- what a call leaves behind ----------------------------------------------------

  /** Why a new attempt is made, by the state it starts from. */
  function TriggerFrom(d: Delivery): Trigger
  {
    match d.status
    case Claimed => LeaseRecovery
    case Failed => Automatic
    case _ => if d.attemptCount == 0 then Initial else Manual
  }

  lemma ClaimIsRecorded(r: Record, c: Call, at: int)
    requires Sound(r) && c.ClaimCall? && Perform(r, c, at).Ok?
    ensures var d, s, n := r.delivery, Perform(r, c, at).value, r.delivery.attemptCount + 1;
            && s.delivery ==
                 (if d.status.Failed? then
                    d.(reason := None, code := None, retryable := None, nextAttemptAt := None, completedAt := None)
                  else d).(status := Claimed, worker := Some(Strip(c.worker)), token := Some(c.token),
                           expiresAt := Some(at + c.leaseSeconds), attemptCount := n, updatedAt := at)
            && s.attempts.Keys == r.attempts.Keys + {n}
            && s.attempts[n] == Attempt(n, TriggerFrom(d), Strip(c.worker), c.token, AttemptOpen, None, None, None,
                                        None, at, None)
            && forall m :: m in r.attempts && !(d.status.Claimed? && m == d.attemptCount) ==>
                 s.attempts[m] == r.attempts[m]
  {
    hide Timed, AllExplained, Strip;
    ClaimExtends(r, c.worker, c.leaseSeconds, c.token, at);
    StripIdempotent(c.worker);
  }

  /** An accepted failure leaves exactly the reported schedule, code, retryability and stripped reason. */
  lemma FailureIsRecorded(r: Record, c: Call, at: int)
    requires Sound(r) && c.FailCall? && Perform(r, c, at).Ok?
    ensures var d, s, n, f := r.delivery, Perform(r, c, at).value, r.delivery.attemptCount, c.report;
            && s.delivery == d.(status := Failed, result := None, reason := Some(Strip(f.reason)), code := Some(f.code),
                                retryable := Some(f.retryable), retryLimit := f.retryLimit,
                                nextAttemptAt := f.nextAttemptAt, expiresAt := None, updatedAt := at,
                                completedAt := Some(at))
            && n in r.attempts && n in s.attempts && s.attempts == r.attempts[n := s.attempts[n]]
            && s.attempts[n] == r.attempts[n].(status := AttemptFailed, reason := Some(Strip(f.reason)),
                                               code := Some(f.code), retryable := Some(f.retryable),
                                               finishedAt := Some(at))
  {
    hide Timed, AllExplained, Strip;
    FinishNeedsHolder(r, c.heldToken);
  }

  lemma SuccessIsRecorded(r: Record, c: Call, at: int)
    requires Sound(r) && c.SucceedCall? && Perform(r, c, at).Ok?
    ensures var d, s, n := r.delivery, Perform(r, c, at).value, r.delivery.attemptCount;
            && s.delivery == d.(status := Succeeded, result := Some(c.result), reason := None, code := None,
                                expiresAt := None, updatedAt := at, completedAt := Some(at))
            && n in r.attempts && n in s.attempts && s.attempts == r.attempts[n := s.attempts[n]]
            && s.attempts[n] == r.attempts[n].(status := AttemptSucceeded, result := Some(c.result),
                                               finishedAt := Some(at))
  {
    hide Timed, AllExplained;
    FinishNeedsHolder(r, c.heldToken);
  }

  // ---- what follows -----------------------------------------------------------------

  lemma Kept(r: Record, c: Call, at: int)
    requires Sound(r) && Legal(r, c, at) && Perform(r, c, at).Ok?
    ensures Sound(Perform(r, c, at).value)
  {
    PerformKeeps(r, c, at);
  }

  /**
   A failure that is reported with a next attempt: with no other call in between, the delivery can be claimed exactly
   from that instant on, and the new attempt is an automatic one.
   */
  lemma ScheduledFailureRunsAgain(r: Record, failure: Call, at: int, claim: Call, later: int)
    requires Sound(r) && Legal(r, failure, at) && failure.FailCall? && failure.report.nextAttemptAt.Some?
    requires Perform(r, failure, at).Ok?
    requires claim.ClaimCall? && !Blank(claim.worker) && claim.leaseSeconds > 0
    ensures var s := Perform(r, failure, at).value;
            && (Perform(s, claim, later).Ok? <==> failure.report.nextAttemptAt.value <= later)
            && (Perform(s, claim, later).Ok? ==>
                  var n := r.delivery.attemptCount + 1;
                  && n in Perform(s, claim, later).value.attempts
                  && Perform(s, claim, later).value.attempts[n].trigger.Automatic?)
  {
    hide Perform, Sound;
    FailureIsRecorded(r, failure, at);
    Kept(r, failure, at);
    var s := Perform(r, failure, at).value;
    AcceptedExactly(s, claim, later);
    if Perform(s, claim, later).Ok? {
      ClaimIsRecorded(s, claim, later);
    }
  }

  /**
   A claim holds for its whole lease: with no other call in between, its token finishes the delivery at any instant,
   and another claim is accepted exactly once the lease has run out, to recover it.
   */
  lemma LeaseLasts(r: Record, c: Call, at: int, other: Call, later: int)
    requires Sound(r) && Legal(r, c, at) && c.ClaimCall? && Perform(r, c, at).Ok?
    requires other.ClaimCall? && !Blank(other.worker) && other.leaseSeconds > 0
    ensures var s := Perform(r, c, at).value;
            && (forall token, result :: Perform(s, SucceedCall(token, result), later).Ok? <==> token == c.token)
            && (Perform(s, other, later).Ok? <==> at + c.leaseSeconds <= later)
            && (Perform(s, other, later).Ok? ==>
                  var n := r.delivery.attemptCount + 2;
                  && n in Perform(s, other, later).value.attempts
                  && Perform(s, other, later).value.attempts[n].trigger.LeaseRecovery?)
  {
    hide Perform, Sound;
    ClaimIsRecorded(r, c, at);
    Kept(r, c, at);
    var s := Perform(r, c, at).value;
    assert s.delivery.nextAttemptAt.None? by { ClaimedHasNoSchedule(s); }
    AcceptedExactly(s, other, later);
    forall token, result
      ensures Perform(s, SucceedCall(token, result), later).Ok? <==> token == c.token
    {
      AcceptedExactly(s, SucceedCall(token, result), later);
    }
    if Perform(s, other, later).Ok? {
      ClaimIsRecorded(s, other, later);
    }
  }

  lemma ClaimedHasNoSchedule(r: Record)
    requires Sound(r) && !r.delivery.status.Failed?
    ensures r.delivery.nextAttemptAt.None?
  {
  }

  /** A manual retry of a failed delivery: it is as new but for its attempts, and can be claimed at any instant. */
  lemma RetryStartsAgain(r: Record, at: int, claim: Call, later: int)
    requires Sound(r) && r.delivery.updatedAt <= at && r.delivery.status.Failed?
    requires claim.ClaimCall? && !Blank(claim.worker) && claim.leaseSeconds > 0
    ensures Perform(r, RetryCall, at).Ok?
    ensures var s := Perform(r, RetryCall, at).value;
            && s.attempts == r.attempts
            && s.delivery == NewDelivery(at).(attemptCount := r.delivery.attemptCount)
            && Perform(s, claim, later).Ok?
            && var n := r.delivery.attemptCount + 1;
               && n in Perform(s, claim, later).value.attempts
               && Perform(s, claim, later).value.attempts[n].trigger.Manual?
  {
    hide Sound;
    AcceptedExactly(r, RetryCall, at);
    Kept(r, RetryCall, at);
    var s := Perform(r, RetryCall, at).value;
    AttemptedBefore(r);
    hide Perform;
    AcceptedExactly(s, claim, later);
    ClaimIsRecorded(s, claim, later);
  }

  lemma AttemptedBefore(r: Record)
    requires Sound(r) && r.delivery.status.Failed?
    ensures r.delivery.attemptCount > 0
  {
  }

  /** Retrying a delivery that is still active is answered without a change. */
  lemma ActiveRetryChangesNothing(r: Record, at: int)
    requires r.delivery.status.Pending? || r.delivery.status.Claimed?
    ensures Perform(r, RetryCall, at) == Ok(r)
  {
  }

  /** Cancelling the automatic retry drops the schedule and nothing else; no claim is accepted after it. */
  lemma CancelledRetryNeverRuns(r: Record, at: int, claim: Call, later: int)
    requires Sound(r) && r.delivery.updatedAt <= at && r.delivery.status.Failed? && claim.ClaimCall?
    ensures Perform(r, CancelCall, at).Ok?
    ensures var s := Perform(r, CancelCall, at).value;
            && s == (if r.delivery.nextAttemptAt.None? then r
                     else r.(delivery := r.delivery.(retryLimit := 0, nextAttemptAt := None, updatedAt := at)))
            && Perform(s, claim, later).Err?
  {
    hide Sound;
    AcceptedExactly(r, CancelCall, at);
    Kept(r, CancelCall, at);
    AcceptedExactly(Perform(r, CancelCall, at).value, claim, later);
  }
}
