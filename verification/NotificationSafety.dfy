/**
 What holds of a delivery and its attempts after every interleaving of claims, expiries,
 finishes, manual retries and cancellations.
 */
module NotificationSafety {
  import opened Wrappers
  import opened Text
  import opened Notifications

  // ---- the invariant ----------------------------------------------------------------

  /** Attempts are numbered 1..count; the last is open exactly when the delivery is claimed. */
  ghost predicate Numbered(r: Record)
  {
    && (forall n :: n in r.attempts <==> 1 <= n <= r.delivery.attemptCount)
    && (forall n :: n in r.attempts ==> r.attempts[n].number == n)
    && (forall n :: n in r.attempts && n < r.delivery.attemptCount ==> r.attempts[n].status.AttemptFailed?)
    && (forall m, n :: m in r.attempts && n in r.attempts && r.attempts[m].token == r.attempts[n].token ==> m == n)
  }

  ghost predicate LastMatches(r: Record)
    requires Numbered(r)
  {
    var d := r.delivery;
    && (d.attemptCount == 0 ==> d.status.Pending?)
    && (d.attemptCount > 0 ==>
          var a := r.attempts[d.attemptCount];
          && (a.status.AttemptOpen? <==> d.status.Claimed?)
          && (a.status.AttemptSucceeded? <==> d.status.Succeeded?)
          && (d.status.Claimed? ==> d.token == Some(a.token) && d.worker.Some? && d.expiresAt.Some?)
          && (d.status.Failed? ==> a.code == d.code && a.retryable == d.retryable))
    && (d.status.Pending? ==> d.worker.None? && d.token.None?)
    && 0 <= d.retryLimit <= MAX_AUTOMATIC_RETRY_LIMIT
    && (d.nextAttemptAt.Some? ==> d.status.Failed? && d.retryable == Some(true) && d.attemptCount <= d.retryLimit)
    && (d.completedAt.Some? <==> d.status.Succeeded? || d.status.Failed?)
  }

  /** The trigger of attempt `n` is explained by the attempt before it. */
  ghost predicate Explained(attempts: map<nat, Attempt>, n: nat)
    requires n in attempts
  {
    match attempts[n].trigger
    case Initial => n == 1
    case Manual => n - 1 in attempts && attempts[n - 1].status.AttemptFailed?
    case Automatic =>
      n - 1 in attempts && attempts[n - 1].status.AttemptFailed? && attempts[n - 1].retryable == Some(true)
    case LeaseRecovery =>
      n - 1 in attempts && attempts[n - 1].status.AttemptFailed? && attempts[n - 1].code == Some(LeaseExpired)
  }

  ghost predicate AllExplained(r: Record)
  {
    && (forall n :: n in r.attempts ==> Explained(r.attempts, n))
    && (1 in r.attempts ==> r.attempts[1].trigger.Initial?)
  }

  /** An attempt runs within the life of the delivery, and is timed exactly while closed. */
  ghost predicate AttemptTimed(a: Attempt, now: int)
  {
    && (a.status.AttemptOpen? <==> a.finishedAt.None?)
    && a.startedAt <= now
    && (a.finishedAt.Some? ==> a.startedAt <= a.finishedAt.value <= now)
  }

  /** Attempts do not overlap. */
  ghost predicate Timed(r: Record)
  {
    && (forall n :: n in r.attempts ==> AttemptTimed(r.attempts[n], r.delivery.updatedAt))
    && (forall m, n :: m in r.attempts && n in r.attempts && m < n && r.attempts[m].finishedAt.Some? ==>
          r.attempts[m].finishedAt.value <= r.attempts[n].startedAt)
  }

  ghost predicate Sound(r: Record)
  {
    Numbered(r) && LastMatches(r) && AllExplained(r) && Timed(r)
  }

  /** Tokens are new and the clock does not run backwards. */
  ghost predicate Legal(r: Record, c: Call, at: int)
  {
    && r.delivery.updatedAt <= at
    && (c.ClaimCall? ==> forall n :: n in r.attempts ==> r.attempts[n].token != c.token)
  }

  // ---- claims -----------------------------------------------------------------------

  /** The new attempt `n`; the one before it was closed if its lease had run out. */
  ghost predicate Extended(r: Record, s: Record, token: int, at: int)
  {
    var n := r.delivery.attemptCount + 1;
    && s.attempts.Keys == r.attempts.Keys + {n}
    && (forall m :: m in r.attempts && m < n - 1 ==> s.attempts[m] == r.attempts[m])
    && (n - 1 in r.attempts ==> Abandoned(r.attempts[n - 1], s.attempts[n - 1], r.delivery.status.Claimed?, at))
    && var a := s.attempts[n];
       && a.number == n && a.trigger == ClaimTrigger(r.delivery, at) && a.token == token
       && a.status.AttemptOpen? && a.startedAt == at && a.finishedAt.None?
  }

  ghost predicate Abandoned(a: Attempt, b: Attempt, claimed: bool, at: int)
  {
    if !claimed then b == a
    else
      && b.status.AttemptFailed? && b.code == Some(LeaseExpired) && b.retryable == Some(false)
      && b.finishedAt == Some(at)
      && b.number == a.number && b.trigger == a.trigger && b.token == a.token && b.startedAt == a.startedAt
  }

  ghost predicate HandedOut(d: Delivery, e: Delivery, token: int, at: int)
  {
    && e.attemptCount == d.attemptCount + 1 && e.status.Claimed? && e.token == Some(token)
    && e.worker.Some? && e.expiresAt.Some? && e.updatedAt == at
    && e.nextAttemptAt.None? && e.completedAt.None? && e.retryLimit == d.retryLimit
    && (d.status.Pending? || LeaseIsOver(d, at) || RetryIsDue(d, at))
  }

  lemma ReasonNotBlank()
    ensures Strip(LEASE_EXPIRED_REASON) != []
  {
    assert LEASE_EXPIRED_REASON[0] == 'n';
    assert !IsSpace(LEASE_EXPIRED_REASON[0]);
    StripFacts(LEASE_EXPIRED_REASON);
  }

  lemma ClaimHandsOut(r: Record, worker: string, leaseSeconds: int, token: int, at: int)
    requires Sound(r) && ClaimWork(r, worker, leaseSeconds, token, at).Ok?
    ensures HandedOut(r.delivery, ClaimWork(r, worker, leaseSeconds, token, at).value.delivery, token, at)
  {
    hide Timed, AllExplained, Strip;
  }

  /** What a claim that does not raise does to the attempts of a sound record. */
  lemma ClaimExtends(r: Record, worker: string, leaseSeconds: int, token: int, at: int)
    requires Sound(r) && ClaimWork(r, worker, leaseSeconds, token, at).Ok?
    ensures Extended(r, ClaimWork(r, worker, leaseSeconds, token, at).value, token, at)
  {
    ReasonNotBlank();
    hide Timed, AllExplained, Strip;
    var n := r.delivery.attemptCount + 1;
    assert n !in r.attempts;
    if LeaseIsOver(r.delivery, at) {
      assert n - 1 in r.attempts && r.attempts[n - 1].status.AttemptOpen?;
    }
  }

  lemma ExtendedNumbered(r: Record, s: Record, token: int, at: int)
    requires Sound(r) && Extended(r, s, token, at) && HandedOut(r.delivery, s.delivery, token, at)
    requires forall n :: n in r.attempts ==> r.attempts[n].token != token
    ensures Numbered(s)
  {
    hide AllExplained, Timed;
    forall m | m in r.attempts
      ensures m in s.attempts && s.attempts[m].status.AttemptFailed?
      ensures s.attempts[m].number == m && s.attempts[m].token == r.attempts[m].token
    {
    }
  }

  lemma ExtendedMatches(r: Record, s: Record, token: int, at: int)
    requires Sound(r) && Extended(r, s, token, at) && HandedOut(r.delivery, s.delivery, token, at) && Numbered(s)
    ensures LastMatches(s)
  {
    hide AllExplained, Timed;
    assert s.delivery.attemptCount in s.attempts;
  }

  lemma ExtendedExplained(r: Record, s: Record, token: int, at: int)
    requires Sound(r) && Extended(r, s, token, at) && HandedOut(r.delivery, s.delivery, token, at)
    ensures AllExplained(s)
  {
    hide Timed, ClaimTrigger;
    var n := r.delivery.attemptCount + 1;
    forall m | m in r.attempts
      ensures m in s.attempts && Explained(s.attempts, m)
    {
      assert Explained(r.attempts, m);
      if m > 1 {
        assert m - 1 in r.attempts;
      }
    }
    NewestExplained(r, s, token, at);
  }

  lemma NewestExplained(r: Record, s: Record, token: int, at: int)
    requires Numbered(r) && LastMatches(r) && Extended(r, s, token, at) && HandedOut(r.delivery, s.delivery, token, at)
    ensures var n := r.delivery.attemptCount + 1;
            n in s.attempts && Explained(s.attempts, n) && (n == 1 ==> s.attempts[n].trigger.Initial?)
  {
    var n := r.delivery.attemptCount + 1;
    if n > 1 {
      assert n - 1 in r.attempts && n - 1 in s.attempts;
    }
  }

  lemma ExtendedTimed(r: Record, s: Record, token: int, at: int)
    requires Sound(r) && Extended(r, s, token, at) && HandedOut(r.delivery, s.delivery, token, at)
    requires r.delivery.updatedAt <= at
    ensures Timed(s)
  {
    hide AllExplained;
    forall m | m in r.attempts
      ensures AttemptTimed(s.attempts[m], at) && s.attempts[m].startedAt == r.attempts[m].startedAt
    {
      assert AttemptTimed(r.attempts[m], r.delivery.updatedAt);
    }
  }

  // ---- finishes ---------------------------------------------------------------------

  /** A finish is accepted only from the holder of the open attempt. */
  ghost predicate HoldsOpenAttempt(r: Record, token: int)
    requires Numbered(r)
  {
    && r.delivery.attemptCount > 0
    && r.attempts[r.delivery.attemptCount].status.AttemptOpen?
    && r.attempts[r.delivery.attemptCount].token == token
  }

  /** In a sound record the missing-attempt branch is never taken with success. */
  lemma FinishNeedsHolder(r: Record, token: int)
    requires Sound(r)
    ensures Owns(r.delivery, token) <==> HoldsOpenAttempt(r, token)
    ensures Owns(r.delivery, token) ==> CurrentAttempt(r, token) == Ok(r.attempts[r.delivery.attemptCount])
  {
  }

  /** Closing the open attempt keeps everything else. */
  lemma CloseKeeps(r: Record, s: Record, token: int, at: int)
    requires Sound(r) && Owns(r.delivery, token) && r.delivery.updatedAt <= at
    requires s.delivery.attemptCount == r.delivery.attemptCount && s.delivery.updatedAt == at
    requires r.delivery.attemptCount in s.attempts
    requires var n := r.delivery.attemptCount;
             var a := s.attempts[n];
             && s.attempts == r.attempts[n := a]
             && (a.status.AttemptFailed? || a.status.AttemptSucceeded?) && a.finishedAt == Some(at)
             && a.number == r.attempts[n].number && a.trigger == r.attempts[n].trigger
             && a.token == r.attempts[n].token && a.startedAt == r.attempts[n].startedAt
    ensures Numbered(s) && AllExplained(s) && Timed(s)
  {
    hide Timed;
    FinishNeedsHolder(r, token);
    var n := r.delivery.attemptCount;
    assert n in r.attempts;
    CloseExplained(r.attempts, s.attempts, n);
    CloseTimed(r, s, at);
  }

  lemma CloseExplained(before: map<nat, Attempt>, after: map<nat, Attempt>, n: nat)
    requires n in before && n in after && after == before[n := after[n]] && after[n].trigger == before[n].trigger
    requires n + 1 !in before && forall m :: m in before ==> Explained(before, m)
    ensures forall m :: m in after ==> Explained(after, m)
  {
    hide Explained;
    forall m | m in after
      ensures Explained(after, m)
    {
      StillExplained(before, after, n, m);
    }
  }

  lemma StillExplained(before: map<nat, Attempt>, after: map<nat, Attempt>, n: nat, m: nat)
    requires n in before && n in after && after == before[n := after[n]] && after[n].trigger == before[n].trigger
    requires n + 1 !in before && m in before && Explained(before, m)
    ensures m in after && Explained(after, m)
  {
    assert m - 1 != n;
  }

  lemma CloseTimed(r: Record, s: Record, at: int)
    requires Timed(r) && Numbered(r) && r.delivery.updatedAt <= at && s.delivery.updatedAt == at
    requires var n := r.delivery.attemptCount;
             && n in r.attempts && n in s.attempts && s.attempts == r.attempts[n := s.attempts[n]]
             && !s.attempts[n].status.AttemptOpen? && s.attempts[n].finishedAt == Some(at)
             && s.attempts[n].startedAt == r.attempts[n].startedAt
    ensures Timed(s)
  {
    forall m | m in s.attempts
      ensures AttemptTimed(s.attempts[m], at)
    {
      assert AttemptTimed(r.attempts[m], r.delivery.updatedAt);
    }
  }

  lemma SucceedSound(r: Record, token: int, result: string, at: int)
    requires Sound(r) && r.delivery.updatedAt <= at && SucceedWork(r, token, result, at).Ok?
    ensures Sound(SucceedWork(r, token, result, at).value)
  {
    FinishNeedsHolder(r, token);
    var s := SucceedWork(r, token, result, at).value;
    CloseKeeps(r, s, token, at);
  }

  lemma FailSound(r: Record, token: int, f: FailureReport, at: int)
    requires Sound(r) && r.delivery.updatedAt <= at && FailWork(r, token, f, at).Ok?
    ensures Sound(FailWork(r, token, f, at).value)
  {
    FinishNeedsHolder(r, token);
    var s := FailWork(r, token, f, at).value;
    CloseKeeps(r, s, token, at);
  }

  // ---- one call ---------------------------------------------------------------------

  /** The attempt table does not change, and the clock moves on. */
  lemma SameAttempts(r: Record, s: Record)
    requires Sound(r) && s.attempts == r.attempts && s.delivery.attemptCount == r.delivery.attemptCount
    requires r.delivery.updatedAt <= s.delivery.updatedAt
    ensures Numbered(s) && AllExplained(s) && Timed(s)
  {
    forall m | m in s.attempts
      ensures AttemptTimed(s.attempts[m], s.delivery.updatedAt)
    {
      assert AttemptTimed(r.attempts[m], r.delivery.updatedAt);
    }
  }

  /** Every call keeps the record sound. */
  lemma PerformKeeps(r: Record, c: Call, at: int)
    requires Sound(r) && Legal(r, c, at) && Perform(r, c, at).Ok?
    ensures Sound(Perform(r, c, at).value)
  {
    var s := Perform(r, c, at).value;
    match c {
      case ClaimCall(worker, leaseSeconds, token) =>
        ClaimHandsOut(r, worker, leaseSeconds, token, at);
        ClaimExtends(r, worker, leaseSeconds, token, at);
        ExtendedNumbered(r, s, token, at);
        ExtendedMatches(r, s, token, at);
        ExtendedExplained(r, s, token, at);
        ExtendedTimed(r, s, token, at);
      case SucceedCall(token, result) => SucceedSound(r, token, result, at);
      case FailCall(token, report) => FailSound(r, token, report, at);
      case RetryCall => if s != r { SameAttempts(r, s); }
      case CancelCall => if s != r { SameAttempts(r, s); }
    }
  }
}
