/** Whole lives of a delivery: any interleaving of calls, with fresh tokens and a forward clock. */
module NotificationRuns {
  import opened Wrappers
  import opened Text
  import opened Notifications
  import opened NotificationSafety

  /** A call that raises is rolled back. */
  function Next(r: Record, c: Call, at: int): Record
  {
    match Perform(r, c, at)
    case Ok(s) => s
    case Err(_) => r
  }

  ghost predicate LegalRun(r: Record, calls: seq<(Call, int)>)
    decreases |calls|
  {
    calls == [] || (Legal(r, calls[0].0, calls[0].1) && LegalRun(Next(r, calls[0].0, calls[0].1), calls[1..]))
  }

  ghost function After(r: Record, calls: seq<(Call, int)>): Record
    decreases |calls|
  {
    if calls == [] then r else After(Next(r, calls[0].0, calls[0].1), calls[1..])
  }

  function NewRecord(at: int): Record
  {
    Record(NewDelivery(at), map[])
  }

  lemma NextSound(r: Record, c: Call, at: int)
    requires Sound(r) && Legal(r, c, at)
    ensures Sound(Next(r, c, at))
  {
    if Perform(r, c, at).Ok? {
      PerformKeeps(r, c, at);
    }
  }

  lemma {:induction false} RunSound(r: Record, calls: seq<(Call, int)>)
    requires Sound(r) && LegalRun(r, calls)
    ensures Sound(After(r, calls))
    decreases |calls|
  {
    hide Sound, Next;
    if calls != [] {
      NextSound(r, calls[0].0, calls[0].1);
      RunSound(Next(r, calls[0].0, calls[0].1), calls[1..]);
    }
  }

  /**
   In every reachable state the attempts are numbered 1..attempt_count, an attempt is open exactly
   when the delivery is claimed and is then the last one and carries its token, every trigger is
   explained by the attempt before it, and attempt intervals do not overlap.
   */
  lemma AttemptLedgerSound(createdAt: int, calls: seq<(Call, int)>)
    requires LegalRun(NewRecord(createdAt), calls)
    ensures Sound(After(NewRecord(createdAt), calls))
  {
    RunSound(NewRecord(createdAt), calls);
  }

  // ---- closed attempts, superseded tokens, success ----------------------------------

  /** Closed attempts are never changed again, and numbers only grow. */
  ghost predicate ClosedKept(r: Record, s: Record)
  {
    && r.delivery.attemptCount <= s.delivery.attemptCount
    && forall n :: n in r.attempts ==>
         && n in s.attempts
         && s.attempts[n].token == r.attempts[n].token
         && s.attempts[n].trigger == r.attempts[n].trigger
         && (!r.attempts[n].status.AttemptOpen? ==> s.attempts[n] == r.attempts[n])
  }

  lemma NextClosedKept(r: Record, c: Call, at: int)
    requires Sound(r) && Legal(r, c, at)
    ensures ClosedKept(r, Next(r, c, at))
  {
    hide Timed, AllExplained, Extended, HandedOut;
    if Perform(r, c, at).Ok? {
      match c {
        case ClaimCall(worker, leaseSeconds, token) =>
          ClaimHandsOut(r, worker, leaseSeconds, token, at);
          ClaimExtends(r, worker, leaseSeconds, token, at);
          ExtendedClosedKept(r, Next(r, c, at), token, at);
        case SucceedCall(token, result) => FinishNeedsHolder(r, token);
        case FailCall(token, report) => FinishNeedsHolder(r, token);
        case _ =>
      }
    }
  }

  lemma ExtendedClosedKept(r: Record, s: Record, token: int, at: int)
    requires Sound(r) && Extended(r, s, token, at) && HandedOut(r.delivery, s.delivery, token, at)
    ensures ClosedKept(r, s)
  {
    hide Timed, AllExplained;
    forall n | n in r.attempts
      ensures n in s.attempts && s.attempts[n].trigger == r.attempts[n].trigger
      ensures s.attempts[n].token == r.attempts[n].token
      ensures !r.attempts[n].status.AttemptOpen? ==> s.attempts[n] == r.attempts[n]
    {
    }
  }

  lemma {:induction false} RunClosedKept(r: Record, calls: seq<(Call, int)>)
    requires Sound(r) && LegalRun(r, calls)
    ensures ClosedKept(r, After(r, calls))
    decreases |calls|
  {
    hide Sound, Next;
    if calls != [] {
      NextSound(r, calls[0].0, calls[0].1);
      NextClosedKept(r, calls[0].0, calls[0].1);
      RunClosedKept(Next(r, calls[0].0, calls[0].1), calls[1..]);
    }
  }

  /**
   A token handed out for attempt `n` is worthless once the attempt is closed or a later one was
   claimed: after any further calls, finishing with it raises and changes nothing.
   */
  lemma SupersededTokenIsDead(r: Record, calls: seq<(Call, int)>, n: nat, c: Call, at: int)
    requires Sound(r) && LegalRun(r, calls) && n in r.attempts
    requires n < r.delivery.attemptCount || !r.attempts[n].status.AttemptOpen?
    requires c.SucceedCall? || c.FailCall?
    requires c.heldToken == r.attempts[n].token
    ensures Perform(After(r, calls), c, at).Err? && Next(After(r, calls), c, at) == After(r, calls)
  {
    var s := After(r, calls);
    RunSound(r, calls);
    RunClosedKept(r, calls);
    FinishNeedsHolder(s, c.heldToken);
    assert n < s.delivery.attemptCount || !s.attempts[n].status.AttemptOpen?;
  }

  /** A succeeded delivery never changes again, whatever is called on it. */
  lemma {:induction false} SuccessIsFinal(r: Record, calls: seq<(Call, int)>)
    requires Sound(r) && LegalRun(r, calls) && r.delivery.status.Succeeded?
    ensures After(r, calls) == r
    decreases |calls|
  {
    if calls != [] {
      assert Perform(r, calls[0].0, calls[0].1).Err?;
      SuccessIsFinal(r, calls[1..]);
    }
  }

  /** At most one attempt succeeds, and it is the last one, exactly when the delivery succeeded. */
  lemma OneSuccess(r: Record, n: nat)
    requires Sound(r) && n in r.attempts
    ensures r.attempts[n].status.AttemptSucceeded? <==> n == r.delivery.attemptCount && r.delivery.status.Succeeded?
  {
  }

  // ---- automatic retries ------------------------------------------------------------

  /** No failure report of the run passes a retry limit above `limit`. */
  ghost predicate LimitsWithin(calls: seq<(Call, int)>, limit: int)
  {
    forall i :: 0 <= i < |calls| && calls[i].0.FailCall? ==> calls[i].0.report.retryLimit <= limit
  }

  /** Automatic attempts are numbered 2..limit+1. */
  ghost predicate AutomaticWithin(r: Record, limit: int)
  {
    && r.delivery.retryLimit <= limit
    && forall n :: n in r.attempts && r.attempts[n].trigger.Automatic? ==> 2 <= n <= limit + 1
  }

  lemma ExtendedAutomaticWithin(r: Record, s: Record, token: int, at: int, limit: nat)
    requires Sound(r) && AutomaticWithin(r, limit)
    requires Extended(r, s, token, at) && HandedOut(r.delivery, s.delivery, token, at)
    ensures AutomaticWithin(s, limit)
  {
    hide Timed, AllExplained;
    forall n | n in r.attempts
      ensures n in s.attempts && s.attempts[n].trigger == r.attempts[n].trigger
    {
    }
  }

  lemma NextAutomaticWithin(r: Record, c: Call, at: int, limit: nat)
    requires Sound(r) && Legal(r, c, at) && AutomaticWithin(r, limit)
    requires c.FailCall? ==> c.report.retryLimit <= limit
    ensures AutomaticWithin(Next(r, c, at), limit)
  {
    if Perform(r, c, at).Ok? {
      match c {
        case ClaimCall(worker, leaseSeconds, token) =>
          ClaimHandsOut(r, worker, leaseSeconds, token, at);
          ClaimExtends(r, worker, leaseSeconds, token, at);
          ExtendedAutomaticWithin(r, Next(r, c, at), token, at, limit);
        case SucceedCall(token, result) => FinishNeedsHolder(r, token);
        case FailCall(token, report) => FinishNeedsHolder(r, token);
        case _ =>
      }
    }
  }

  lemma {:induction false} RunAutomaticWithin(r: Record, calls: seq<(Call, int)>, limit: nat)
    requires Sound(r) && LegalRun(r, calls) && AutomaticWithin(r, limit) && LimitsWithin(calls, limit)
    ensures AutomaticWithin(After(r, calls), limit)
    decreases |calls|
  {
    hide Sound, Next, AutomaticWithin;
    if calls != [] {
      NextSound(r, calls[0].0, calls[0].1);
      NextAutomaticWithin(r, calls[0].0, calls[0].1, limit);
      RunAutomaticWithin(Next(r, calls[0].0, calls[0].1), calls[1..], limit);
    }
  }

  ghost function AutomaticAttempts(r: Record): set<nat>
  {
    set n | n in r.attempts && r.attempts[n].trigger.Automatic?
  }

  lemma {:induction false} RangeSize(s: set<nat>, limit: nat)
    requires forall n :: n in s ==> 2 <= n <= limit + 1
    ensures |s| <= limit
  {
    if limit == 0 {
      assert s == {};
    } else {
      RangeSize(s - {limit + 1}, limit - 1);
    }
  }

  /**
   However manual retries and lease recoveries are mixed in, at most ten attempts of a delivery are
   automatic, all numbered 2 to 11, and at most `limit` when no failure report passes a higher limit.
   */
  lemma AutomaticRetriesBounded(createdAt: int, calls: seq<(Call, int)>, limit: nat)
    requires LegalRun(NewRecord(createdAt), calls)
    ensures LimitsWithin(calls, limit) ==> |AutomaticAttempts(After(NewRecord(createdAt), calls))| <= limit
    ensures |AutomaticAttempts(After(NewRecord(createdAt), calls))| <= MAX_AUTOMATIC_RETRY_LIMIT
    ensures forall n :: n in AutomaticAttempts(After(NewRecord(createdAt), calls)) ==>
              2 <= n <= MAX_AUTOMATIC_RETRY_LIMIT + 1
  {
    var r := NewRecord(createdAt);
    if LimitsWithin(calls, limit) {
      RunAutomaticWithin(r, calls, limit);
      RangeSize(AutomaticAttempts(After(r, calls)), limit);
    }
    RunAutomaticTen(r, calls);
    RangeSize(AutomaticAttempts(After(r, calls)), MAX_AUTOMATIC_RETRY_LIMIT);
  }

  /** Reports above the maximum are refused, so ten bounds every run. */
  lemma {:induction false} RunAutomaticTen(r: Record, calls: seq<(Call, int)>)
    requires Sound(r) && LegalRun(r, calls) && AutomaticWithin(r, MAX_AUTOMATIC_RETRY_LIMIT)
    ensures AutomaticWithin(After(r, calls), MAX_AUTOMATIC_RETRY_LIMIT)
    decreases |calls|
  {
    if calls != [] {
      var c, at := calls[0].0, calls[0].1;
      NextSound(r, c, at);
      if c.FailCall? && c.report.retryLimit > MAX_AUTOMATIC_RETRY_LIMIT {
        assert Perform(r, c, at).Err?;
      } else {
        NextAutomaticWithin(r, c, at, MAX_AUTOMATIC_RETRY_LIMIT);
      }
      hide Sound, Next, AutomaticWithin;
      RunAutomaticTen(Next(r, c, at), calls[1..]);
    }
  }

  // ---- schedules --------------------------------------------------------------------

  /** A scheduled retry can be claimed at every instant from its due time on, and then runs as automatic. */
  lemma ScheduledRetryIsClaimable(r: Record, worker: string, leaseSeconds: int, token: int, at: int)
    requires Sound(r) && r.delivery.nextAttemptAt.Some? && r.delivery.nextAttemptAt.value <= at
    requires Strip(worker) != [] && leaseSeconds > 0
    ensures ClaimWork(r, worker, leaseSeconds, token, at).Ok?
    ensures var s := ClaimWork(r, worker, leaseSeconds, token, at).value;
            s.delivery.attemptCount in s.attempts && s.attempts[s.delivery.attemptCount].trigger.Automatic?
  {
    StripIdempotent(worker);
    assert r.delivery.attemptCount + 1 !in r.attempts;
  }

  /** A failed delivery without a schedule leaves `Failed` only by a manual retry. */
  lemma UnscheduledFailureWaits(r: Record, c: Call, at: int)
    requires Sound(r) && r.delivery.status.Failed? && r.delivery.nextAttemptAt.None?
    ensures Next(r, c, at).delivery.status.Failed? <==> !c.RetryCall?
    ensures !c.RetryCall? ==> Next(r, c, at) == r
  {
  }

  /** The abandoned-lease back-fill of a finish is never reached: the attempt is there whenever the lease is. */
  lemma BackfillUnreachable(r: Record, token: int)
    requires Sound(r) && r.delivery.attemptCount !in r.attempts
    ensures CurrentAttempt(r, token) == Err(NoWorker)
  {
  }
}
