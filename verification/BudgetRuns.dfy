/**
 Whole runs of the budget ledger: any interleaving of units of work, started from an empty
 ledger.  The sums stay right, the limit is passed only by what settlements reported beyond
 their reservations, and it is never passed when every settlement stays within the estimate
 the router priced.
 */
module BudgetRuns {
  import opened Wrappers
  import opened Sums
  import opened Money
  import opened Budget
  import opened BudgetSafety

  datatype Step =
    | AddProject(project: int)
    | AddRun(run: int, project: int)
    | DoConfigure(project: int, limit: real, newId: int)
    | DoReserve(claim: Claim, newId: int)
    | DoSettle(claim: Claim, key: Option<string>, usage: Option<TokenUsage>)
    | DoForfeit(claim: Claim, key: Option<string>)
    | DoRelease(run: int, keys: seq<string>)

  /** Identifiers are new, runs keep their project, and listings are what the table holds. */
  ghost predicate Legal(l: Ledger, s: Step)
  {
    match s
    case AddRun(run, _) => run !in l.runProject
    case DoReserve(_, newId) => NewReservationId(l, newId)
    case DoRelease(run, keys) => Listing(l, run, keys)
    case _ => true
  }

  function LedgerOr<T>(r: Result<(Ledger, T), BudgetError>, l: Ledger): Ledger
  {
    match r
    case Ok(p) => p.0
    case Err(_) => l
  }

  /** One unit of work; one that raises is rolled back. */
  ghost function Next(l: Ledger, s: Step): Ledger
    requires Legal(l, s)
  {
    match s
    case AddProject(project) => l.(projects := l.projects + {project})
    case AddRun(run, project) => l.(runProject := l.runProject[run := project])
    case DoConfigure(project, limit, newId) =>
      (match Configure(l, project, limit, newId) case Ok(m) => m case Err(_) => l)
    case DoReserve(claim, newId) => LedgerOr(Reserve(l, claim, newId), l)
    case DoSettle(claim, key, usage) => LedgerOr(Settle(l, claim, key, usage), l)
    case DoForfeit(claim, key) => LedgerOr(Forfeit(l, claim, key), l)
    case DoRelease(run, keys) => (match ReleaseRun(l, keys) case Ok(m) => m case Err(_) => l)
  }

  const EMPTY_LEDGER: Ledger := Ledger({}, map[], map[], map[], map[])

  ghost predicate LegalRun(l: Ledger, steps: seq<Step>)
    decreases |steps|
  {
    steps == [] || (Legal(l, steps[0]) && LegalRun(Next(l, steps[0]), steps[1..]))
  }

  ghost function After(l: Ledger, steps: seq<Step>): Ledger
    requires LegalRun(l, steps)
    decreases |steps|
  {
    if steps == [] then l else After(Next(l, steps[0]), steps[1..])
  }

  lemma AddRunKeeps(l: Ledger, run: int, project: int)
    requires Consistent(l) && run !in l.runProject
    ensures Consistent(l.(runProject := l.runProject[run := project]))
  {
    var m := l.(runProject := l.runProject[run := project]);
    forall k | k in m.reservations
      ensures RowOk(m, m.reservations[k])
    {
      assert RowOk(l, l.reservations[k]);
    }
    forall p | p in m.accounts
      ensures Balanced(m, p)
    {
      assert Balanced(l, p);
    }
  }

  lemma AddProjectKeeps(l: Ledger, project: int)
    requires Consistent(l)
    ensures Consistent(l.(projects := l.projects + {project}))
  {
    var m := l.(projects := l.projects + {project});
    RowsKept(l, m);
    forall p | p in m.accounts
      ensures Balanced(m, p)
    {
      assert Balanced(l, p);
    }
  }

  /** Every unit of work keeps the ledger consistent. */
  lemma NextKeeps(l: Ledger, s: Step)
    requires Consistent(l) && Legal(l, s)
    ensures Consistent(Next(l, s))
  {
    hide Consistent, Configure, Reserve, Finalize, ReleaseRun;
    match s {
      case AddProject(project) => AddProjectKeeps(l, project);
      case AddRun(run, project) => AddRunKeeps(l, run, project);
      case DoConfigure(project, limit, newId) => ConfigureKeeps(l, project, limit, newId);
      case DoReserve(claim, newId) => ReserveKeeps(l, claim, newId);
      case DoSettle(claim, key, usage) =>
        if key.Some? && usage.Some? {
          FinalizeKeeps(l, claim, key.value, usage.value, Actual);
        }
      case DoForfeit(claim, key) =>
        if key.Some? {
          FinalizeKeeps(l, claim, key.value, TokenUsage(0, 0), EstimatedForfeit);
        }
      case DoRelease(run, keys) => ReleaseRunKeeps(l, run, keys);
    }
  }

  lemma {:induction false} RunKeeps(l: Ledger, steps: seq<Step>)
    requires Consistent(l) && LegalRun(l, steps)
    ensures Consistent(After(l, steps))
    decreases |steps|
  {
    if steps != [] {
      NextKeeps(l, steps[0]);
      RunKeeps(Next(l, steps[0]), steps[1..]);
    }
  }

  /**
   After any run from the empty ledger: `reserved` is the sum of the reserved rows, `spent` is the
   sum of the usage records, usage records belong exactly to settled and forfeited rows, and
   reserved plus spent exceeds the limit by no more than the settlements' overruns.
   */
  lemma LedgerAlwaysConsistent(steps: seq<Step>)
    requires LegalRun(EMPTY_LEDGER, steps)
    ensures Consistent(After(EMPTY_LEDGER, steps))
  {
    RunKeeps(EMPTY_LEDGER, steps);
  }

  // ---- what is final stays final ----------------------------------------------------

  /** Rows and records are never removed or repriced; a row that left `Reserved` never changes again. */
  ghost predicate History(l: Ledger, m: Ledger)
  {
    && (forall k :: k in l.reservations ==>
          && k in m.reservations
          && m.reservations[k].id == l.reservations[k].id
          && m.reservations[k].projectId == l.reservations[k].projectId
          && m.reservations[k].runId == l.reservations[k].runId
          && m.reservations[k].reserved == l.reservations[k].reserved
          && m.reservations[k].executionId == l.reservations[k].executionId
          && m.reservations[k].nodeKey == l.reservations[k].nodeKey
          && (!l.reservations[k].status.Reserved? ==> m.reservations[k] == l.reservations[k]))
    && (forall id :: id in l.usage ==> id in m.usage && m.usage[id] == l.usage[id])
  }

  lemma FinalizeHistory(l: Ledger, c: Claim, key: string, u: TokenUsage, kind: UsageKind)
    requires Consistent(l)
    ensures History(l, LedgerOr(Finalize(l, c, key, u, kind), l))
  {
    hide Balanced, UsageOwned, CostOf;
    if Finalize(l, c, key, u, kind).Ok? && l.reservations[key].status.Reserved? {
      FinalizePosts(l, c, key, u, kind);
    } else if Finalize(l, c, key, u, kind).Ok? {
      assert RowOk(l, l.reservations[key]);
    }
  }

  lemma ReserveHistory(l: Ledger, c: Claim, newId: int)
    requires Consistent(l) && NewReservationId(l, newId)
    ensures History(l, LedgerOr(Reserve(l, c, newId), l))
  {
    hide Balanced, UsageOwned, RowOk, IdsDistinct, Reserve;
    if Reserve(l, c, newId).Ok? && Reserve(l, c, newId).value.0 != l {
      ReservePosts(l, c, newId);
    }
  }

  lemma ReleaseHistory(l: Ledger, m: Ledger, run: int, keys: seq<string>)
    requires Listing(l, run, keys) && ReleasedExactly(l, m, keys)
    ensures History(l, m)
  {
  }

  lemma SameRowsHistory(l: Ledger, m: Ledger)
    requires m.reservations == l.reservations && m.usage == l.usage
    ensures History(l, m)
  {
  }

  lemma NextHistory(l: Ledger, s: Step)
    requires Consistent(l) && Legal(l, s)
    ensures History(l, Next(l, s))
  {
    hide Consistent, Reserve, Finalize, ReleaseRun, History, ReleasedExactly;
    match s {
      case DoReserve(claim, newId) => ReserveHistory(l, claim, newId);
      case DoSettle(claim, key, usage) =>
        if key.Some? && usage.Some? {
          FinalizeHistory(l, claim, key.value, usage.value, Actual);
        }
        SameRowsHistory(l, l);
      case DoForfeit(claim, key) =>
        if key.Some? {
          FinalizeHistory(l, claim, key.value, TokenUsage(0, 0), EstimatedForfeit);
        }
        SameRowsHistory(l, l);
      case DoRelease(run, keys) =>
        ReleaseRunKeeps(l, run, keys);
        ReleaseHistory(l, ReleaseRun(l, keys).value, run, keys);
      case _ => SameRowsHistory(l, Next(l, s));
    }
  }

  lemma {:induction false} RunHistory(l: Ledger, steps: seq<Step>)
    requires Consistent(l) && LegalRun(l, steps)
    ensures History(l, After(l, steps))
    decreases |steps|
  {
    hide Consistent, Next;
    if steps != [] {
      NextKeeps(l, steps[0]);
      NextHistory(l, steps[0]);
      RunHistory(Next(l, steps[0]), steps[1..]);
    }
  }

  /**
   First finalisation wins: once a usage record exists for a key, every later settle or forfeit
   with that key, after any further steps, returns that record and changes nothing.
   */
  lemma FirstFinalisationWins(l: Ledger, steps: seq<Step>, key: string, c: Claim, u: TokenUsage, kind: UsageKind)
    requires Consistent(l) && LegalRun(l, steps)
    requires key in l.reservations && l.reservations[key].id in l.usage && c.selection.Some?
    ensures Finalize(After(l, steps), c, key, u, kind) == Ok((After(l, steps), l.usage[l.reservations[key].id]))
  {
    RunHistory(l, steps);
    RunKeeps(l, steps);
    assert RowOk(After(l, steps), After(l, steps).reservations[key]);
  }

  // ---- within the estimate ----------------------------------------------------------

  /** The claim of a task visit and the token counts its model was routed for. */
  datatype Routed = Routed(claim: Claim, input: nat, output: nat)

  predicate PricedByRouter(e: Routed)
  {
    && e.claim.selection.Some?
    && var s := e.claim.selection.value;
       s.estimatedCost == TokenCost(s.profile.inputPrice, s.profile.outputPrice, e.input, e.output)
  }

  /** Claims come from `book`, and settlements report no more tokens than were routed. */
  predicate WithinEstimate(s: Step, book: map<string, Routed>)
  {
    match s
    case DoReserve(claim, _) =>
      claim.selection.Some? ==>
        && claim.idempotencyKey in book
        && book[claim.idempotencyKey].claim == claim
        && PricedByRouter(book[claim.idempotencyKey])
    case DoSettle(claim, key, usage) =>
      key.Some? && usage.Some? ==>
        && key.value in book
        && book[key.value].claim == claim
        && usage.value.input <= book[key.value].input
        && usage.value.output <= book[key.value].output
    case _ => true
  }

  ghost predicate RowPriced(k: string, r: Reservation, book: map<string, Routed>)
  {
    && k in book && PricedByRouter(book[k])
    && r.reserved == ToMicros(book[k].claim.selection.value.estimatedCost)
    && Overrun(r) == 0
  }

  ghost predicate Priced(l: Ledger, book: map<string, Routed>)
  {
    forall k :: k in l.reservations ==> RowPriced(k, l.reservations[k], book)
  }

  /** The settled cost of at most the routed tokens is at most the reserved amount. */
  lemma CostWithinReservation(e: Routed, u: TokenUsage)
    requires PricedByRouter(e) && u.input <= e.input && u.output <= e.output
    ensures CostOf(e.claim.selection.value, u) <= ToMicros(e.claim.selection.value.estimatedCost)
  {
    var p := e.claim.selection.value.profile;
    TokenCostMonotone(p.inputPrice, p.outputPrice, u.input, u.output, e.input, e.output);
    MoneyMonotone(TokenCost(p.inputPrice, p.outputPrice, u.input, u.output), e.claim.selection.value.estimatedCost);
  }

  lemma FinalizePriced(l: Ledger, c: Claim, key: string, u: TokenUsage, kind: UsageKind, book: map<string, Routed>)
    requires Consistent(l) && Priced(l, book)
    requires kind.Actual? ==>
               key in book && book[key].claim == c && u.input <= book[key].input && u.output <= book[key].output
    ensures Priced(LedgerOr(Finalize(l, c, key, u, kind), l), book)
  {
    if Finalize(l, c, key, u, kind).Ok? && l.reservations[key].status.Reserved? {
      FinalizePosts(l, c, key, u, kind);
      assert RowPriced(key, l.reservations[key], book);
      if kind.Actual? {
        CostWithinReservation(book[key], u);
      }
    } else if Finalize(l, c, key, u, kind).Ok? {
      assert RowOk(l, l.reservations[key]);
    }
  }

  lemma ReservePriced(l: Ledger, c: Claim, newId: int, book: map<string, Routed>)
    requires Consistent(l) && NewReservationId(l, newId) && Priced(l, book)
    requires c.selection.Some? ==>
               && c.idempotencyKey in book && book[c.idempotencyKey].claim == c
               && PricedByRouter(book[c.idempotencyKey])
    ensures Priced(LedgerOr(Reserve(l, c, newId), l), book)
  {
    if Reserve(l, c, newId).Ok? && Reserve(l, c, newId).value.0 != l {
      ReservePosts(l, c, newId);
    }
  }

  lemma ReleasePriced(l: Ledger, m: Ledger, run: int, keys: seq<string>, book: map<string, Routed>)
    requires Priced(l, book) && ReleasedExactly(l, m, keys)
    ensures Priced(m, book)
  {
    forall k | k in m.reservations
      ensures RowPriced(k, m.reservations[k], book)
    {
      assert RowPriced(k, l.reservations[k], book);
    }
  }

  lemma SameRowsPriced(l: Ledger, m: Ledger, book: map<string, Routed>)
    requires m.reservations == l.reservations && Priced(l, book)
    ensures Priced(m, book)
  {
  }

  lemma NextPriced(l: Ledger, s: Step, book: map<string, Routed>)
    requires Consistent(l) && Legal(l, s) && Priced(l, book) && WithinEstimate(s, book)
    ensures Priced(Next(l, s), book)
  {
    hide Consistent, Reserve, Finalize, ReleaseRun, Priced, ReleasedExactly;
    match s {
      case DoReserve(claim, newId) => ReservePriced(l, claim, newId, book);
      case DoSettle(claim, key, usage) =>
        if key.Some? && usage.Some? {
          FinalizePriced(l, claim, key.value, usage.value, Actual, book);
        }
      case DoForfeit(claim, key) =>
        if key.Some? {
          FinalizePriced(l, claim, key.value, TokenUsage(0, 0), EstimatedForfeit, book);
        }
      case DoRelease(run, keys) =>
        ReleaseRunKeeps(l, run, keys);
        ReleasePriced(l, ReleaseRun(l, keys).value, run, keys, book);
      case _ => SameRowsPriced(l, Next(l, s), book);
    }
  }

  lemma {:induction false} RunPriced(l: Ledger, steps: seq<Step>, book: map<string, Routed>)
    requires Consistent(l) && LegalRun(l, steps) && Priced(l, book)
    requires forall i :: 0 <= i < |steps| ==> WithinEstimate(steps[i], book)
    ensures Priced(After(l, steps), book)
    decreases |steps|
  {
    hide Consistent, Next, Priced;
    if steps != [] {
      NextKeeps(l, steps[0]);
      NextPriced(l, steps[0], book);
      RunPriced(Next(l, steps[0]), steps[1..], book);
    }
  }

  /**
   If every settlement reports token counts within the routed estimate, no run ever commits more
   than an account's limit.
   */
  lemma NeverOverLimit(steps: seq<Step>, book: map<string, Routed>, project: int)
    requires LegalRun(EMPTY_LEDGER, steps)
    requires forall i :: 0 <= i < |steps| ==> WithinEstimate(steps[i], book)
    requires project in After(EMPTY_LEDGER, steps).accounts
    ensures var a := After(EMPTY_LEDGER, steps).accounts[project];
            a.reserved + a.spent <= a.limit && Available(a) >= 0
  {
    var l := After(EMPTY_LEDGER, steps);
    RunKeeps(EMPTY_LEDGER, steps);
    RunPriced(EMPTY_LEDGER, steps, book);
    assert Balanced(l, project);
    forall k | k in l.reservations
      ensures OverrunBy(project)(l.reservations[k]) == 0
    {
      assert RowPriced(k, l.reservations[k], book);
    }
    MapSumZero(l.reservations, OverrunBy(project));
  }
}
