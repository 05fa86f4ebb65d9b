/**
 What the units of work of the budget ledger post, in elementary terms: amounts as nearest whole micro-USD of the prices
 and limits that were given, and the fields of every row and record.
 */
module BudgetPostings {
  import opened Wrappers
  import opened Text
  import opened Money
  import opened Budget
  import opened BudgetSafety
  import opened BudgetRuns

  // ---- limits -----------------------------------------------------------------------

  /** Configuring sets the limit, to the nearest micro-USD, unless it is negative or below what is committed. */
  lemma ConfiguredExactly(l: Ledger, project: int, usd: real, newId: int, limit: int)
    requires NearestEven(usd * MILLION, limit)
    ensures var r := Configure(l, project, usd, newId);
            && (r.Ok? <==>
                  && project in l.projects
                  && if project in l.accounts then l.accounts[project].reserved + l.accounts[project].spent <= limit
                     else 0 <= limit)
            && (r.Ok? ==>
                  && project in r.value.accounts && r.value.accounts[project].limit == limit
                  && r.value == l.(accounts := l.accounts[project := r.value.accounts[project]])
                  && if project in l.accounts then
                       && r.value.accounts[project].id == l.accounts[project].id
                       && r.value.accounts[project].reserved == l.accounts[project].reserved
                       && r.value.accounts[project].spent == l.accounts[project].spent
                     else
                       && r.value.accounts[project].id == newId
                       && r.value.accounts[project].reserved == r.value.accounts[project].spent == 0)
  {
    RoundIsNearestEven(usd * MILLION, limit);
  }

  // ---- reservations -----------------------------------------------------------------

  /** A reservation holds the nearest micro-USD of the estimate, and is refused exactly when that is not available. */
  lemma ReservedExactly(l: Ledger, c: Claim, newId: int, amount: int)
    requires Consistent(l) && NewReservationId(l, newId)
    requires c.selection.Some? && c.idempotencyKey !in l.reservations
    requires c.runId in l.runProject && l.runProject[c.runId] in l.accounts
    requires NearestEven(c.selection.value.estimatedCost * MILLION, amount)
    ensures var r, a, key := Reserve(l, c, newId), l.accounts[l.runProject[c.runId]], c.idempotencyKey;
            && (r.Ok? <==> 0 <= amount <= a.limit - a.reserved - a.spent && !Blank(c.nodeKey) && !Blank(key))
            && (r.Ok? ==>
                  var m := r.value.0;
                  && key in m.reservations && r.value.1 == Some(m.reservations[key])
                  && m.reservations[key] ==
                       Reservation(newId, a.id, l.runProject[c.runId], c.runId, c.executionId, c.nodeKey, amount,
                                   Reserved, None)
                  && m.reservations == l.reservations[key := m.reservations[key]]
                  && m.accounts == l.accounts[l.runProject[c.runId] :=
                       a.(reserved := a.reserved + amount, version := a.version + 1)]
                  && m == l.(accounts := m.accounts, reservations := m.reservations))
  {
    hide Strip, Blank, Consistent;
    RoundIsNearestEven(c.selection.value.estimatedCost * MILLION, amount);
    StripFacts(c.nodeKey);
    StripFacts(c.idempotencyKey);
  }

  /** A key is reserved once: after any further steps the row is answered as it then is, and nothing changes. */
  lemma ReservedOnce(l: Ledger, steps: seq<Step>, c: Claim, newId: int)
    requires Consistent(l) && LegalRun(l, steps) && c.idempotencyKey in l.reservations && c.selection.Some?
    ensures var m, key := After(l, steps), c.idempotencyKey;
            && key in m.reservations && m.reservations[key].reserved == l.reservations[key].reserved
            && Reserve(m, c, newId) == Ok((m, Some(m.reservations[key])))
            && Reserve(m, c.(selection := None), newId) == Ok((m, None))
  {
    hide Consistent;
    RunHistory(l, steps);
  }

  /** Without an account of the project nothing is reserved. */
  lemma UnbudgetedIsFree(l: Ledger, c: Claim, newId: int)
    requires c.selection.Some? && c.idempotencyKey !in l.reservations
    ensures c.runId !in l.runProject ==> Reserve(l, c, newId) == Err(RunNotFound)
    ensures c.runId in l.runProject && l.runProject[c.runId] !in l.accounts ==> Reserve(l, c, newId) == Ok((l, None))
  {
  }

  // ---- settlements ------------------------------------------------------------------

  /** The amount that was held is given back and the cost is spent, on the account of the reservation alone. */
  predicate Charges(l: Ledger, m: Ledger, stored: Reservation, cost: int)
  {
    && stored.projectId in l.accounts && stored.projectId in m.accounts
    && m.accounts == l.accounts[stored.projectId := m.accounts[stored.projectId]]
    && m.accounts[stored.projectId].reserved == l.accounts[stored.projectId].reserved - stored.reserved
    && m.accounts[stored.projectId].spent == l.accounts[stored.projectId].spent + cost
    && m.accounts[stored.projectId].limit == l.accounts[stored.projectId].limit
  }

  /** `tokens` at a price per million, both kinds added: the cost in micro-USD before rounding. */
  lemma CostInMicros(p: Profile, u: TokenUsage)
    ensures TokenCost(p.inputPrice, p.outputPrice, u.input, u.output) * MILLION
            == u.input as real * p.inputPrice + u.output as real * p.outputPrice
  {
  }

  /** What settling posts: the usage at the prices of the profile, rounded to the nearest micro-USD. */
  lemma SettledExactly(l: Ledger, c: Claim, key: string, u: TokenUsage, due: real)
    requires Consistent(l) && c.selection.Some? && key in l.reservations && l.reservations[key].status.Reserved?
    requires due == u.input as real * c.selection.value.profile.inputPrice
                    + u.output as real * c.selection.value.profile.outputPrice
    ensures Budget.Settle(l, c, Some(key), Some(u)).Ok? && Budget.Settle(l, c, Some(key), Some(u)).value.1.Some?
    ensures var stored, p := l.reservations[key], c.selection.value.profile;
            var m, record := Budget.Settle(l, c, Some(key), Some(u)).value.0,
                             Budget.Settle(l, c, Some(key), Some(u)).value.1.value;
            && NearestEven(due, record.cost)
            && record == Usage(stored.accountId, stored.projectId, stored.runId, stored.executionId, stored.nodeKey,
                               Actual, u.input, u.output, record.cost, p.key, p.version)
            && m.usage == l.usage[stored.id := record]
            && m.reservations == l.reservations[key := stored.(status := Settled, actual := Some(record.cost))]
            && Charges(l, m, stored, record.cost)
  {
    hide Consistent, TokenCost;
    FinalizePosts(l, c, key, u, Actual);
    CostInMicros(c.selection.value.profile, u);
    RoundIsNearestEven(due, Budget.Settle(l, c, Some(key), Some(u)).value.1.value.cost);
  }

  /** What a forfeit posts: the reserved amount. */
  lemma ForfeitedExactly(l: Ledger, c: Claim, key: string)
    requires Consistent(l) && c.selection.Some? && key in l.reservations && l.reservations[key].status.Reserved?
    ensures Budget.Forfeit(l, c, Some(key)).Ok? && Budget.Forfeit(l, c, Some(key)).value.1.Some?
    ensures var stored, p := l.reservations[key], c.selection.value.profile;
            var m, record := Budget.Forfeit(l, c, Some(key)).value.0, Budget.Forfeit(l, c, Some(key)).value.1.value;
            && record == Usage(stored.accountId, stored.projectId, stored.runId, stored.executionId, stored.nodeKey,
                               EstimatedForfeit, 0, 0, stored.reserved, p.key, p.version)
            && m.usage == l.usage[stored.id := record]
            && m.reservations == l.reservations[key := stored.(status := Forfeited, actual := Some(stored.reserved))]
            && Charges(l, m, stored, stored.reserved)
  {
    hide Consistent;
    FinalizePosts(l, c, key, TokenUsage(0, 0), EstimatedForfeit);
  }

  /**
   Reserving for routed token counts and settling exactly those: the cost is the reservation, the account holds what it
   held before, and the whole amount has become spending.
   */
  lemma RoutedUsageCostsReservation(l: Ledger, c: Claim, newId: int, input: nat, output: nat)
    requires Consistent(l) && NewReservationId(l, newId) && PricedByRouter(Routed(c, input, output))
    requires c.idempotencyKey !in l.reservations && Reserve(l, c, newId).Ok?
    requires c.runId in l.runProject && l.runProject[c.runId] in l.accounts
    ensures var m, project := Reserve(l, c, newId).value.0, l.runProject[c.runId];
            var r := Budget.Settle(m, c, Some(c.idempotencyKey), Some(TokenUsage(input, output)));
            && r.Ok? && r.value.1.Some? && c.idempotencyKey in m.reservations
            && var amount := m.reservations[c.idempotencyKey].reserved;
               && r.value.1.value.cost == amount && project in r.value.0.accounts
               && m.accounts[project].reserved == l.accounts[project].reserved + amount
               && r.value.0.accounts[project].reserved == l.accounts[project].reserved
               && r.value.0.accounts[project].spent == l.accounts[project].spent + amount
  {
    hide Consistent, TokenCost, NearestEven, Reserve, Finalize, ToMicros;
    var cost, key := c.selection.value.estimatedCost, c.idempotencyKey;
    var amount, micros := ToMicros(cost), cost * MILLION;
    NearestOfMicros(cost);
    ReservedExactly(l, c, newId, amount);
    ReserveKeeps(l, c, newId);
    var m := Reserve(l, c, newId).value.0;
    var p, u := c.selection.value.profile, TokenUsage(input, output);
    CostInMicros(p, u);
    SettledExactly(m, c, key, u, micros);
    NearestIsUnique(micros, Budget.Settle(m, c, Some(key), Some(u)).value.1.value.cost, amount);
  }

  lemma NearestIsUnique(x: real, n: int, m: int)
    requires NearestEven(x, n) && NearestEven(x, m)
    ensures n == m
  {
    RoundIsNearestEven(x, n);
    RoundIsNearestEven(x, m);
  }

  lemma NearestOfMicros(usd: real)
    ensures NearestEven(usd * MILLION, ToMicros(usd))
  {
    RoundIsNearestEven(usd * MILLION, ToMicros(usd));
  }
}
