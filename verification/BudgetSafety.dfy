/**
 What every unit of work keeps of the budget ledger, and so what holds after any interleaving
 of configuring, reserving, settling, forfeiting and releasing.
 */
module BudgetSafety {
  import opened Wrappers
  import opened Sums
  import opened Money
  import opened Budget

  // ---- one posting ------------------------------------------------------------------

  /** Writing one reservation row moves the sums of its project only. */
  lemma SumsAfterRow(l: Ledger, key: string, r: Reservation, q: int)
    requires key in l.reservations ==> l.reservations[key].projectId == r.projectId
    ensures var before := if key in l.reservations then HeldBy(q)(l.reservations[key]) else 0;
            MapSum(l.reservations[key := r], HeldBy(q)) == MapSum(l.reservations, HeldBy(q)) + HeldBy(q)(r) - before
    ensures var before := if key in l.reservations then OverrunBy(q)(l.reservations[key]) else 0;
            MapSum(l.reservations[key := r], OverrunBy(q)) ==
                MapSum(l.reservations, OverrunBy(q)) + OverrunBy(q)(r) - before
  {
    MapSumUpdate(l.reservations, HeldBy(q), key, r);
    MapSumUpdate(l.reservations, OverrunBy(q), key, r);
  }

  /** A reserved row is part of what its account holds, so the settle and release guards let it pass. */
  lemma HeldCoversRow(l: Ledger, key: string)
    requires Consistent(l) && key in l.reservations && l.reservations[key].status.Reserved?
    ensures 0 <= l.reservations[key].reserved <= l.accounts[l.reservations[key].projectId].reserved
  {
    var p := l.reservations[key].projectId;
    assert RowOk(l, l.reservations[key]) && Balanced(l, p);
    forall k | k in l.reservations
      ensures HeldBy(p)(l.reservations[k]) >= 0
    {
      assert RowOk(l, l.reservations[k]);
    }
    MapSumEntry(l.reservations, HeldBy(p), key);
  }

  /** Rows are judged by the tables they refer to. */
  lemma RowsKept(l: Ledger, m: Ledger)
    requires forall k :: k in l.reservations ==> RowOk(l, l.reservations[k])
    requires m.runProject == l.runProject && m.usage == l.usage && l.accounts.Keys <= m.accounts.Keys
    requires forall p :: p in l.accounts ==> m.accounts[p].id == l.accounts[p].id
    ensures forall k :: k in l.reservations ==> RowOk(m, l.reservations[k])
  {
    forall k | k in l.reservations
      ensures RowOk(m, l.reservations[k])
    {
      assert RowOk(l, l.reservations[k]);
    }
  }

  // ---- configure --------------------------------------------------------------------

  lemma NoRowsNoSums(l: Ledger, p: int)
    requires Consistent(l) && p !in l.accounts
    ensures MapSum(l.reservations, HeldBy(p)) == 0 && MapSum(l.reservations, OverrunBy(p)) == 0
    ensures MapSum(l.usage, SpentBy(p)) == 0
  {
    forall k | k in l.reservations
      ensures l.reservations[k].projectId != p
    {
      assert RowOk(l, l.reservations[k]);
    }
    forall id | id in l.usage
      ensures l.usage[id].projectId != p
    {
      var k :| k in l.reservations && l.reservations[k].id == id;
      assert RowOk(l, l.reservations[k]);
    }
    MapSumZero(l.reservations, HeldBy(p));
    MapSumZero(l.reservations, OverrunBy(p));
    MapSumZero(l.usage, SpentBy(p));
  }

  lemma OverrunsNonNegative(l: Ledger, p: int)
    ensures MapSum(l.reservations, OverrunBy(p)) >= 0
  {
    MapSumNonNegative(l.reservations, OverrunBy(p));
  }

  lemma ConfigureKeeps(l: Ledger, project: int, limit: real, newId: int)
    requires Consistent(l)
    ensures Configure(l, project, limit, newId).Ok? ==> Consistent(Configure(l, project, limit, newId).value)
  {
    hide RowOk;
    if Configure(l, project, limit, newId).Ok? {
      var m := Configure(l, project, limit, newId).value;
      RowsKept(l, m);
      OverrunsNonNegative(l, project);
      if project !in l.accounts {
        NoRowsNoSums(l, project);
      } else {
        assert Balanced(l, project);
      }
      forall p | p in m.accounts
        ensures Balanced(m, p)
      {
        if p != project {
          assert Balanced(l, p);
        }
      }
    }
  }

  // ---- reserve ----------------------------------------------------------------------

  /** `m` is `l` with one reservation row and the account of its project rewritten. */
  ghost predicate Posts(l: Ledger, m: Ledger, key: string, r: Reservation)
  {
    && m.projects == l.projects && m.runProject == l.runProject
    && r.projectId in l.accounts && m.accounts.Keys == l.accounts.Keys
    && (forall p :: p in l.accounts && p != r.projectId ==> m.accounts[p] == l.accounts[p])
    && m.accounts[r.projectId].id == l.accounts[r.projectId].id
    && m.accounts[r.projectId].limit == l.accounts[r.projectId].limit
    && m.reservations == l.reservations[key := r]
    && (key in l.reservations ==> l.reservations[key].projectId == r.projectId && l.reservations[key].id == r.id)
  }

  /** A row that does not touch usage: rows stay good when the new one is. */
  lemma PostRows(l: Ledger, m: Ledger, key: string, r: Reservation)
    requires Consistent(l) && Posts(l, m, key, r) && m.usage == l.usage && RowOk(m, r)
    requires key !in l.reservations ==> NewReservationId(l, r.id)
    ensures forall k :: k in m.reservations ==> RowOk(m, m.reservations[k])
    ensures IdsDistinct(m)
  {
    hide Balanced, UsageOwned;
    RowsKept(l, m);
  }

  lemma PostOwners(l: Ledger, m: Ledger, key: string, r: Reservation)
    requires Consistent(l) && Posts(l, m, key, r)
    requires forall id :: id in m.usage ==> id in l.usage || id == r.id
    ensures UsageOwned(m)
  {
    hide RowOk, Balanced;
    forall id | id in m.usage
      ensures exists k :: k in m.reservations && m.reservations[k].id == id
    {
      if id == r.id {
        assert m.reservations[key].id == id;
      } else {
        var k :| k in l.reservations && l.reservations[k].id == id;
        assert k in m.reservations && m.reservations[k].id == id;
      }
    }
  }

  /** The balances after a posting that does not touch usage. */
  lemma PostBalances(l: Ledger, m: Ledger, key: string, r: Reservation, p: int)
    requires Consistent(l) && Posts(l, m, key, r) && m.usage == l.usage && p in m.accounts
    requires var before := if key in l.reservations then HeldBy(r.projectId)(l.reservations[key]) else 0;
             && m.accounts[r.projectId].reserved == l.accounts[r.projectId].reserved + HeldBy(r.projectId)(r) - before
             && m.accounts[r.projectId].spent == l.accounts[r.projectId].spent
             && m.accounts[r.projectId].reserved + m.accounts[r.projectId].spent
                <= m.accounts[r.projectId].limit + MapSum(l.reservations, OverrunBy(r.projectId))
    requires Overrun(r) == 0 && (key in l.reservations ==> Overrun(l.reservations[key]) == 0)
    ensures Balanced(m, p)
  {
    hide RowOk;
    assert Balanced(l, p);
    SumsAfterRow(l, key, r, p);
  }

  lemma ReservePosts(l: Ledger, c: Claim, newId: int)
    requires Consistent(l) && NewReservationId(l, newId)
    requires Reserve(l, c, newId).Ok? && Reserve(l, c, newId).value.0 != l
    ensures var m := Reserve(l, c, newId).value.0;
            && c.idempotencyKey !in l.reservations && c.idempotencyKey in m.reservations && c.selection.Some?
            && var r := m.reservations[c.idempotencyKey];
               && Posts(l, m, c.idempotencyKey, r) && m.usage == l.usage
               && r.id == newId && r.reserved == ToMicros(c.selection.value.estimatedCost) >= 0 && r.status.Reserved?
               && RowOk(m, r)
               && m.accounts[r.projectId].reserved == l.accounts[r.projectId].reserved + r.reserved
               && m.accounts[r.projectId].spent == l.accounts[r.projectId].spent
               && r.reserved <= Available(l.accounts[r.projectId])
  {
  }

  lemma ReserveKeeps(l: Ledger, c: Claim, newId: int)
    requires Consistent(l) && NewReservationId(l, newId)
    ensures Reserve(l, c, newId).Ok? ==> Consistent(Reserve(l, c, newId).value.0)
  {
    if Reserve(l, c, newId).Ok? && Reserve(l, c, newId).value.0 != l {
      var m := Reserve(l, c, newId).value.0;
      ReservePosts(l, c, newId);
      hide Reserve, RowOk;
      var r := m.reservations[c.idempotencyKey];
      PostRows(l, m, c.idempotencyKey, r);
      PostOwners(l, m, c.idempotencyKey, r);
      forall p | p in m.accounts
        ensures Balanced(m, p)
      {
        OverrunsNonNegative(l, r.projectId);
        PostBalances(l, m, c.idempotencyKey, r, p);
      }
    }
  }

  // ---- settle and forfeit -----------------------------------------------------------

  /** The cost recorded by a finalisation. */
  function FinalCost(r: Reservation, s: Selection, u: TokenUsage, kind: UsageKind): int
  {
    if kind.Actual? then CostOf(s, u) else r.reserved
  }

  lemma CostNonNegative(s: Selection, u: TokenUsage)
    ensures CostOf(s, u) >= 0
  {
    TokenCostMonotone(s.profile.inputPrice, s.profile.outputPrice, u.input, u.output, u.input, u.output);
    MoneyNonNegative(TokenCost(s.profile.inputPrice, s.profile.outputPrice, u.input, u.output));
  }

  /**
   When finalising raises: exactly for a claim without a model selection, an unknown key, or a
   reservation that was released.  The account lookup, the two guards on amounts and the status
   guard of the reservation never fire.
   */
  lemma FinalizeRaisesExactly(l: Ledger, c: Claim, key: string, u: TokenUsage, kind: UsageKind)
    requires Consistent(l)
    ensures Finalize(l, c, key, u, kind).Err? <==>
              || c.selection.None?
              || key !in l.reservations
              || l.reservations[key].status.Released?
    ensures Finalize(l, c, key, u, kind).Err? ==>
              Finalize(l, c, key, u, kind).error ==
                if c.selection.None? then UsageRequired
                else if key !in l.reservations then ReservationNotFound
                else FinalizedWithoutUsage
  {
    if c.selection.Some? && key in l.reservations {
      var stored := l.reservations[key];
      assert RowOk(l, stored);
      CostNonNegative(c.selection.value, u);
      if stored.status.Reserved? {
        HeldCoversRow(l, key);
      }
    }
  }

  /** The ledger after a finalisation that did something. */
  lemma FinalizePosts(l: Ledger, c: Claim, key: string, u: TokenUsage, kind: UsageKind)
    requires Consistent(l) && c.selection.Some? && key in l.reservations && l.reservations[key].status.Reserved?
    ensures Finalize(l, c, key, u, kind).Ok?
    ensures var stored := l.reservations[key];
            var cost := FinalCost(stored, c.selection.value, u, kind);
            var m := Finalize(l, c, key, u, kind).value.0;
            && cost >= 0
            && stored.id !in l.usage && stored.projectId in l.accounts
            && m.reservations == l.reservations[key := stored.(status := FinalStatus(kind), actual := Some(cost))]
            && m.usage == l.usage[stored.id := UsageOf(stored, kind, u, cost, c.selection.value.profile)]
            && m.projects == l.projects && m.runProject == l.runProject
            && m.accounts == l.accounts[stored.projectId := m.accounts[stored.projectId]]
            && m.accounts[stored.projectId].id == l.accounts[stored.projectId].id
            && m.accounts[stored.projectId].limit == l.accounts[stored.projectId].limit
            && m.accounts[stored.projectId].reserved == l.accounts[stored.projectId].reserved - stored.reserved
            && m.accounts[stored.projectId].spent == l.accounts[stored.projectId].spent + cost
  {
    var stored := l.reservations[key];
    assert RowOk(l, stored);
    HeldCoversRow(l, key);
    CostNonNegative(c.selection.value, u);
  }

  lemma FinalizeBalances(l: Ledger, c: Claim, key: string, u: TokenUsage, kind: UsageKind, m: Ledger, p: int)
    requires Consistent(l) && c.selection.Some? && key in l.reservations && l.reservations[key].status.Reserved?
    requires Finalize(l, c, key, u, kind).Ok? && m == Finalize(l, c, key, u, kind).value.0 && p in m.accounts
    ensures Balanced(m, p)
  {
    hide Finalize, RowOk, IdsDistinct, UsageOwned, CostOf;
    FinalizePosts(l, c, key, u, kind);
    var stored := l.reservations[key];
    assert Balanced(l, p);
    SumsAfterRow(l, key, m.reservations[key], p);
    MapSumUpdate(l.usage, SpentBy(p), stored.id, m.usage[stored.id]);
  }

  lemma FinalizeOwnRow(l: Ledger, c: Claim, key: string, u: TokenUsage, kind: UsageKind, m: Ledger)
    requires Consistent(l) && c.selection.Some? && key in l.reservations && l.reservations[key].status.Reserved?
    requires Finalize(l, c, key, u, kind).Ok? && m == Finalize(l, c, key, u, kind).value.0
    ensures key in m.reservations && RowOk(m, m.reservations[key]) && Posts(l, m, key, m.reservations[key])
  {
    hide Finalize, Balanced, IdsDistinct, UsageOwned, CostOf;
    FinalizePosts(l, c, key, u, kind);
    assert RowOk(l, l.reservations[key]);
  }

  lemma FinalizeRows(l: Ledger, c: Claim, key: string, u: TokenUsage, kind: UsageKind, m: Ledger)
    requires Consistent(l) && c.selection.Some? && key in l.reservations && l.reservations[key].status.Reserved?
    requires Finalize(l, c, key, u, kind).Ok? && m == Finalize(l, c, key, u, kind).value.0
    ensures forall k :: k in m.reservations ==> RowOk(m, m.reservations[k])
    ensures IdsDistinct(m) && UsageOwned(m)
  {
    hide Finalize, Balanced, RowOk, CostOf, UsageOwned;
    FinalizePosts(l, c, key, u, kind);
    FinalizeOwnRow(l, c, key, u, kind, m);
    assert IdsDistinct(m) by { SameIds(l, m, key); }
    PostOwners(l, m, key, m.reservations[key]);
    forall k | k in m.reservations
      ensures RowOk(m, m.reservations[k])
    {
      FinalizeRow(l, m, key, k);
    }
  }

  lemma SameIds(l: Ledger, m: Ledger, key: string)
    requires IdsDistinct(l) && key in l.reservations && key in m.reservations && Posts(l, m, key, m.reservations[key])
    ensures IdsDistinct(m)
  {
  }

  lemma FinalizeRow(l: Ledger, m: Ledger, key: string, k: string)
    requires Consistent(l) && key in l.reservations && k in l.reservations && l.reservations[key].status.Reserved?
    requires key in m.reservations && Posts(l, m, key, m.reservations[key])
    requires m.usage.Keys == l.usage.Keys + {l.reservations[key].id}
    requires forall id :: id in l.usage ==> m.usage[id] == l.usage[id]
    requires RowOk(m, m.reservations[key]) && l.reservations[key].id !in l.usage
    ensures RowOk(m, m.reservations[k])
  {
    hide Balanced;
    assert RowOk(l, l.reservations[k]);
    if k != key {
      assert l.reservations[k].id != l.reservations[key].id;
    }
  }

  lemma FinalizeKeeps(l: Ledger, c: Claim, key: string, u: TokenUsage, kind: UsageKind)
    requires Consistent(l)
    ensures Finalize(l, c, key, u, kind).Ok? ==> Consistent(Finalize(l, c, key, u, kind).value.0)
  {
    if Finalize(l, c, key, u, kind).Ok? {
      var m := Finalize(l, c, key, u, kind).value.0;
      var stored := l.reservations[key];
      assert RowOk(l, stored);
      if stored.status.Reserved? {
        FinalizeRows(l, c, key, u, kind, m);
        forall p | p in m.accounts
          ensures Balanced(m, p)
        {
          FinalizeBalances(l, c, key, u, kind, m, p);
        }
      }
    }
  }

  // ---- release ----------------------------------------------------------------------

  lemma ReleaseOnePosts(l: Ledger, project: int, key: string)
    requires Consistent(l) && project in l.accounts && key in l.reservations
    requires l.reservations[key].status.Reserved? && l.reservations[key].projectId == project
    ensures ReleaseOne(l, project, key).Ok?
    ensures var m := ReleaseOne(l, project, key).value;
            var r := l.reservations[key].(status := Released, actual := Some(0));
            && Posts(l, m, key, r) && m.usage == l.usage && RowOk(m, r)
            && m.accounts[project].reserved == l.accounts[project].reserved - r.reserved
            && m.accounts[project].spent == l.accounts[project].spent
  {
    HeldCoversRow(l, key);
    assert RowOk(l, l.reservations[key]);
  }

  lemma ReleaseOneKeeps(l: Ledger, project: int, key: string)
    requires Consistent(l) && project in l.accounts && key in l.reservations
    requires l.reservations[key].status.Reserved? && l.reservations[key].projectId == project
    ensures ReleaseOne(l, project, key).Ok? && Consistent(ReleaseOne(l, project, key).value)
  {
    ReleaseOnePosts(l, project, key);
    var m := ReleaseOne(l, project, key).value;
    var r := m.reservations[key];
    hide ReleaseOne, RowOk;
    PostRows(l, m, key, r);
    PostOwners(l, m, key, r);
    forall p | p in m.accounts
      ensures Balanced(m, p)
    {
      assert Balanced(l, project);
      assert l.reservations[key].reserved >= 0 by { HeldCoversRow(l, key); }
      PostBalances(l, m, key, r, p);
    }
  }

  /** `m` is `l` with the reservations in `keys` released, and nothing else changed. */
  ghost predicate ReleasedExactly(l: Ledger, m: Ledger, keys: seq<string>)
  {
    && m.usage == l.usage && m.runProject == l.runProject && m.projects == l.projects
    && m.accounts.Keys == l.accounts.Keys
    && m.reservations.Keys == l.reservations.Keys
    && forall k :: k in l.reservations ==>
         m.reservations[k] ==
           if k in keys then l.reservations[k].(status := Released, actual := Some(0)) else l.reservations[k]
  }

  /** Between `l` and `m` the account of `project` gave back exactly what the run stopped holding. */
  ghost predicate GaveBack(l: Ledger, m: Ledger, project: int, run: int)
  {
    && project in l.accounts && project in m.accounts
    && l.accounts[project].reserved - m.accounts[project].reserved
       == MapSum(l.reservations, HeldFor(run)) - MapSum(m.reservations, HeldFor(run))
    && m.accounts[project].spent == l.accounts[project].spent
    && forall p :: p in l.accounts && p != project ==> p in m.accounts && m.accounts[p] == l.accounts[p]
  }

  lemma ReleaseOneGivesBack(l: Ledger, project: int, run: int, key: string)
    requires Consistent(l) && project in l.accounts && key in l.reservations
    requires HeldForRun(l.reservations[key], run) && l.reservations[key].projectId == project
    ensures ReleaseOne(l, project, key).Ok? && GaveBack(l, ReleaseOne(l, project, key).value, project, run)
    ensures ReleasedExactly(l, ReleaseOne(l, project, key).value, [key])
  {
    hide ReleaseOne, RowOk, Consistent, HeldBy, OverrunBy, SpentBy;
    ReleaseOnePosts(l, project, key);
    var m := ReleaseOne(l, project, key).value;
    MapSumUpdate(l.reservations, HeldFor(run), key, m.reservations[key]);
  }

  lemma ReleasedInTurn(l: Ledger, m: Ledger, n: Ledger, keys: seq<string>, project: int, run: int)
    requires keys != []
    requires ReleasedExactly(l, m, [keys[0]]) && ReleasedExactly(m, n, keys[1..])
    requires GaveBack(l, m, project, run) && GaveBack(m, n, project, run)
    ensures ReleasedExactly(l, n, keys) && GaveBack(l, n, project, run)
  {
    assert keys == [keys[0]] + keys[1..];
  }

  lemma GaveNothing(l: Ledger, project: int, run: int)
    requires project in l.accounts
    ensures GaveBack(l, l, project, run)
  {
  }

  lemma {:induction false} ReleaseListedKeeps(l: Ledger, project: int, run: int, keys: seq<string>)
    requires Consistent(l) && project in l.accounts
    requires forall k :: k in keys ==>
               k in l.reservations && HeldForRun(l.reservations[k], run) && l.reservations[k].projectId == project
    requires forall i, j :: 0 <= i < j < |keys| ==> keys[i] != keys[j]
    ensures ReleaseListed(l, project, keys).Ok?
    ensures var n := ReleaseListed(l, project, keys).value;
            Consistent(n) && ReleasedExactly(l, n, keys) && GaveBack(l, n, project, run)
    decreases |keys|
  {
    hide ReleaseOne, Consistent, GaveBack, Posts;
    if keys == [] {
      ReleasedNone(l);
      GaveNothing(l, project, run);
    } else {
      ReleaseOneKeeps(l, project, keys[0]);
      ReleaseOneGivesBack(l, project, run, keys[0]);
      var m := ReleaseOne(l, project, keys[0]).value;
      forall k | k in keys[1..]
        ensures k in m.reservations && m.reservations[k] == l.reservations[k]
      {
        var i :| 1 <= i < |keys| && keys[i] == k;
        assert keys[0] != keys[i];
      }
      ReleaseListedKeeps(m, project, run, keys[1..]);
      ReleasedInTurn(l, m, ReleaseListed(m, project, keys[1..]).value, keys, project, run);
    }
  }

  /** The reservations of a run belong to one account, the one of its project. */
  lemma RunHasOneAccount(l: Ledger, run: int, keys: seq<string>)
    requires Consistent(l) && Listing(l, run, keys) && keys != []
    ensures run in l.runProject && l.runProject[run] in l.accounts
    ensures forall k :: k in keys ==> l.reservations[k].projectId == l.runProject[run]
  {
    assert keys[0] in keys;
    forall k | k in keys
      ensures run in l.runProject && l.reservations[k].projectId == l.runProject[run] && l.runProject[run] in l.accounts
    {
      assert RowOk(l, l.reservations[k]);
    }
  }

  lemma NothingHeldAfter(l: Ledger, m: Ledger, run: int, keys: seq<string>)
    requires Listing(l, run, keys) && ReleasedExactly(l, m, keys)
    ensures forall k :: k in m.reservations ==> !HeldForRun(m.reservations[k], run)
    ensures MapSum(m.reservations, HeldFor(run)) == 0
  {
    forall k | k in m.reservations
      ensures !HeldForRun(m.reservations[k], run)
    {
      assert k in l.reservations;
    }
    MapSumZero(m.reservations, HeldFor(run));
  }

  /**
   Releasing a run never raises, whatever order its reservations are listed in; afterwards the
   run holds nothing, its account holds less by exactly what the run held, and no other
   reservation, account or usage record has changed.
   */
  lemma ReleaseRunKeeps(l: Ledger, run: int, keys: seq<string>)
    requires Consistent(l) && Listing(l, run, keys)
    ensures (forall k :: k in keys ==> k in l.reservations) && ReleaseRun(l, keys).Ok?
    ensures var m := ReleaseRun(l, keys).value;
            && Consistent(m) && ReleasedExactly(l, m, keys)
            && (forall k :: k in m.reservations ==> !HeldForRun(m.reservations[k], run))
            && MapSum(m.reservations, HeldFor(run)) == 0
            && (keys == [] ==> m == l)
            && (keys != [] ==> run in l.runProject && GaveBack(l, m, l.runProject[run], run))
  {
    hide Consistent, Listing, GaveBack, ReleasedExactly;
    if keys != [] {
      RunHasOneAccount(l, run, keys);
      ListingFacts(l, run, keys);
      ReleaseListedKeeps(l, l.runProject[run], run, keys);
    } else {
      ReleasedNone(l);
    }
    NothingHeldAfter(l, ReleaseRun(l, keys).value, run, keys);
  }

  lemma ReleasedNone(l: Ledger)
    ensures ReleasedExactly(l, l, [])
  {
  }

  lemma ListingFacts(l: Ledger, run: int, keys: seq<string>)
    requires Listing(l, run, keys)
    ensures forall k :: k in keys ==> k in l.reservations && HeldForRun(l.reservations[k], run)
    ensures forall i, j :: 0 <= i < j < |keys| ==> keys[i] != keys[j]
  {
  }
}
