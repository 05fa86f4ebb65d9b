/**
 The budget aggregates and service in their own form: account and reservation objects are
 loaded from rows, changed in place and saved; a unit of work that raises leaves the tables
 as they were.  Every method is proved to do what the function of the same name in `Budget` says.
 */
module BudgetService {
  import opened Wrappers
  import opened Money
  import opened Text
  import opened Budget
  import opened BudgetSafety

  class BudgetAccount {
    const id: int
    var limit: int
    var reserved: int
    var spent: int
    var version: int

    ghost function State(): Account
      reads this
    {
      Account(id, limit, reserved, spent, version)
    }

    constructor (row: Account)
      ensures State() == row
    {
      id, limit, reserved, spent, version := row.id, row.limit, row.reserved, row.spent, row.version;
    }

    method Row() returns (row: Account)
      ensures row == State()
    {
      row := Account(id, limit, reserved, spent, version);
    }

    method ChangeLimit(usd: real) returns (error: Option<BudgetError>)
      modifies this
      ensures match SetLimit(old(State()), usd)
              case Ok(a) => error.None? && State() == a
              case Err(x) => error == Some(x) && State() == old(State())
    {
      var value := ToMicros(usd);
      if value < reserved + spent {
        return Some(LimitBelowCommitments);
      }
      limit := value;
      version := version + 1;
      return None;
    }

    method Hold(amount: int) returns (error: Option<BudgetError>)
      modifies this
      ensures match ReserveAmount(old(State()), amount)
              case Ok(a) => error.None? && State() == a
              case Err(x) => error == Some(x) && State() == old(State())
    {
      if amount < 0 {
        return Some(NegativeReservation);
      }
      if amount > limit - reserved - spent {
        return Some(BudgetLimitExceeded);
      }
      reserved := reserved + amount;
      version := version + 1;
      return None;
    }

    method Settle(held: int, actual: int) returns (error: Option<BudgetError>)
      modifies this
      ensures match SettleAmount(old(State()), held, actual)
              case Ok(a) => error.None? && State() == a
              case Err(x) => error == Some(x) && State() == old(State())
    {
      if actual < 0 || held < 0 || held > reserved {
        return Some(InvalidSettlement);
      }
      reserved := reserved - held;
      spent := spent + actual;
      version := version + 1;
      return None;
    }

    method Release(amount: int) returns (error: Option<BudgetError>)
      modifies this
      ensures match ReleaseAmount(old(State()), amount)
              case Ok(a) => error.None? && State() == a
              case Err(x) => error == Some(x) && State() == old(State())
    {
      if amount < 0 || amount > reserved {
        return Some(InvalidRelease);
      }
      reserved := reserved - amount;
      version := version + 1;
      return None;
    }
  }

  class BudgetReservation {
    var row: Reservation

    constructor (row: Reservation)
      ensures this.row == row
    {
      this.row := row;
    }

    method Close(status: ReservationStatus, actual: int) returns (error: Option<BudgetError>)
      modifies this
      ensures match FinalizeReservation(old(row), status, actual)
              case Ok(r) => error.None? && row == r
              case Err(x) => error == Some(x) && row == old(row)
    {
      if !row.status.Reserved? {
        return Some(NotReserved);
      }
      if actual < 0 {
        return Some(NegativeActual);
      }
      row := row.(status := status, actual := Some(actual));
      return None;
    }
  }

  /** The tables behind a unit of work, and the use cases over them. */
  class BudgetTables {
    var projects: set<int>
    var runProject: map<int, int>
    var accounts: map<int, Account>
    var reservations: map<string, Reservation>
    var usage: map<int, Usage>

    ghost function State(): Ledger
      reads this
    {
      Ledger(projects, runProject, accounts, reservations, usage)
    }

    constructor ()
      ensures State() == Ledger({}, map[], map[], map[], map[])
    {
      projects, runProject, accounts, reservations, usage := {}, map[], map[], map[], map[];
    }

    method ConfigureBudget(project: int, usd: real, newId: int) returns (error: Option<BudgetError>)
      modifies this
      ensures match Configure(old(State()), project, usd, newId)
              case Ok(l) => error.None? && State() == l
              case Err(x) => error == Some(x) && State() == old(State())
    {
      if project !in projects {
        return Some(ProjectNotFound);
      }
      if project !in accounts {
        if ToMicros(usd) < 0 {
          return Some(NegativeBudget);
        }
        accounts := accounts[project := Account(newId, ToMicros(usd), 0, 0, 1)];
        return None;
      }
      var account := new BudgetAccount(accounts[project]);
      error := account.ChangeLimit(usd);
      if error.None? {
        var row := account.Row();
        accounts := accounts[project := row];
      }
    }

    method ReserveBudget(c: Claim, newId: int) returns (r: Result<Option<Reservation>, BudgetError>)
      modifies this
      ensures match Reserve(old(State()), c, newId)
              case Ok(p) => r == Ok(p.1) && State() == p.0
              case Err(x) => r == Err(x) && State() == old(State())
    {
      if c.selection.None? {
        return Ok(None);
      }
      if c.idempotencyKey in reservations {
        return Ok(Some(reservations[c.idempotencyKey]));
      }
      if c.runId !in runProject {
        return Err(RunNotFound);
      }
      var project := runProject[c.runId];
      if project !in accounts {
        return Ok(None);
      }
      var amount := ToMicros(c.selection.value.estimatedCost);
      var account := new BudgetAccount(accounts[project]);
      var error := account.Hold(amount);
      if error.Some? {
        return Err(error.value);
      }
      if Strip(c.nodeKey) == [] || Strip(c.idempotencyKey) == [] {
        return Err(EmptyReservationKeys);
      }
      var reservation :=
        Reservation(newId, account.id, project, c.runId, c.executionId, c.nodeKey, amount, Reserved, None);
      var row := account.Row();
      accounts := accounts[project := row];
      reservations := reservations[c.idempotencyKey := reservation];
      return Ok(Some(reservation));
    }

    method FinalizeBudget(c: Claim, key: string, u: TokenUsage, kind: UsageKind) returns (r: Result<Usage, BudgetError>)
      modifies this
      ensures match Finalize(old(State()), c, key, u, kind)
              case Ok(p) => r == Ok(p.1) && State() == p.0
              case Err(x) => r == Err(x) && State() == old(State())
    {
      if c.selection.None? {
        return Err(UsageRequired);
      }
      if key !in reservations {
        return Err(ReservationNotFound);
      }
      var stored := new BudgetReservation(reservations[key]);
      var row := stored.row;
      if row.projectId !in accounts {
        return Err(AccountNotFound);
      }
      if row.id in usage {
        return Ok(usage[row.id]);
      }
      if !row.status.Reserved? {
        return Err(FinalizedWithoutUsage);
      }
      var cost := row.reserved;
      if kind.Actual? {
        var profile := c.selection.value.profile;
        cost := ToMicros(TokenCost(profile.inputPrice, profile.outputPrice, u.input, u.output));
      }
      assert cost == FinalCost(row, c.selection.value, u, kind);
      var error := stored.Close(FinalStatus(kind), cost);
      if error.Some? {
        return Err(error.value);
      }
      var account := new BudgetAccount(accounts[row.projectId]);
      error := account.Settle(row.reserved, cost);
      if error.Some? {
        return Err(error.value);
      }
      var record := UsageOf(row, kind, u, cost, c.selection.value.profile);
      var saved := account.Row();
      accounts := accounts[row.projectId := saved];
      reservations := reservations[key := stored.row];
      usage := usage[row.id := record];
      return Ok(record);
    }

    method SettleBudget(c: Claim, key: Option<string>, u: Option<TokenUsage>)
      returns (r: Result<Option<Usage>, BudgetError>)
      modifies this
      ensures match Budget.Settle(old(State()), c, key, u)
              case Ok(p) => r == Ok(p.1) && State() == p.0
              case Err(x) => r == Err(x) && State() == old(State())
    {
      if key.None? {
        return Ok(None);
      }
      if u.None? {
        return Err(UsageRequired);
      }
      var done := FinalizeBudget(c, key.value, u.value, Actual);
      match done {
        case Ok(record) => return Ok(Some(record));
        case Err(x) => return Err(x);
      }
    }

    method ForfeitBudget(c: Claim, key: Option<string>) returns (r: Result<Option<Usage>, BudgetError>)
      modifies this
      ensures match Forfeit(old(State()), c, key)
              case Ok(p) => r == Ok(p.1) && State() == p.0
              case Err(x) => r == Err(x) && State() == old(State())
    {
      if key.None? {
        return Ok(None);
      }
      var done := FinalizeBudget(c, key.value, TokenUsage(0, 0), EstimatedForfeit);
      match done {
        case Ok(record) => return Ok(Some(record));
        case Err(x) => return Err(x);
      }
    }

    /** The loop of `release_run_reservations`: each listed reservation against one loaded account. */
    method ReleaseLoop(project: int, keys: seq<string>)
      requires project in accounts && forall k :: k in keys ==> k in reservations
      requires ReleaseListed(State(), project, keys).Ok?
      modifies this
      ensures ReleaseListed(old(State()), project, keys) == Ok(State())
    {
      hide ReleaseListed, ReleaseOne;
      var account := new BudgetAccount(accounts[project]);
      ghost var before := State();
      ghost var current := before;
      assert keys[0..] == keys;
      var i := 0;
      while i < |keys|
        invariant 0 <= i <= |keys|
        invariant current ==
                    Ledger(projects, runProject, before.accounts[project := account.State()], reservations, usage)
        invariant accounts == before.accounts && project in accounts
        invariant forall k :: k in keys ==> k in reservations
        invariant ReleaseListed(before, project, keys) == ReleaseListed(current, project, keys[i..])
        invariant ReleaseListed(before, project, keys).Ok?
      {
        var key := keys[i];
        ReleaseTurn(current, project, keys, i);
        var one := new BudgetReservation(reservations[key]);
        var error := account.Release(one.row.reserved);
        assert error.None?;
        error := one.Close(Released, 0);
        assert error.None?;
        reservations := reservations[key := one.row];
        current := ReleaseOne(current, project, key).value;
        i := i + 1;
      }
      var row := account.Row();
      accounts := accounts[project := row];
      ReleaseNone(current, project, keys[i..]);
    }

    /** `release_run_reservations`: in a consistent ledger no turn of its loop raises. */
    method ReleaseRunReservations(run: int, keys: seq<string>) returns (released: nat)
      requires Consistent(State()) && Listing(State(), run, keys)
      modifies this
      ensures ReleaseRun(old(State()), keys) == Ok(State())
      ensures Consistent(State()) && released == |keys|
    {
      ReleaseRunKeeps(State(), run, keys);
      hide Consistent, Listing, ReleaseListed, ReleasedExactly, GaveBack;
      if keys != [] {
        RunHasOneAccount(State(), run, keys);
        ReleaseLoop(reservations[keys[0]].projectId, keys);
      }
      return |keys|;
    }
  }

  /** One turn of the loop, in terms of the recursive specification. */
  lemma ReleaseTurn(l: Ledger, project: int, keys: seq<string>, i: nat)
    requires project in l.accounts && i < |keys| && forall k :: k in keys ==> k in l.reservations
    requires ReleaseListed(l, project, keys[i..]).Ok?
    ensures var r := l.reservations[keys[i]];
            && ReleaseAmount(l.accounts[project], r.reserved).Ok? && FinalizeReservation(r, Released, 0).Ok?
            && var m := l.(accounts := l.accounts[project := ReleaseAmount(l.accounts[project], r.reserved).value],
                           reservations := l.reservations[keys[i] := FinalizeReservation(r, Released, 0).value]);
               && ReleaseOne(l, project, keys[i]) == Ok(m)
               && ReleaseListed(l, project, keys[i..]) == ReleaseListed(m, project, keys[i + 1..])
  {
    assert keys[i..][0] == keys[i] && keys[i..][1..] == keys[i + 1..];
  }

  lemma ReleaseNone(l: Ledger, project: int, keys: seq<string>)
    requires project in l.accounts && keys == []
    ensures ReleaseListed(l, project, keys) == Ok(l)
  {
  }
}
