/**
 The budget ledger: accounts with `reserved` and `spent`, reservations by idempotency key, and
 append-only usage records.  Each function is one unit of work; an `Err` leaves the ledger as
 it was.  Amounts are whole micro-USD.
 */
module Budget {
  import opened Wrappers
  import opened Sums
  import opened Money
  import opened Text

  datatype Account = Account(id: int, limit: int, reserved: int, spent: int, version: int)

  datatype ReservationStatus = Reserved | Settled | Forfeited | Released

  datatype Reservation = Reservation(
    id: int,
    accountId: int,
    projectId: int,
    runId: int,
    executionId: int,
    nodeKey: string,
    reserved: int,
    status: ReservationStatus,
    actual: Option<int>)

  datatype UsageKind = Actual | EstimatedForfeit

  datatype Usage = Usage(
    accountId: int,
    projectId: int,
    runId: int,
    executionId: int,
    nodeKey: string,
    kind: UsageKind,
    inputTokens: int,
    outputTokens: int,
    cost: int,
    profileKey: string,
    profileVersion: int)

  datatype Profile = Profile(key: string, version: int, inputPrice: Price, outputPrice: Price)

  datatype Selection = Selection(profile: Profile, estimatedCost: real)

  datatype Claim = Claim(
    idempotencyKey: string,
    runId: int,
    executionId: int,
    nodeKey: string,
    selection: Option<Selection>)

  datatype TokenUsage = TokenUsage(input: nat, output: nat)

  /** The tables; `runProject` is the project of a run through its request. */
  datatype Ledger = Ledger(
    projects: set<int>,
    runProject: map<int, int>,
    accounts: map<int, Account>,
    reservations: map<string, Reservation>,
    usage: map<int, Usage>)

  datatype BudgetError =
    | ProjectNotFound
    | RunNotFound
    | NegativeBudget
    | LimitBelowCommitments
    | NegativeReservation
    | BudgetLimitExceeded
    | EmptyReservationKeys
    | UsageRequired
    | ReservationNotFound
    | AccountNotFound
    | FinalizedWithoutUsage
    | NotReserved
    | NegativeActual
    | InvalidSettlement
    | InvalidRelease
    | SeveralProjects

  // ---- account and reservation ------------------------------------------------------

  function Available(a: Account): int
  {
    a.limit - a.reserved - a.spent
  }

  function SetLimit(a: Account, limit: real): Result<Account, BudgetError>
  {
    if ToMicros(limit) < a.reserved + a.spent then Err(LimitBelowCommitments)
    else Ok(a.(limit := ToMicros(limit), version := a.version + 1))
  }

  function ReserveAmount(a: Account, amount: int): Result<Account, BudgetError>
  {
    if amount < 0 then Err(NegativeReservation)
    else if amount > Available(a) then Err(BudgetLimitExceeded)
    else Ok(a.(reserved := a.reserved + amount, version := a.version + 1))
  }

  function SettleAmount(a: Account, reserved: int, actual: int): Result<Account, BudgetError>
  {
    if actual < 0 || reserved < 0 || reserved > a.reserved then Err(InvalidSettlement)
    else Ok(a.(reserved := a.reserved - reserved, spent := a.spent + actual, version := a.version + 1))
  }

  function ReleaseAmount(a: Account, amount: int): Result<Account, BudgetError>
  {
    if amount < 0 || amount > a.reserved then Err(InvalidRelease)
    else Ok(a.(reserved := a.reserved - amount, version := a.version + 1))
  }

  function FinalizeReservation(r: Reservation, status: ReservationStatus, actual: int): Result<Reservation, BudgetError>
  {
    if !r.status.Reserved? then Err(NotReserved)
    else if actual < 0 then Err(NegativeActual)
    else Ok(r.(status := status, actual := Some(actual)))
  }

  // ---- units of work ----------------------------------------------------------------

  function Configure(l: Ledger, project: int, limit: real, newId: int): Result<Ledger, BudgetError>
  {
    if project !in l.projects then Err(ProjectNotFound)
    else if project !in l.accounts then
      if ToMicros(limit) < 0 then Err(NegativeBudget)
      else Ok(l.(accounts := l.accounts[project := Account(newId, ToMicros(limit), 0, 0, 1)]))
    else
      match SetLimit(l.accounts[project], limit)
      case Err(x) => Err(x)
      case Ok(a) => Ok(l.(accounts := l.accounts[project := a]))
  }

  function Reserve(l: Ledger, c: Claim, newId: int): Result<(Ledger, Option<Reservation>), BudgetError>
  {
    if c.selection.None? then Ok((l, None))
    else if c.idempotencyKey in l.reservations then Ok((l, Some(l.reservations[c.idempotencyKey])))
    else if c.runId !in l.runProject then Err(RunNotFound)
    else
      var project := l.runProject[c.runId];
      if project !in l.accounts then Ok((l, None))
      else
        var amount := ToMicros(c.selection.value.estimatedCost);
        match ReserveAmount(l.accounts[project], amount)
        case Err(x) => Err(x)
        case Ok(a) =>
          if Strip(c.nodeKey) == [] || Strip(c.idempotencyKey) == [] then Err(EmptyReservationKeys)
          else
            var r := Reservation(newId, a.id, project, c.runId, c.executionId, c.nodeKey, amount, Reserved, None);
            Ok((l.(accounts := l.accounts[project := a], reservations := l.reservations[c.idempotencyKey := r]),
                Some(r)))
  }

  function CostOf(s: Selection, u: TokenUsage): int
  {
    ToMicros(TokenCost(s.profile.inputPrice, s.profile.outputPrice, u.input, u.output))
  }

  function FinalStatus(kind: UsageKind): ReservationStatus
  {
    match kind
    case Actual => Settled
    case EstimatedForfeit => Forfeited
  }

  function UsageOf(r: Reservation, kind: UsageKind, u: TokenUsage, cost: int, p: Profile): Usage
  {
    Usage(r.accountId, r.projectId, r.runId, r.executionId, r.nodeKey, kind, u.input, u.output, cost, p.key, p.version)
  }

  /** `_finalize`: `key` is the idempotency key of the reservation handed in. */
  function Finalize(
    l: Ledger, c: Claim, key: string, u: TokenUsage, kind: UsageKind): Result<(Ledger, Usage), BudgetError>
  {
    if c.selection.None? then Err(UsageRequired)
    else if key !in l.reservations then Err(ReservationNotFound)
    else
      var stored := l.reservations[key];
      if stored.projectId !in l.accounts then Err(AccountNotFound)
      else if stored.id in l.usage then Ok((l, l.usage[stored.id]))
      else if !stored.status.Reserved? then Err(FinalizedWithoutUsage)
      else
        var cost := if kind.Actual? then CostOf(c.selection.value, u) else stored.reserved;
        match FinalizeReservation(stored, FinalStatus(kind), cost)
        case Err(x) => Err(x)
        case Ok(r) =>
          match SettleAmount(l.accounts[stored.projectId], stored.reserved, cost)
          case Err(x) => Err(x)
          case Ok(a) =>
            var record := UsageOf(stored, kind, u, cost, c.selection.value.profile);
            Ok((l.(accounts := l.accounts[stored.projectId := a],
                   reservations := l.reservations[key := r],
                   usage := l.usage[stored.id := record]), record))
  }

  function Settle(
    l: Ledger, c: Claim, key: Option<string>, u: Option<TokenUsage>): Result<(Ledger, Option<Usage>), BudgetError>
  {
    if key.None? then Ok((l, None))
    else if u.None? then Err(UsageRequired)
    else
      match Finalize(l, c, key.value, u.value, Actual)
      case Err(x) => Err(x)
      case Ok(p) => Ok((p.0, Some(p.1)))
  }

  function Forfeit(l: Ledger, c: Claim, key: Option<string>): Result<(Ledger, Option<Usage>), BudgetError>
  {
    if key.None? then Ok((l, None))
    else
      match Finalize(l, c, key.value, TokenUsage(0, 0), EstimatedForfeit)
      case Err(x) => Err(x)
      case Ok(p) => Ok((p.0, Some(p.1)))
  }

  predicate HeldForRun(r: Reservation, run: int)
  {
    r.runId == run && r.status.Reserved?
  }

  /** What `list_reserved_by_run` may return: the reserved keys of the run, once each, in any order. */
  ghost predicate Listing(l: Ledger, run: int, keys: seq<string>)
  {
    && (forall k :: k in keys <==> k in l.reservations && HeldForRun(l.reservations[k], run))
    && (forall i, j :: 0 <= i < j < |keys| ==> keys[i] != keys[j])
  }

  /** One turn of the release loop. */
  function ReleaseOne(l: Ledger, project: int, key: string): Result<Ledger, BudgetError>
    requires project in l.accounts && key in l.reservations
  {
    var r := l.reservations[key];
    if r.projectId != project then Err(SeveralProjects)
    else
      match ReleaseAmount(l.accounts[project], r.reserved)
      case Err(x) => Err(x)
      case Ok(a) =>
        match FinalizeReservation(r, Released, 0)
        case Err(x) => Err(x)
        case Ok(r') => Ok(l.(accounts := l.accounts[project := a], reservations := l.reservations[key := r']))
  }

  function ReleaseListed(l: Ledger, project: int, keys: seq<string>): Result<Ledger, BudgetError>
    requires project in l.accounts && forall k :: k in keys ==> k in l.reservations
    decreases |keys|
  {
    if keys == [] then Ok(l)
    else
      match ReleaseOne(l, project, keys[0])
      case Err(x) => Err(x)
      case Ok(l') => ReleaseListed(l', project, keys[1..])
  }

  /** `release_run_reservations` over one listing of the run's reservations. */
  function ReleaseRun(l: Ledger, keys: seq<string>): Result<Ledger, BudgetError>
    requires forall k :: k in keys ==> k in l.reservations
  {
    if keys == [] then Ok(l)
    else
      var project := l.reservations[keys[0]].projectId;
      if project !in l.accounts then Err(AccountNotFound)
      else ReleaseListed(l, project, keys)
  }

  // ---- the invariant ----------------------------------------------------------------

  function HeldBy(project: int): Reservation -> int
  {
    (r: Reservation) => if r.projectId == project && r.status.Reserved? then r.reserved else 0
  }

  function HeldFor(run: int): Reservation -> int
  {
    (r: Reservation) => if HeldForRun(r, run) then r.reserved else 0
  }

  function SpentBy(project: int): Usage -> int
  {
    (u: Usage) => if u.projectId == project then u.cost else 0
  }

  /** How far a settlement went beyond its reservation. */
  function Overrun(r: Reservation): int
  {
    if r.status.Settled? && r.actual.Some? && r.actual.value > r.reserved then r.actual.value - r.reserved else 0
  }

  function OverrunBy(project: int): Reservation -> int
  {
    (r: Reservation) => if r.projectId == project then Overrun(r) else 0
  }

  ghost predicate RowOk(l: Ledger, r: Reservation)
  {
    && r.projectId in l.accounts
    && r.accountId == l.accounts[r.projectId].id
    && r.runId in l.runProject && l.runProject[r.runId] == r.projectId
    && r.reserved >= 0
    && (r.status.Reserved? <==> r.actual.None?)
    && (r.status.Settled? || r.status.Forfeited? <==> r.id in l.usage)
    && (r.status.Forfeited? ==> r.actual == Some(r.reserved))
    && (r.status.Released? ==> r.actual == Some(0))
    && (r.id in l.usage ==>
          var u := l.usage[r.id];
          && u.accountId == r.accountId && u.projectId == r.projectId && u.runId == r.runId
          && u.executionId == r.executionId && u.nodeKey == r.nodeKey
          && r.actual == Some(u.cost) && u.cost >= 0
          && r.status == FinalStatus(u.kind))
  }

  ghost predicate IdsDistinct(l: Ledger)
  {
    forall j, k :: j in l.reservations && k in l.reservations && l.reservations[j].id == l.reservations[k].id ==> j == k
  }

  /** The two balances of an account are the two sums, and the limit is only passed by overruns. */
  ghost predicate Balanced(l: Ledger, project: int)
    requires project in l.accounts
  {
    var a := l.accounts[project];
    && a.reserved == MapSum(l.reservations, HeldBy(project))
    && a.spent == MapSum(l.usage, SpentBy(project))
    && a.reserved + a.spent <= a.limit + MapSum(l.reservations, OverrunBy(project))
  }

  ghost predicate Consistent(l: Ledger)
  {
    && (forall k :: k in l.reservations ==> RowOk(l, l.reservations[k]))
    && IdsDistinct(l)
    && UsageOwned(l)
    && (forall p :: p in l.accounts ==> Balanced(l, p))
  }

  /** Every usage record belongs to a reservation. */
  ghost predicate UsageOwned(l: Ledger)
  {
    forall id :: id in l.usage ==> exists k :: k in l.reservations && l.reservations[k].id == id
  }

  ghost predicate NewReservationId(l: Ledger, id: int)
  {
    id !in l.usage && forall k :: k in l.reservations ==> l.reservations[k].id != id
  }
}
