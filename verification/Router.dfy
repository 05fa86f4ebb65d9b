/** Deterministic model routing: the least feasible profile by tier, cost, key and newest version. */
module Router {
  import opened Wrappers
  import opened Ordering
  import opened Money

  datatype Tier = Economy | Balanced | Advanced

  datatype Level = Low | Medium | High | Critical

  datatype Profile = Profile(
    key: string,
    version: nat,
    tier: Tier,
    contextWindow: nat,
    inputPrice: Price,
    outputPrice: Price,
    enabled: bool,
    capabilities: set<string>,
    executorKeys: set<string>)

  datatype Request = Request(
    complexity: Level,
    risk: Level,
    quality: Level,
    capabilities: set<string>,
    inputTokens: nat,
    maxOutputTokens: nat,
    maxCost: Option<real>)

  datatype Selection = Selection(profile: Profile, requiredTier: Tier, estimatedCost: real)

  datatype RoutingError = NoModelProfile

  function TierRank(t: Tier): nat
  {
    match t case Economy => 0 case Balanced => 1 case Advanced => 2
  }

  function LevelRank(l: Level): nat
  {
    match l case Low => 0 case Medium => 1 case High => 2 case Critical => 2
  }

  function Larger(a: nat, b: nat): nat
  {
    if a >= b then a else b
  }

  /** `required_tier` */
  function RequiredTier(r: Request): (t: Tier)
    ensures TierRank(t) >= LevelRank(r.complexity) && TierRank(t) >= LevelRank(r.risk)
    ensures TierRank(t) >= LevelRank(r.quality)
    ensures TierRank(t) in {LevelRank(r.complexity), LevelRank(r.risk), LevelRank(r.quality)}
  {
    [Economy, Balanced, Advanced][Larger(LevelRank(r.complexity), Larger(LevelRank(r.risk), LevelRank(r.quality)))]
  }

  /** `estimate_cost`: the price formula settled usage is charged with. */
  function EstimateCost(p: Profile, r: Request): real
  {
    TokenCost(p.inputPrice, p.outputPrice, r.inputTokens, r.maxOutputTokens)
  }

  predicate Feasible(p: Profile, r: Request, executor: string)
  {
    && p.enabled
    && TierRank(p.tier) >= TierRank(RequiredTier(r))
    && (p.executorKeys == {} || executor in p.executorKeys)
    && r.capabilities <= p.capabilities
    && p.contextWindow >= r.inputTokens + r.maxOutputTokens
    && (r.maxCost.Some? ==> EstimateCost(p, r) <= r.maxCost.value)
  }

  // ---- the selection key ------------------------------------------------------------

  datatype SelectionKey = SelectionKey(tier: nat, cost: real, key: string, version: nat)

  function KeyOf(p: Profile, r: Request): SelectionKey
  {
    SelectionKey(TierRank(p.tier), EstimateCost(p, r), p.key, p.version)
  }

  /** Tier, then cost, then key, then the newer version. */
  predicate KeyLe(a: SelectionKey, b: SelectionKey)
  {
    if a.tier != b.tier then a.tier < b.tier
    else if a.cost != b.cost then a.cost < b.cost
    else if a.key != b.key then StringLe(a.key, b.key)
    else a.version >= b.version
  }

  lemma KeyOrder()
    ensures TotalOrder(KeyLe)
  {
    StringOrder();
    forall a, b
      ensures KeyLe(a, b) || KeyLe(b, a)
    {
      assert StringLe(a.key, b.key) || StringLe(b.key, a.key);
    }
  }

  // ---- the choice -------------------------------------------------------------------

  /** The declarative answer: feasible, and no feasible profile has a smaller key. */
  ghost predicate IsBest(p: Profile, profiles: seq<Profile>, r: Request, executor: string)
  {
    && p in profiles && Feasible(p, r, executor)
    && forall q :: q in profiles && Feasible(q, r, executor) ==> KeyLe(KeyOf(p, r), KeyOf(q, r))
  }

  /** Keys and versions identify the profiles of a catalog. */
  ghost predicate UniqueVersions(profiles: seq<Profile>)
  {
    forall i, j :: 0 <= i < j < |profiles| ==>
        profiles[i].key != profiles[j].key || profiles[i].version != profiles[j].version
  }

  ghost predicate Routable(profiles: seq<Profile>, r: Request, executor: string)
  {
    exists p :: p in profiles && Feasible(p, r, executor)
  }

  lemma BestIsUnique(p: Profile, q: Profile, profiles: seq<Profile>, r: Request, executor: string)
    requires UniqueVersions(profiles) && IsBest(p, profiles, r, executor) && IsBest(q, profiles, r, executor)
    ensures p == q
  {
    KeyOrder();
    var i :| 0 <= i < |profiles| && profiles[i] == p;
    var j :| 0 <= j < |profiles| && profiles[j] == q;
    assert KeyOf(p, r) == KeyOf(q, r);
    assert i == j;
  }

  /** The tier a request needs: the advanced one for any high or critical level, the economy one for low levels only. */
  lemma RequiredTierExactly(r: Request)
    ensures RequiredTier(r).Advanced? <==>
              || r.complexity.High? || r.complexity.Critical? || r.risk.High? || r.risk.Critical?
              || r.quality.High? || r.quality.Critical?
    ensures RequiredTier(r).Economy? <==> r.complexity.Low? && r.risk.Low? && r.quality.Low?
  {
  }

  /** What the estimated tokens cost at the prices of a profile, in USD. */
  function PriceOf(p: Profile, r: Request): real
  {
    (r.inputTokens as real * p.inputPrice + r.maxOutputTokens as real * p.outputPrice) / 1000000.0
  }

  /** The profile may serve the request. */
  predicate Suits(p: Profile, r: Request, executor: string)
  {
    && p.enabled
    && (RequiredTier(r).Advanced? ==> p.tier.Advanced?) && (RequiredTier(r).Balanced? ==> !p.tier.Economy?)
    && (p.executorKeys != {} ==> executor in p.executorKeys)
    && (forall x :: x in r.capabilities ==> x in p.capabilities)
    && r.inputTokens + r.maxOutputTokens <= p.contextWindow
    && (r.maxCost.Some? ==> PriceOf(p, r) <= r.maxCost.value)
  }

  /** `p` is preferred to `q`: by the lower tier, then the lower price, then the key, then the newer version. */
  predicate Preferred(p: Profile, q: Profile, r: Request)
  {
    if p.tier != q.tier then p.tier.Economy? || q.tier.Advanced?
    else if PriceOf(p, r) != PriceOf(q, r) then PriceOf(p, r) < PriceOf(q, r)
    else if p.key != q.key then StringLe(p.key, q.key)
    else p.version >= q.version
  }

  /** The answer in elementary terms: a suitable profile that is preferred to every other suitable one. */
  lemma BestExactly(p: Profile, profiles: seq<Profile>, r: Request, executor: string)
    ensures IsBest(p, profiles, r, executor) <==>
              && p in profiles && Suits(p, r, executor)
              && forall q :: q in profiles && Suits(q, r, executor) ==> Preferred(p, q, r)
    ensures Routable(profiles, r, executor) <==> exists q :: q in profiles && Suits(q, r, executor)
  {
    hide EstimateCost, PriceOf, RequiredTier, StringLe;
    forall q: Profile
      ensures Feasible(q, r, executor) <==> Suits(q, r, executor)
      ensures KeyLe(KeyOf(p, r), KeyOf(q, r)) <==> Preferred(p, q, r)
    {
      SameCost(p, r);
      SameCost(q, r);
    }
  }

  lemma SameCost(p: Profile, r: Request)
    ensures EstimateCost(p, r) == PriceOf(p, r)
  {
  }

  /**
   `route`: collect the feasible profiles with their costs, then take the first of the least ones.
   */
  method Route(profiles: seq<Profile>, r: Request, executor: string) returns (selected: Result<Selection, RoutingError>)
    ensures selected.Ok? <==> Routable(profiles, r, executor)
    ensures selected.Ok? ==>
              && IsBest(selected.value.profile, profiles, r, executor)
              && selected.value.requiredTier == RequiredTier(r)
              && selected.value.estimatedCost == EstimateCost(selected.value.profile, r)
  {
    hide KeyLe, KeyOf, StringLe, EstimateCost;
    var candidates: seq<(Profile, real)> := [];
    for n := 0 to |profiles|
      invariant forall i :: 0 <= i < |candidates| ==>
                  && candidates[i].0 in profiles[..n] && Feasible(candidates[i].0, r, executor)
                  && candidates[i].1 == EstimateCost(candidates[i].0, r)
      invariant forall p :: p in profiles[..n] && Feasible(p, r, executor) ==> (p, EstimateCost(p, r)) in candidates
    {
      var profile := profiles[n];
      assert profiles[..n + 1] == profiles[..n] + [profile];
      if !profile.enabled {
        continue;
      }
      if TierRank(profile.tier) < TierRank(RequiredTier(r)) {
        continue;
      }
      if profile.executorKeys != {} && executor !in profile.executorKeys {
        continue;
      }
      if !(r.capabilities <= profile.capabilities) {
        continue;
      }
      if profile.contextWindow < r.inputTokens + r.maxOutputTokens {
        continue;
      }
      var cost := EstimateCost(profile, r);
      if r.maxCost.Some? && cost > r.maxCost.value {
        continue;
      }
      candidates := candidates + [(profile, cost)];
    }
    assert profiles[..|profiles|] == profiles;
    if candidates == [] {
      return Err(NoModelProfile);
    }
    assert candidates[0].0 in profiles && Feasible(candidates[0].0, r, executor);
    var best := Least(candidates, r);
    assert best in candidates;
    return Ok(Selection(best.0, RequiredTier(r), best.1));
  }

  /** `min` with the selection key. */
  method Least(candidates: seq<(Profile, real)>, r: Request) returns (best: (Profile, real))
    requires candidates != []
    requires forall i :: 0 <= i < |candidates| ==> candidates[i].1 == EstimateCost(candidates[i].0, r)
    ensures best in candidates
    ensures forall c :: c in candidates ==> KeyLe(KeyOf(best.0, r), KeyOf(c.0, r))
  {
    hide KeyLe, EstimateCost;
    KeyOrder();
    best := candidates[0];
    for i := 1 to |candidates|
      invariant best in candidates
      invariant forall j :: 0 <= j < i ==> KeyLe(KeyOf(best.0, r), KeyOf(candidates[j].0, r))
    {
      var c := candidates[i];
      assert KeyOf(c.0, r) == SelectionKey(TierRank(c.0.tier), c.1, c.0.key, c.0.version);
      if !KeyLe(KeyOf(best.0, r), KeyOf(c.0, r)) {
        best := c;
      }
    }
  }

  // ---- properties of the answer -----------------------------------------------------

  /** The order of the catalog does not matter. */
  lemma OrderBlind(a: seq<Profile>, b: seq<Profile>, r: Request, executor: string, p: Profile, q: Profile)
    requires multiset(a) == multiset(b)
    ensures Routable(a, r, executor) <==> Routable(b, r, executor)
    ensures UniqueVersions(a) && IsBest(p, a, r, executor) && IsBest(q, b, r, executor) ==> p == q
  {
    forall x
      ensures x in a <==> x in b
    {
      assert x in a <==> x in multiset(a);
      assert x in b <==> x in multiset(b);
    }
    if UniqueVersions(a) && IsBest(p, a, r, executor) && IsBest(q, b, r, executor) {
      BestIsUnique(p, q, a, r, executor);
    }
  }

  /** Dropping any profiles other than the selected one leaves the answer as it is. */
  lemma OthersDoNotMatter(
    profiles: seq<Profile>, fewer: seq<Profile>, r: Request, executor: string, p: Profile, q: Profile)
    requires UniqueVersions(profiles) && forall x :: x in fewer ==> x in profiles
    requires IsBest(p, profiles, r, executor) && p in fewer
    ensures IsBest(q, fewer, r, executor) <==> q == p
  {
    if IsBest(q, fewer, r, executor) {
      assert KeyLe(KeyOf(q, r), KeyOf(p, r));
      KeyOrder();
      assert IsBest(q, profiles, r, executor) by {
        forall x | x in profiles && Feasible(x, r, executor)
          ensures KeyLe(KeyOf(q, r), KeyOf(x, r))
        {
          assert KeyLe(KeyOf(p, r), KeyOf(x, r));
        }
      }
      BestIsUnique(p, q, profiles, r, executor);
    }
  }

  /** `s` asks for at least as much as `r`, with the same tokens. */
  predicate Stricter(r: Request, s: Request)
  {
    && LevelRank(r.complexity) <= LevelRank(s.complexity)
    && LevelRank(r.risk) <= LevelRank(s.risk)
    && LevelRank(r.quality) <= LevelRank(s.quality)
    && r.capabilities <= s.capabilities
    && r.inputTokens == s.inputTokens && r.maxOutputTokens == s.maxOutputTokens
    && (r.maxCost.Some? ==> s.maxCost.Some? && s.maxCost.value <= r.maxCost.value)
  }

  lemma StricterFeasible(p: Profile, r: Request, s: Request, executor: string)
    requires Stricter(r, s) && Feasible(p, s, executor)
    ensures Feasible(p, r, executor) && KeyOf(p, r) == KeyOf(p, s)
  {
    assert TierRank(RequiredTier(r)) <= TierRank(RequiredTier(s));
  }

  /** Asking for more never makes a request routable, nor its selection key smaller. */
  lemma StricterIsNoBetter(profiles: seq<Profile>, r: Request, s: Request, executor: string, p: Profile, q: Profile)
    requires Stricter(r, s)
    ensures Routable(profiles, s, executor) ==> Routable(profiles, r, executor)
    ensures IsBest(p, profiles, r, executor) && IsBest(q, profiles, s, executor) ==> KeyLe(KeyOf(p, r), KeyOf(q, s))
  {
    hide KeyLe, KeyOf;
    if Routable(profiles, s, executor) {
      var x :| x in profiles && Feasible(x, s, executor);
      StricterFeasible(x, r, s, executor);
      assert Routable(profiles, r, executor);
    }
    if IsBest(p, profiles, r, executor) && IsBest(q, profiles, s, executor) {
      StricterFeasible(q, r, s, executor);
    }
  }

  // ---- the cost cap and the reservation ---------------------------------------------

  /** A cap in whole micro-USD also bounds the amount that is reserved. */
  lemma CapBoundsReservation(p: Profile, r: Request, executor: string, cap: int)
    requires Feasible(p, r, executor) && r.maxCost == Some(cap as real / MILLION)
    ensures 0 <= ToMicros(EstimateCost(p, r)) <= cap
  {
    TokenCostMonotone(p.inputPrice, p.outputPrice, 0, 0, r.inputTokens, r.maxOutputTokens);
    MoneyNonNegative(EstimateCost(p, r));
    MoneyMonotone(EstimateCost(p, r), r.maxCost.value);
    MoneyOfMicros(cap);
  }

  const PRICE_LIMIT: int := 1_000_000_000_000_000_000

  /** The price in millionths of a USD per million tokens. */
  function PriceUnits(price: Price): (units: nat)
    ensures units as real <= price * MILLION < units as real + 1.0
  {
    assert price * MILLION >= 0.0;
    (price * MILLION).Floor
  }

  /** A column of eighteen digits, six of them decimals, holds the price. */
  predicate IsStored(price: Price)
  {
    PriceUnits(price) as real == price * MILLION && PriceUnits(price) < PRICE_LIMIT
  }

  predicate IsStoredProfile(p: Profile)
  {
    IsStored(p.inputPrice) && IsStored(p.outputPrice)
  }

  /** The amount cut down to twelve decimals. */
  function Cut(usd: real): real
  {
    (usd * MILLION * MILLION).Floor as real / MILLION / MILLION
  }

  /** What stored profiles cost has twelve decimals. */
  lemma StoredCost(p: Profile, r: Request)
    requires IsStoredProfile(p)
    ensures EstimateCost(p, r) * MILLION * MILLION ==
            (r.inputTokens * PriceUnits(p.inputPrice) + r.maxOutputTokens * PriceUnits(p.outputPrice)) as real
  {
    var a, b := r.inputTokens, r.maxOutputTokens;
    var x, y := PriceUnits(p.inputPrice), PriceUnits(p.outputPrice);
    assert EstimateCost(p, r) * MILLION == a as real * p.inputPrice + b as real * p.outputPrice;
    assert a as real * p.inputPrice * MILLION == a as real * x as real == (a * x) as real;
    assert b as real * p.outputPrice * MILLION == b as real * y as real == (b * y) as real;
  }

  lemma CutBounds(cost: real, units: int, cap: real)
    requires cost * MILLION * MILLION == units as real && cost <= cap
    ensures cost <= Cut(cap) <= cap
  {
    assert units as real <= cap * MILLION * MILLION;
    assert units <= (cap * MILLION * MILLION).Floor;
  }

  lemma StoredPriceOf(units: nat) returns (price: Price)
    requires units < PRICE_LIMIT
    ensures IsStored(price) && PriceUnits(price) == units
  {
    price := units as real / MILLION;
    assert price * MILLION == units as real;
  }

  /** Every amount of twelve decimals is what some stored profile costs for some request. */
  lemma CostsTheCut(cap: real, executor: string) returns (p: Profile, r: Request)
    requires cap >= 0.0
    ensures IsStoredProfile(p) && r.maxCost == Some(cap) && r.maxOutputTokens >= 1
    ensures Feasible(p, r, executor) && EstimateCost(p, r) == Cut(cap)
  {
    var units := (cap * MILLION * MILLION).Floor;
    var most := PRICE_LIMIT - 1;
    var inputPrice := StoredPriceOf(most);
    var outputPrice := StoredPriceOf(units % most);
    r := Request(Low, Low, Low, {}, units / most, 1, Some(cap));
    p := Profile("p", 1, Advanced, units / most + 1, inputPrice, outputPrice, true, {}, {});
    StoredCost(p, r);
    assert units == units / most * most + units % most;
    assert EstimateCost(p, r) * MILLION * MILLION == units as real;
    CutBounds(EstimateCost(p, r), units, cap);
  }

  /**
   A cap bounds the reservations of everything that stored profiles are chosen for exactly when rounding does
   not raise the cap, cut down to twelve decimals, above itself.
   */
  lemma CapBoundsExactly(cap: real, executor: string)
    requires cap >= 0.0
    ensures (forall p: Profile, r: Request ::
               IsStoredProfile(p) && r.maxOutputTokens >= 1 && r.maxCost == Some(cap) && Feasible(p, r, executor) ==>
                 ToMicros(EstimateCost(p, r)) as real <= cap * MILLION)
            <==> ToMicros(Cut(cap)) as real <= cap * MILLION
  {
    hide ToMicros, EstimateCost, Cut, IsStored;
    var least, request := CostsTheCut(cap, executor);
    forall p: Profile, r: Request | IsStoredProfile(p) && r.maxCost == Some(cap) && Feasible(p, r, executor)
      ensures ToMicros(EstimateCost(p, r)) <= ToMicros(Cut(cap))
    {
      StoredCost(p, r);
      CutBounds(EstimateCost(p, r),
                r.inputTokens * PriceUnits(p.inputPrice) + r.maxOutputTokens * PriceUnits(p.outputPrice), cap);
      MoneyMonotone(EstimateCost(p, r), Cut(cap));
    }
  }

  /** A profile without any restriction that charges for output tokens only. */
  function AnyProfile(r: Request, price: Price): Profile
  {
    Profile("p", 1, Advanced, r.inputTokens + r.maxOutputTokens, 0.0, price, true, r.capabilities, {})
  }

  /** One output token at 1.5 USD per million, capped at 1.5 micro-USD: feasible, and reserved as 2. */
  lemma CapExceeded(executor: string)
    ensures var cap := 1.5 / MILLION;
            var r := Request(Low, Low, Low, {}, 0, 1, Some(cap));
            var p := AnyProfile(r, 1.5);
            IsStoredProfile(p) && Feasible(p, r, executor) && ToMicros(EstimateCost(p, r)) == 2 && 2.0 > cap * MILLION
  {
    var cap := 1.5 / MILLION;
    assert cap * MILLION == 1.5;
    assert (0.0 * 0.0 + 1.0 * 1.5) / MILLION == cap;
    assert 1.5.Floor == 1;
  }
}
