/** Entry, stop and target from structure: what the engine will risk a trade on. */
module Levels {
  import opened Wrappers
  import opened Prices
  import opened Indicators
  import opened Rounding

  datatype PoolSide = BuySide | SellSide

  /** Resting liquidity at a price, known from a bar on. */
  datatype Pool = Pool(price: real, side: PoolSide, sourceIndex: int, name: string)

  /** The price zone an entry is taken from, and the bar it is known from. */
  datatype EntryZone = EntryZone(lower: real, upper: real, index: int)

  datatype LevelConfig = LevelConfig(minRiskReward: real, spreadMultiple: real, minStopAtr: real, maxStopAtr: real) {
    ghost predicate Valid() { minRiskReward >= 1.0 && spreadMultiple >= 0.0 }
  }

  /** `target` is the pool aimed at; without one the target is a projection at the minimum ratio. */
  datatype Plan = Plan(entry: real, stopLoss: real, takeProfit: real, target: Option<Pool>)

  // ---------------------------------------------------------------- liquidity

  function Opposing(direction: Direction): PoolSide { if direction == Buy then BuySide else SellSide }

  /** The pools of one side known at a bar, in the order they are listed. */
  function VisibleOn(pools: seq<Pool>, side: PoolSide, at: int): seq<Pool> {
    if pools == [] then []
    else
      var n := |pools| - 1;
      VisibleOn(pools[..n], side, at) + (if pools[n].sourceIndex <= at && pools[n].side == side then [pools[n]] else [])
  }

  /** Puts a pool after every pool no further along the direction. */
  function InsertPool(sorted: seq<Pool>, pool: Pool, direction: Direction): seq<Pool> {
    if sorted == [] || Gain(direction, sorted[|sorted| - 1].price, pool.price) >= 0.0 then sorted + [pool]
    else InsertPool(sorted[..|sorted| - 1], pool, direction) + [sorted[|sorted| - 1]]
  }

  /** Nearest price first for the direction; equal prices keep their order. */
  function SortedPools(pools: seq<Pool>, direction: Direction): seq<Pool> {
    if pools == [] then []
    else InsertPool(SortedPools(pools[..|pools| - 1], direction), pools[|pools| - 1], direction)
  }

  predicate Pays(pool: Pool, direction: Direction, price: real, minDistance: real) {
    Gain(direction, price, pool.price) > 0.0 && Gain(direction, price, pool.price) >= minDistance
  }

  function FirstPaying(pools: seq<Pool>, direction: Direction, price: real, minDistance: real): (r: Option<Pool>)
    ensures r.Some? ==> r.value in pools && Pays(r.value, direction, price, minDistance)
    ensures r.None? ==> forall p :: p in pools ==> !Pays(p, direction, price, minDistance)
  {
    if pools == [] then None
    else if Pays(pools[0], direction, price, minDistance) then Some(pools[0])
    else FirstPaying(pools[1..], direction, price, minDistance)
  }

  /** The first paying pool of the opposing side, nearest first. */
  function NearestTarget(pools: seq<Pool>, price: real, direction: Direction, at: int, minDistance: real): Option<Pool> {
    FirstPaying(SortedPools(VisibleOn(pools, Opposing(direction), at), direction), direction, price, minDistance)
  }

  ghost predicate Ascending(pools: seq<Pool>, direction: Direction) {
    forall i, j :: 0 <= i < j < |pools| ==> Gain(direction, pools[i].price, pools[j].price) >= 0.0
  }

  lemma AppendAscends(pools: seq<Pool>, pool: Pool, direction: Direction)
    requires Ascending(pools, direction) && forall p :: p in pools ==> Gain(direction, p.price, pool.price) >= 0.0
    ensures Ascending(pools + [pool], direction)
  {
  }

  lemma {:induction false} InsertingSorts(sorted: seq<Pool>, pool: Pool, direction: Direction)
    requires Ascending(sorted, direction)
    ensures Ascending(InsertPool(sorted, pool, direction), direction)
    ensures forall p :: p in InsertPool(sorted, pool, direction) <==> p == pool || p in sorted
  {
    if sorted == [] || Gain(direction, sorted[|sorted| - 1].price, pool.price) >= 0.0 {
      AppendAscends(sorted, pool, direction);
    } else {
      var n := |sorted| - 1;
      InsertingSorts(sorted[..n], pool, direction);
      AppendAscends(InsertPool(sorted[..n], pool, direction), sorted[n], direction);
      assert sorted == sorted[..n] + [sorted[n]];
    }
  }

  lemma {:induction false} SortingSorts(pools: seq<Pool>, direction: Direction)
    ensures Ascending(SortedPools(pools, direction), direction)
    ensures forall p :: p in SortedPools(pools, direction) <==> p in pools
  {
    if pools != [] {
      var n := |pools| - 1;
      SortingSorts(pools[..n], direction);
      InsertingSorts(SortedPools(pools[..n], direction), pools[n], direction);
      assert pools == pools[..n] + [pools[n]];
    }
  }

  lemma {:induction false} VisibleAre(pools: seq<Pool>, side: PoolSide, at: int)
    ensures forall p :: p in VisibleOn(pools, side, at) <==> p in pools && p.sourceIndex <= at && p.side == side
  {
    if pools != [] {
      VisibleAre(pools[..|pools| - 1], side, at);
      assert pools == pools[..|pools| - 1] + [pools[|pools| - 1]];
    }
  }

  lemma {:induction false} FirstIsNearest(pools: seq<Pool>, direction: Direction, price: real, minDistance: real)
    requires Ascending(pools, direction)
    ensures
      var r := FirstPaying(pools, direction, price, minDistance);
      r.Some? ==> forall p :: p in pools && Pays(p, direction, price, minDistance) ==> Gain(direction, r.value.price, p.price) >= 0.0
  {
    if pools != [] {
      assert pools == [pools[0]] + pools[1..];
      if !Pays(pools[0], direction, price, minDistance) {
        FirstIsNearest(pools[1..], direction, price, minDistance);
      }
    }
  }

  ghost predicate Candidate(pool: Pool, pools: seq<Pool>, price: real, direction: Direction, at: int, minDistance: real) {
    pool in pools && pool.sourceIndex <= at && pool.side == Opposing(direction) && Pays(pool, direction, price, minDistance)
  }

  /** The target is a pool known at the bar, on the opposing side, that pays, and none that pays is nearer. */
  lemma TargetIsTheNearestThatPays(pools: seq<Pool>, price: real, direction: Direction, at: int, minDistance: real)
    ensures
      var r := NearestTarget(pools, price, direction, at, minDistance);
      && (r.Some? ==>
            && Candidate(r.value, pools, price, direction, at, minDistance)
            && (forall p :: Candidate(p, pools, price, direction, at, minDistance) ==> Gain(direction, r.value.price, p.price) >= 0.0))
      && (r.None? ==> forall p :: !Candidate(p, pools, price, direction, at, minDistance))
  {
    hide VisibleOn, SortedPools, FirstPaying, Ascending, Pays, Gain;
    var visible := VisibleOn(pools, Opposing(direction), at);
    VisibleAre(pools, Opposing(direction), at);
    SortingSorts(visible, direction);
    FirstIsNearest(SortedPools(visible, direction), direction, price, minDistance);
  }

  /** No look-ahead: pools known only later cannot become the target. */
  lemma {:induction false} LaterPoolsAreInvisible(known: seq<Pool>, later: seq<Pool>, price: real, direction: Direction, at: int, minDistance: real)
    requires forall p :: p in later ==> p.sourceIndex > at
    ensures NearestTarget(known + later, price, direction, at, minDistance) == NearestTarget(known, price, direction, at, minDistance)
  {
    if later == [] {
      assert known + later == known;
    } else {
      var all := known + later;
      assert all[..|all| - 1] == known + later[..|later| - 1];
      assert later[|later| - 1] in later;
      LaterPoolsAreInvisible(known, later[..|later| - 1], price, direction, at, minDistance);
      assert VisibleOn(all, Opposing(direction), at) == VisibleOn(all[..|all| - 1], Opposing(direction), at);
    }
  }

  // ---------------------------------------------------------------- the levels

  function SpreadPad(config: LevelConfig, spread: Option<real>): real {
    if spread.Some? && spread.value > 0.0 then spread.value * config.spreadMultiple else 0.0
  }

  function Buffer(config: LevelConfig, atr: real, spread: Option<real>): real { atr * 0.2 + SpreadPad(config, spread) }

  /** The price a sweep's candle reached: the level whose loss means it failed. */
  datatype Sweep = Sweep(index: int, low: real, high: real) {
    function Extreme(direction: Direction): real { if direction == Buy then low else high }
  }

  function FarEdge(direction: Direction, zone: EntryZone): real { if direction == Buy then zone.lower else zone.upper }

  /** The furthest of the zone's far edge and, when the sweep is no older than the zone, its extreme. */
  function Anchor(direction: Direction, zone: EntryZone, sweep: Option<Sweep>): real {
    var edge := FarEdge(direction, zone);
    if sweep.Some? && sweep.value.index >= zone.index && Gain(direction, sweep.value.Extreme(direction), edge) > 0.0
    then sweep.value.Extreme(direction) else edge
  }

  function StopFor(config: LevelConfig, direction: Direction, atr: real, sweep: Option<Sweep>, zone: EntryZone, spread: Option<real>): real {
    Ahead(direction, Anchor(direction, zone, sweep), -Buffer(config, atr, spread))
  }

  function MinimumReward(config: LevelConfig, stopDistance: real): real { stopDistance * config.minRiskReward }

  function BuildLevels(
    config: LevelConfig, direction: Direction, price: real, atr: real, sweep: Option<Sweep>, zone: EntryZone,
    pools: seq<Pool>, index: int, spread: Option<real>): Option<Plan>
  {
    var stop := StopFor(config, direction, atr, sweep, zone, spread);
    if Gain(direction, stop, price) <= 0.0 then None
    else
      var distance := Abs(price - stop);
      if distance <= 0.0 then None
      else
        var offset := atr * 0.1;
        var minimum := MinimumReward(config, distance);
        var target := NearestTarget(pools, price, direction, index, minimum + offset);
        var takeProfit :=
          if target.Some? then Ahead(direction, target.value.price, -offset) else Ahead(direction, price, minimum);
        if Gain(direction, stop, price) > 0.0 && Gain(direction, price, takeProfit) > 0.0
        then Some(Plan(price, stop, takeProfit, target)) else None
  }

  datatype LevelRefusal = NoLevels | NoDistance | TooTight | TooWide | LowRatio

  datatype Priced = Priced(plan: Plan, stopDistance: real, riskReward: real)

  /** The level and ratio part of an evaluation, in the order it refuses. */
  function PriceSetup(
    config: LevelConfig, direction: Direction, price: real, atr: real, sweep: Option<Sweep>, zone: EntryZone,
    pools: seq<Pool>, index: int, spread: Option<real>): Result<Priced, LevelRefusal>
    requires atr > 0.0
  {
    var plan := BuildLevels(config, direction, price, atr, sweep, zone, pools, index, spread);
    if plan.None? then Err(NoLevels)
    else
      var stopDistance := Abs(plan.value.entry - plan.value.stopLoss);
      if stopDistance <= 0.0 then Err(NoDistance)
      else if stopDistance / atr < config.minStopAtr then Err(TooTight)
      else if stopDistance / atr > config.maxStopAtr then Err(TooWide)
      else
        var riskReward := Abs(plan.value.takeProfit - plan.value.entry) / stopDistance;
        if riskReward < config.minRiskReward - R_EPSILON then Err(LowRatio)
        else Ok(Priced(plan.value, stopDistance, riskReward))
  }

  /** The stop is at least a fifth of an ATR and the spread pad beyond the zone, and beyond a sweep no older than it. */
  lemma StopIsBeyondTheZone(
    config: LevelConfig, direction: Direction, atr: real, sweep: Option<Sweep>, zone: EntryZone, spread: Option<real>)
    ensures
      var stop := StopFor(config, direction, atr, sweep, zone, spread);
      var room := atr / 5.0 + (if spread.Some? && spread.value > 0.0 then spread.value * config.spreadMultiple else 0.0);
      var swept := sweep.Some? && sweep.value.index >= zone.index;
      if direction == Buy then
        && stop <= zone.lower - room && (swept ==> stop <= sweep.value.low - room)
        && (stop == zone.lower - room || (swept && stop == sweep.value.low - room))
      else
        && stop >= zone.upper + room && (swept ==> stop >= sweep.value.high + room)
        && (stop == zone.upper + room || (swept && stop == sweep.value.high + room))
  {
  }

  lemma MinimumRewardIsPositive(config: LevelConfig, distance: real)
    requires config.Valid() && distance > 0.0
    ensures MinimumReward(config, distance) > 0.0 && MinimumReward(config, distance) == config.minRiskReward * distance
  {
  }

  /**
   Levels come out exactly when the stop is behind the entry; then stop, entry and target
   are in order, the reward is at least the minimum ratio times the stop distance, and the
   target is the nearest visible opposing pool that still pays after the offset, or, when
   no pool does, the projection at exactly the minimum.
   */
  lemma BuiltLevelsAreStructural(
    config: LevelConfig, direction: Direction, price: real, atr: real, sweep: Option<Sweep>, zone: EntryZone,
    pools: seq<Pool>, index: int, spread: Option<real>)
    requires config.Valid() && atr > 0.0
    ensures
      var stop := StopFor(config, direction, atr, sweep, zone, spread);
      var built := BuildLevels(config, direction, price, atr, sweep, zone, pools, index, spread);
      && (built.Some? <==> Gain(direction, stop, price) > 0.0)
      && (built.Some? ==>
            var plan := built.value;
            var distance := Gain(direction, stop, price);
            var floor := MinimumReward(config, distance) + atr * 0.1;
            && plan.entry == price && plan.stopLoss == stop
            && Gain(direction, price, plan.takeProfit) >= MinimumReward(config, distance) > 0.0
            && (plan.target.Some? ==>
                  && Candidate(plan.target.value, pools, price, direction, index, floor)
                  && (forall p :: Candidate(p, pools, price, direction, index, floor) ==>
                        Gain(direction, plan.target.value.price, p.price) >= 0.0)
                  && Gain(direction, plan.takeProfit, plan.target.value.price) == atr * 0.1)
            && (plan.target.None? ==>
                  && (forall p :: !Candidate(p, pools, price, direction, index, floor))
                  && Gain(direction, price, plan.takeProfit) == MinimumReward(config, distance)))
  {
    hide StopFor, MinimumReward, NearestTarget;
    var stop := StopFor(config, direction, atr, sweep, zone, spread);
    var distance := Gain(direction, stop, price);
    if distance > 0.0 {
      MinimumRewardIsPositive(config, distance);
      TargetIsTheNearestThatPays(pools, price, direction, index, MinimumReward(config, distance) + atr * 0.1);
    }
  }

  lemma RatioReachesTheMinimum(config: LevelConfig, distance: real, reward: real)
    requires distance > 0.0 && reward >= MinimumReward(config, distance)
    ensures reward / distance >= config.minRiskReward
  {
    assert MinimumReward(config, distance) / distance == config.minRiskReward;
    QuotientIsMonotone(MinimumReward(config, distance), reward, distance);
  }

  /** Everything priced has its full ratio in exact arithmetic, so the ratio refusal is never reached. */
  lemma RatioRefusalIsUnreachable(
    config: LevelConfig, direction: Direction, price: real, atr: real, sweep: Option<Sweep>, zone: EntryZone,
    pools: seq<Pool>, index: int, spread: Option<real>)
    requires config.Valid() && atr > 0.0
    ensures
      var r := PriceSetup(config, direction, price, atr, sweep, zone, pools, index, spread);
      && r != Err(LowRatio) && r != Err(NoDistance)
      && (r == Err(NoLevels) <==> Gain(direction, StopFor(config, direction, atr, sweep, zone, spread), price) <= 0.0)
      && (r.Ok? ==>
            && r.value.riskReward >= config.minRiskReward
            && Gain(direction, r.value.plan.stopLoss, r.value.plan.entry) == r.value.stopDistance > 0.0
            && Gain(direction, r.value.plan.entry, r.value.plan.takeProfit) > 0.0)
  {
    hide StopFor, MinimumReward, NearestTarget, BuildLevels, Candidate;
    BuiltLevelsAreStructural(config, direction, price, atr, sweep, zone, pools, index, spread);
    var plan := BuildLevels(config, direction, price, atr, sweep, zone, pools, index, spread);
    if plan.Some? {
      RatioReachesTheMinimum(
        config, Gain(direction, plan.value.stopLoss, price), Gain(direction, price, plan.value.takeProfit));
    }
  }

  predicate AtLeast(distance: real, times: real, atr: real) { distance >= times * atr }

  predicate AtMost(distance: real, times: real, atr: real) { distance <= times * atr }

  /**
   Setups are refused for their stop alone: not behind the entry, less than the least or
   more than the most ATRs away; anything else is priced, and the ratio reported times the
   stop distance is the reward.
   */
  lemma PricedExactlyWhen(
    config: LevelConfig, direction: Direction, price: real, atr: real, sweep: Option<Sweep>, zone: EntryZone,
    pools: seq<Pool>, index: int, spread: Option<real>)
    requires config.Valid() && atr > 0.0
    ensures
      var r := PriceSetup(config, direction, price, atr, sweep, zone, pools, index, spread);
      var stop := StopFor(config, direction, atr, sweep, zone, spread);
      var distance := if direction == Buy then price - stop else stop - price;
      && (r == Err(NoLevels) <==> distance <= 0.0)
      && (r == Err(TooTight) <==> distance > 0.0 && !AtLeast(distance, config.minStopAtr, atr))
      && (r == Err(TooWide) <==> distance > 0.0 && AtLeast(distance, config.minStopAtr, atr) && !AtMost(distance, config.maxStopAtr, atr))
      && (r.Ok? <==> distance > 0.0 && AtLeast(distance, config.minStopAtr, atr) && AtMost(distance, config.maxStopAtr, atr))
      && (r.Ok? ==>
            && r.value.plan.entry == price && r.value.plan.stopLoss == stop && r.value.stopDistance == distance
            && Some(r.value.plan) == BuildLevels(config, direction, price, atr, sweep, zone, pools, index, spread)
            && IsRatio(r.value.riskReward, distance, Gain(direction, price, r.value.plan.takeProfit)))
  {
    RatioRefusalIsUnreachable(config, direction, price, atr, sweep, zone, pools, index, spread);
    BuiltLevelsAreStructural(config, direction, price, atr, sweep, zone, pools, index, spread);
    var distance := Gain(direction, StopFor(config, direction, atr, sweep, zone, spread), price);
    StopIsMeasuredInAtrs(distance, atr, config.minStopAtr, config.maxStopAtr);
    var r := PriceSetup(config, direction, price, atr, sweep, zone, pools, index, spread);
    if r.Ok? {
      RatioIsRatio(Gain(direction, price, r.value.plan.takeProfit), distance);
    }
    hide StopFor, MinimumReward, NearestTarget, BuildLevels, Candidate, AtLeast, AtMost, IsRatio;
  }

  predicate IsRatio(ratio: real, distance: real, reward: real) { ratio * distance == reward }

  lemma RatioIsRatio(reward: real, distance: real)
    requires distance > 0.0
    ensures IsRatio(reward / distance, distance, reward)
  {
    QuotientTimesDivisor(reward, distance);
  }

  lemma StopIsMeasuredInAtrs(distance: real, atr: real, least: real, most: real)
    requires atr > 0.0
    ensures distance / atr < least <==> !AtLeast(distance, least, atr)
    ensures distance / atr > most <==> !AtMost(distance, most, atr)
  {
    QuotientReaches(distance, atr, least);
    QuotientReaches(-distance, atr, -most);
    assert (-distance) / atr == -(distance / atr);
  }
}
