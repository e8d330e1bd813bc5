/** Three-candle imbalances with their fill, mitigation and invalidation followed bar by bar. */
module FairValueGaps {
  import opened Wrappers
  import opened Prices
  import opened Indicators
  import opened Displacement
  import opened Rounding

  /** The price zone a gap leaves open. */
  datatype Zone = Zone(direction: Bias, lower: real, upper: real) {
    function Size(): real { upper - lower }

    predicate Invalidates(candle: Candle) {
      if direction == Bullish then candle.close < lower else candle.close > upper
    }

    predicate FillsWhole(candle: Candle) {
      if direction == Bullish then candle.low <= lower else candle.high >= upper
    }

    function Penetration(candle: Candle): real {
      Max(0.0, if direction == Bullish then upper - candle.low else candle.high - lower)
    }

    /** The share of the gap a candle reaches into. */
    function Filled(candle: Candle): (r: real)
      ensures r <= 1.0 && (Size() >= 0.0 ==> 0.0 <= r)
    {
      Min(1.0, if Size() != 0.0 then Penetration(candle) / Size() else 0.0)
    }
  }

  datatype Life = Life(fill: real, mitigated: Option<nat>, invalidated: Option<nat>) {
    predicate Dead() { mitigated.Some? || invalidated.Some? }
  }

  const UNTOUCHED := Life(0.0, None, None)

  datatype FairValueGap = FairValueGap(
    index: nat, zone: Zone, size: real, sizeAtr: real, displaced: bool, displacementQuality: real, life: Life)
  {
    predicate IsLive(at: int, maxAge: int) {
      && index <= at
      && !(life.mitigated.Some? && life.mitigated.value <= at)
      && !(life.invalidated.Some? && life.invalidated.value <= at)
      && at - index <= maxAge
    }
  }

  datatype GapConfig = GapConfig(atrPeriod: nat, minSizeAtr: real)

  /** The imbalance candle i completes, judged against the candle two before it. */
  function Imbalance(candles: seq<Candle>, i: nat): (z: Option<Zone>)
    requires 2 <= i < |candles|
    ensures z.Some? ==> z.value.Size() > 0.0 && z.value.direction != Neutral
  {
    var left, right := candles[i - 2], candles[i];
    if right.low > left.high then Some(Zone(Bullish, left.high, right.low))
    else if right.high < left.low then Some(Zone(Bearish, right.high, left.low))
    else None
  }

  predicate IsGap(candles: seq<Candle>, config: GapConfig, i: nat)
    requires config.atrPeriod >= 1 && i < |candles|
  {
    && i >= 2
    && Atr(candles, config.atrPeriod, i) > 0.0
    && Imbalance(candles, i).Some?
    && Imbalance(candles, i).value.Size() >= Atr(candles, config.atrPeriod, i) * config.minSizeAtr
  }

  /** One later candle's effect. A close through the gap is looked at before a full fill. */
  function LifeStep(zone: Zone, candle: Candle, probe: nat, life: Life): Life {
    if life.Dead() then life
    else if zone.Invalidates(candle) then life.(invalidated := Some(probe))
    else if zone.FillsWhole(candle) then life.(mitigated := Some(probe), fill := 1.0)
    else life.(fill := Max(life.fill, zone.Filled(candle)))
  }

  /** The gap's life after bars `from` up to, not including, k. */
  function LifeTo(candles: seq<Candle>, zone: Zone, from: nat, k: nat): Life
    requires from <= k <= |candles|
  {
    if k == from then UNTOUCHED else LifeStep(zone, candles[k - 1], k - 1, LifeTo(candles, zone, from, k - 1))
  }

  /** The displacement recorded for a bar; a later entry for the same bar replaces an earlier one. */
  function MoveOn(moves: seq<Move>, index: nat): (m: Option<Move>)
    ensures m.Some? ==> m.value in moves && m.value.index == index
    ensures m.None? ==> forall d :: d in moves ==> d.index != index
  {
    if moves == [] then None
    else if moves[|moves| - 1].index == index then Some(moves[|moves| - 1])
    else MoveOn(moves[..|moves| - 1], index)
  }

  /** The impulse a gap on bar i is credited to: the middle candle's, else the third's. */
  function Impulse(moves: seq<Move>, i: nat): Option<Move>
    requires i >= 1
  {
    if MoveOn(moves, i - 1).Some? then MoveOn(moves, i - 1) else MoveOn(moves, i)
  }

  function Ratio(size: real, atr: real): real
    requires atr > 0.0
  {
    size / atr
  }

  function GapOf(candles: seq<Candle>, config: GapConfig, move: Option<Move>, i: nat): FairValueGap
    requires config.atrPeriod >= 1 && i < |candles| && IsGap(candles, config, i)
  {
    var zone := Imbalance(candles, i).value;
    FairValueGap(
      i, zone, zone.Size(), Ratio(zone.Size(), Atr(candles, config.atrPeriod, i)),
      move.Some? && move.value.direction == zone.direction, if move.Some? then move.value.quality else 0.0,
      LifeTo(candles, zone, i + 1, |candles|))
  }

  /** The gaps completed by bars before bar k, each with its life to the end of the series. */
  function GapsTo(candles: seq<Candle>, moves: seq<Move>, config: GapConfig, k: nat): seq<FairValueGap>
    requires config.atrPeriod >= 1 && k <= |candles|
  {
    if k == 0 then []
    else
      GapsTo(candles, moves, config, k - 1)
      + (if IsGap(candles, config, k - 1) then [GapOf(candles, config, Impulse(moves, k - 1), k - 1)] else [])
  }

  /** Follows one gap forward, stopping at the bar that ends it. */
  method FollowGap(candles: seq<Candle>, zone: Zone, from: nat) returns (life: Life)
    requires from <= |candles|
    ensures life == LifeTo(candles, zone, from, |candles|)
  {
    var mitigated: Option<nat>, invalidated: Option<nat>, maxFill := None, None, 0.0;
    for probe := from to |candles|
      invariant Life(maxFill, mitigated, invalidated) == LifeTo(candles, zone, from, probe)
      invariant mitigated.None? && invalidated.None?
    {
      var candle := candles[probe];
      if zone.Invalidates(candle) {
        invalidated := Some(probe);
        life := Life(maxFill, mitigated, invalidated);
        DeathIsFinal(candles, zone, from, probe + 1, |candles|);
        return;
      }
      if zone.FillsWhole(candle) {
        mitigated, maxFill := Some(probe), 1.0;
        life := Life(maxFill, mitigated, invalidated);
        DeathIsFinal(candles, zone, from, probe + 1, |candles|);
        return;
      }
      maxFill := Max(maxFill, zone.Filled(candle));
    }
    life := Life(maxFill, mitigated, invalidated);
  }

  method DetectFairValueGaps(candles: seq<Candle>, moves: seq<Move>, config: GapConfig) returns (gaps: seq<FairValueGap>)
    requires config.atrPeriod >= 1
    ensures gaps == GapsTo(candles, moves, config, |candles|)
  {
    hide Atr, LifeTo, MoveOn;
    gaps := [];
    if |candles| < 3 {
      assert forall i :: 0 <= i < |candles| ==> !IsGap(candles, config, i);
      NoGapsYet(candles, moves, config, |candles|);
      return;
    }
    var atrs := AtrSeries(candles, config.atrPeriod);
    NoGapsYet(candles, moves, config, 2);
    for i := 2 to |candles|
      invariant gaps == GapsTo(candles, moves, config, i)
    {
      if atrs[i] <= 0.0 { continue; }
      var zone := Imbalance(candles, i);
      if zone.None? || zone.value.Size() < atrs[i] * config.minSizeAtr { continue; }
      var move := Impulse(moves, i);
      var life := FollowGap(candles, zone.value, i + 1);
      gaps := gaps + [FairValueGap(
        i, zone.value, zone.value.Size(), Ratio(zone.value.Size(), atrs[i]),
        move.Some? && move.value.direction == zone.value.direction, if move.Some? then move.value.quality else 0.0, life)];
    }
  }

  lemma {:induction false} NoGapsYet(candles: seq<Candle>, moves: seq<Move>, config: GapConfig, k: nat)
    requires config.atrPeriod >= 1 && k <= |candles| && k <= 2
    ensures GapsTo(candles, moves, config, k) == []
  {
    if k > 0 {
      NoGapsYet(candles, moves, config, k - 1);
    }
  }

  // ---------------------------------------------------------------- one gap's life

  /**
   A gap is never both mitigated and invalidated, its fill is a fraction, and what ended it
   is the first later bar that reached through it: whole fill for mitigation, a close
   beyond for invalidation.
   */
  lemma {:induction false} LifeIsCoherent(candles: seq<Candle>, zone: Zone, from: nat, k: nat)
    requires from <= k <= |candles| && zone.Size() > 0.0
    ensures
      var life := LifeTo(candles, zone, from, k);
      && 0.0 <= life.fill <= 1.0
      && !(life.mitigated.Some? && life.invalidated.Some?)
      && (life.mitigated.Some? ==>
            life.fill == 1.0 && from <= life.mitigated.value < k
            && zone.FillsWhole(candles[life.mitigated.value]) && !zone.Invalidates(candles[life.mitigated.value]))
      && (life.invalidated.Some? ==> from <= life.invalidated.value < k && zone.Invalidates(candles[life.invalidated.value]))
      && (!life.Dead() ==> forall j :: from <= j < k ==> !zone.Invalidates(candles[j]) && !zone.FillsWhole(candles[j]))
  {
    if k > from {
      LifeIsCoherent(candles, zone, from, k - 1);
    }
  }

  /** A dead gap never revives, an ending is never rewritten, and the fill never shrinks. */
  lemma {:induction false} DeathIsFinal(candles: seq<Candle>, zone: Zone, from: nat, k: nat, m: nat)
    requires from <= k <= m <= |candles|
    ensures LifeTo(candles, zone, from, k).Dead() ==> LifeTo(candles, zone, from, m) == LifeTo(candles, zone, from, k)
    ensures zone.Size() > 0.0 ==> LifeTo(candles, zone, from, k).fill <= LifeTo(candles, zone, from, m).fill
    ensures LifeTo(candles, zone, from, m).mitigated.Some? ==>
              (LifeTo(candles, zone, from, m).mitigated.value < k
               <==> LifeTo(candles, zone, from, k).mitigated == LifeTo(candles, zone, from, m).mitigated)
    ensures LifeTo(candles, zone, from, m).invalidated.Some? ==>
              (LifeTo(candles, zone, from, m).invalidated.value < k
               <==> LifeTo(candles, zone, from, k).invalidated == LifeTo(candles, zone, from, m).invalidated)
  {
    if k < m {
      DeathIsFinal(candles, zone, from, k, m - 1);
      if zone.Size() > 0.0 {
        LifeIsCoherent(candles, zone, from, m - 1);
      }
    } else {
      EndingsAreBefore(candles, zone, from, k);
    }
  }

  lemma {:induction false} EndingsAreBefore(candles: seq<Candle>, zone: Zone, from: nat, k: nat)
    requires from <= k <= |candles|
    ensures LifeTo(candles, zone, from, k).mitigated.Some? ==> LifeTo(candles, zone, from, k).mitigated.value < k
    ensures LifeTo(candles, zone, from, k).invalidated.Some? ==> LifeTo(candles, zone, from, k).invalidated.value < k
  {
    if k > from {
      EndingsAreBefore(candles, zone, from, k - 1);
    }
  }

  // ---------------------------------------------------------------- which gaps, and what ends them

  /** Candle i leaves candle i - 2 behind by at least the minimum share of the ATR. */
  ghost predicate LeavesBehind(candles: seq<Candle>, config: GapConfig, i: nat, direction: Bias)
    requires config.atrPeriod >= 1
  {
    && 2 <= i < |candles| && Atr(candles, config.atrPeriod, i) > 0.0
    && var room := if direction == Bullish then candles[i].low - candles[i - 2].high else candles[i - 2].low - candles[i].high;
       && direction != Neutral && room > 0.0 && room >= Atr(candles, config.atrPeriod, i) * config.minSizeAtr
       // above is looked at first; no proper candle is both
       && (direction == Bearish ==> candles[i].low <= candles[i - 2].high)
  }

  /** The gap is the space left behind on its bar, credited to the impulse of the middle candle, else of the third. */
  ghost predicate TellsItsGap(gap: FairValueGap, candles: seq<Candle>, moves: seq<Move>, config: GapConfig)
    requires config.atrPeriod >= 1
  {
    && LeavesBehind(candles, config, gap.index, gap.zone.direction)
    && var left, right := candles[gap.index - 2], candles[gap.index];
       && gap.zone.lower == (if gap.zone.direction == Bullish then left.high else right.high)
       && gap.zone.upper == (if gap.zone.direction == Bullish then right.low else left.low)
       && gap.size == gap.zone.upper - gap.zone.lower
       && gap.life == LifeTo(candles, gap.zone, gap.index + 1, |candles|)
       && (OneABar(moves) ==>
             && (gap.displaced <==> exists m :: Made(m, moves, gap.index) && m.direction == gap.zone.direction)
             && (forall m :: Made(m, moves, gap.index) ==> gap.displacementQuality == m.quality)
             && ((forall m :: m in moves ==> !Made(m, moves, gap.index)) ==> gap.displacementQuality == 0.0))
  }

  ghost predicate OneABar(moves: seq<Move>) { forall a, b :: a in moves && b in moves && a.index == b.index ==> a == b }

  /** The impulse of a gap on bar i: the displacement on the middle candle, else the one on the third. */
  ghost predicate Made(m: Move, moves: seq<Move>, i: nat) {
    m in moves && (m.index + 1 == i || (m.index == i && forall other :: other in moves ==> other.index + 1 != i))
  }

  /** A bar completes a gap exactly when it leaves the candle two before it behind; no gap is missed and none is invented. */
  lemma {:induction false} GapsAreExactlyTheImbalances(candles: seq<Candle>, moves: seq<Move>, config: GapConfig, k: nat)
    requires config.atrPeriod >= 1 && k <= |candles|
    ensures forall gap :: gap in GapsTo(candles, moves, config, k) ==> gap.index < k && TellsItsGap(gap, candles, moves, config)
    ensures forall i :: 0 <= i < k && (LeavesBehind(candles, config, i, Bullish) || LeavesBehind(candles, config, i, Bearish)) ==>
              exists gap :: gap in GapsTo(candles, moves, config, k) && gap.index == i
  {
    if k > 0 {
      var i := k - 1;
      GapsAreExactlyTheImbalances(candles, moves, config, i);
      GapIsWhatIsLeftBehind(candles, moves, config, i);
      hide IsGap, GapOf, LeavesBehind, TellsItsGap, Impulse;
      if IsGap(candles, config, i) {
        var gap := GapOf(candles, config, Impulse(moves, i), i);
        assert gap in GapsTo(candles, moves, config, k);
      }
    }
  }

  lemma GapIsWhatIsLeftBehind(candles: seq<Candle>, moves: seq<Move>, config: GapConfig, i: nat)
    requires config.atrPeriod >= 1 && i < |candles|
    ensures IsGap(candles, config, i) <==> LeavesBehind(candles, config, i, Bullish) || LeavesBehind(candles, config, i, Bearish)
    ensures IsGap(candles, config, i) ==>
              i >= 1 && GapOf(candles, config, Impulse(moves, i), i).index == i
              && TellsItsGap(GapOf(candles, config, Impulse(moves, i), i), candles, moves, config)
  {
    hide Atr, LifeTo, MoveOn, Ratio;
  }

  /** The close is through the gap. */
  predicate ClosesThrough(zone: Zone, candle: Candle) {
    if zone.direction == Bullish then candle.close < zone.lower else candle.close > zone.upper
  }

  /** The candle reaches across the whole gap, or closes through it. */
  predicate Ends(zone: Zone, candle: Candle) {
    ClosesThrough(zone, candle) || (if zone.direction == Bullish then candle.low <= zone.lower else candle.high >= zone.upper)
  }

  /** The first bar that ends a gap ends it: as invalidated if it closes through, as mitigated if it does not. */
  lemma {:induction false} EndsExactlyWhen(candles: seq<Candle>, zone: Zone, from: nat, k: nat, j: nat)
    requires from <= j < k <= |candles|
    ensures
      var life, first := LifeTo(candles, zone, from, k), Ends(zone, candles[j]) && forall m :: from <= m < j ==> !Ends(zone, candles[m]);
      && (life.invalidated == Some(j) <==> first && ClosesThrough(zone, candles[j]))
      && (life.mitigated == Some(j) <==> first && !ClosesThrough(zone, candles[j]))
  {
    EndingsAreBefore(candles, zone, from, k - 1);
    NotEndedYet(candles, zone, from, k - 1);
    if j < k - 1 {
      EndsExactlyWhen(candles, zone, from, k - 1, j);
    }
  }

  lemma {:induction false} NotEndedYet(candles: seq<Candle>, zone: Zone, from: nat, k: nat)
    requires from <= k <= |candles|
    ensures !LifeTo(candles, zone, from, k).Dead() <==> forall m :: from <= m < k ==> !Ends(zone, candles[m])
  {
    if k > from {
      NotEndedYet(candles, zone, from, k - 1);
    }
  }

  /** Until it ends, a gap's fill is the deepest share of it that a bar has reached into. */
  lemma {:induction false} FillIsTheDeepest(candles: seq<Candle>, zone: Zone, from: nat, k: nat)
    requires from <= k <= |candles| && zone.lower < zone.upper && !LifeTo(candles, zone, from, k).Dead()
    ensures
      var fill := LifeTo(candles, zone, from, k).fill;
      && (forall m :: from <= m < k ==> Reaches(zone, candles[m], fill))
      && (fill == 0.0 || exists m :: from <= m < k && ReachesExactly(zone, candles[m], fill))
  {
    if k > from {
      FillIsTheDeepest(candles, zone, from, k - 1);
      var before, fill := LifeTo(candles, zone, from, k - 1).fill, LifeTo(candles, zone, from, k).fill;
      ShareMeans(zone, candles[k - 1]);
      forall m | from <= m < k - 1 ensures Reaches(zone, candles[m], fill) {
        DeeperStill(zone, candles[m], before, fill);
      }
      DeeperStill(zone, candles[k - 1], zone.Filled(candles[k - 1]), fill);
      if fill == before && fill != 0.0 {
        var m :| from <= m < k - 1 && ReachesExactly(zone, candles[m], before);
        assert ReachesExactly(zone, candles[m], fill);
      } else if fill != 0.0 {
        assert ReachesExactly(zone, candles[k - 1], fill);
      }
    }
  }

  function Into(zone: Zone, candle: Candle): real {
    if zone.direction == Bullish then zone.upper - candle.low else candle.high - zone.lower
  }

  /** The candle reaches no further into the gap than this share of it. */
  predicate Reaches(zone: Zone, candle: Candle, share: real) {
    Into(zone, candle) <= share * (zone.upper - zone.lower) || share >= 1.0
  }

  /** The candle reaches exactly this share of the way into the gap, or beyond it if the share is all of it. */
  predicate ReachesExactly(zone: Zone, candle: Candle, share: real) {
    if share == 1.0 then Into(zone, candle) >= zone.upper - zone.lower else Into(zone, candle) == share * (zone.upper - zone.lower)
  }

  lemma ShareMeans(zone: Zone, candle: Candle)
    requires zone.lower < zone.upper
    ensures Reaches(zone, candle, zone.Filled(candle))
    ensures zone.Filled(candle) > 0.0 ==> ReachesExactly(zone, candle, zone.Filled(candle))
  {
    QuotientTimesDivisor(Into(zone, candle), zone.upper - zone.lower);
  }

  lemma DeeperStill(zone: Zone, candle: Candle, a: real, b: real)
    requires zone.lower < zone.upper && a <= b && Reaches(zone, candle, a)
    ensures Reaches(zone, candle, b)
  {
    var size := zone.upper - zone.lower;
    ProductIsMonotone(0.0, b - a, size, size);
    assert (b - a) * size == b * size - a * size;
  }

  // ---------------------------------------------------------------- no look-ahead

  lemma {:induction false} LifeSeesOnlyThePast(candles: seq<Candle>, zone: Zone, n: nat, from: nat, k: nat)
    requires from <= k <= n <= |candles|
    ensures LifeTo(candles[..n], zone, from, k) == LifeTo(candles, zone, from, k)
  {
    if k > from {
      LifeSeesOnlyThePast(candles, zone, n, from, k - 1);
    }
  }

  /** Live or dead at a bar, whatever the age limit. */
  ghost predicate JudgedAlike(early: FairValueGap, late: FairValueGap, at: int) {
    forall maxAge :: early.IsLive(at, maxAge) == late.IsLive(at, maxAge)
  }

  /** The verdict on a gap at bar n - 1 needs only the life up to that bar. */
  lemma LivenessNeedsOnlyThePast(full: FairValueGap, partial: FairValueGap, candles: seq<Candle>, n: nat)
    requires full.index == partial.index < n <= |candles|
    requires full.life == LifeTo(candles, full.zone, full.index + 1, |candles|)
    requires partial.life == LifeTo(candles, full.zone, full.index + 1, n)
    ensures JudgedAlike(partial, full, n - 1)
  {
    hide LifeTo;
    DeathIsFinal(candles, full.zone, full.index + 1, n, |candles|);
    EndingsAreBefore(candles, full.zone, full.index + 1, n);
  }

  lemma GapSeesOnlyThePast(candles: seq<Candle>, config: GapConfig, n: nat, i: nat)
    requires config.atrPeriod >= 1 && i < n <= |candles|
    ensures IsGap(candles[..n], config, i) == IsGap(candles, config, i)
    ensures i >= 2 ==> Imbalance(candles[..n], i) == Imbalance(candles, i)
  {
    hide Atr;
    AtrSeesOnlyThePast(candles, config.atrPeriod, n, i);
  }

  /** The displacement recorded for a bar is the one detection makes on it. */
  lemma MoveOnIsTheDetection(candles: seq<Candle>, config: DisplacementConfig, i: nat)
    requires config.Valid() && i < |candles|
    ensures MoveOn(MovesTo(candles, config, |candles|), i)
            == if IsDisplacement(candles, config, i) then Some(MoveAt(candles, config, i)) else None
  {
    hide IsDisplacement, MoveAt, MovesTo, MoveOn;
    MovesAreInOrder(candles, config, |candles|);
    MoveAtIsOnItsBar(candles, config);
    var m := MoveOn(MovesTo(candles, config, |candles|), i);
    if IsDisplacement(candles, config, i) {
      assert MoveAt(candles, config, i) in MovesTo(candles, config, |candles|);
    }
  }

  lemma ImpulseSeesOnlyThePast(candles: seq<Candle>, config: DisplacementConfig, n: nat, i: nat)
    requires config.Valid() && 1 <= i < n <= |candles|
    ensures
      var early, late := Impulse(MovesTo(candles[..n], config, n), i), Impulse(MovesTo(candles, config, |candles|), i);
      && early.Some? == late.Some?
      && (early.Some? ==> early.value.direction == late.value.direction)
      && (i + 1 < n ==> early == late)
  {
    hide IsDisplacement, MoveAt, MovesTo, MoveOn, CreatesGap;
    MoveOnIsTheDetection(candles, config, i);
    MoveOnIsTheDetection(candles, config, i - 1);
    MoveOnIsTheDetection(candles[..n], config, i);
    MoveOnIsTheDetection(candles[..n], config, i - 1);
    DisplacementSeesOnlyThePast(candles, config, n, i);
    DisplacementSeesOnlyThePast(candles, config, n, i - 1);
  }

  /** The same gap as seen from the prefix's last bar and from the end of the series. */
  ghost predicate SameGapEarlier(early: FairValueGap, late: FairValueGap, n: nat) {
    && early.index < n
    && early == late.(life := early.life, displacementQuality := early.displacementQuality)
    && (early.index + 1 < n ==> early.displacementQuality == late.displacementQuality)
    && early.life.fill <= late.life.fill
    && (early.life.Dead() ==> early.life == late.life)
    && JudgedAlike(early, late, n - 1)
  }

  /** Displacement and gap detection on one series. */
  datatype GapPipeline = GapPipeline(displacement: DisplacementConfig, gaps: GapConfig) {
    ghost predicate Valid() { displacement.Valid() && gaps.atrPeriod >= 1 }

    function Upto(candles: seq<Candle>, k: nat): seq<FairValueGap>
      requires Valid() && k <= |candles|
    {
      GapsTo(candles, MovesTo(candles, displacement, |candles|), gaps, k)
    }
  }

  lemma OneGapSeesOnlyThePast(p: GapPipeline, candles: seq<Candle>, n: nat, i: nat)
    requires p.Valid() && i < n <= |candles| && IsGap(candles[..n], p.gaps, i) && IsGap(candles, p.gaps, i)
    ensures SameGapEarlier(
              GapOf(candles[..n], p.gaps, Impulse(MovesTo(candles[..n], p.displacement, n), i), i),
              GapOf(candles, p.gaps, Impulse(MovesTo(candles, p.displacement, |candles|), i), i), n)
  {
    hide Atr, LifeTo, MovesTo, Impulse;
    var zone := Imbalance(candles, i).value;
    AtrSeesOnlyThePast(candles, p.gaps.atrPeriod, n, i);
    GapSeesOnlyThePast(candles, p.gaps, n, i);
    ImpulseSeesOnlyThePast(candles, p.displacement, n, i);
    LifeSeesOnlyThePast(candles, zone, n, i + 1, n);
    DeathIsFinal(candles, zone, i + 1, n, |candles|);
    var early := GapOf(candles[..n], p.gaps, Impulse(MovesTo(candles[..n], p.displacement, n), i), i);
    var late := GapOf(candles, p.gaps, Impulse(MovesTo(candles, p.displacement, |candles|), i), i);
    LivenessNeedsOnlyThePast(late, early, candles, n);
  }

  lemma {:induction false} GapsSeeOnlyThePast(p: GapPipeline, candles: seq<Candle>, n: nat, k: nat)
    requires p.Valid() && k <= n <= |candles|
    ensures |p.Upto(candles[..n], k)| == |p.Upto(candles, k)|
    ensures forall j :: 0 <= j < |p.Upto(candles, k)| ==> SameGapEarlier(p.Upto(candles[..n], k)[j], p.Upto(candles, k)[j], n)
  {
    hide IsGap, GapOf, Impulse, MovesTo, SameGapEarlier;
    if k > 0 {
      GapsSeeOnlyThePast(p, candles, n, k - 1);
      GapSeesOnlyThePast(candles, p.gaps, n, k - 1);
      if IsGap(candles, p.gaps, k - 1) {
        OneGapSeesOnlyThePast(p, candles, n, k - 1);
      }
    }
  }

  lemma {:induction false} LaterBarsOnlyAddLaterGaps(p: GapPipeline, candles: seq<Candle>, n: nat, k: nat)
    requires p.Valid() && n <= k <= |candles|
    ensures p.Upto(candles, n) <= p.Upto(candles, k)
    ensures forall j :: |p.Upto(candles, n)| <= j < |p.Upto(candles, k)| ==> n <= p.Upto(candles, k)[j].index
  {
    if n < k {
      LaterBarsOnlyAddLaterGaps(p, candles, n, k - 1);
    }
  }

  /**
   Analysing the first n bars finds exactly the gaps of the full analysis on those bars,
   and judges each live or dead at bar n - 1 exactly as the full analysis does. Bars added
   later can fill or end a gap, never empty or revive it. Only the copied displacement
   quality of a gap on bar n - 1 may differ.
   */
  lemma AnalysisOfAPrefixFiltersTheGaps(p: GapPipeline, candles: seq<Candle>, n: nat)
    requires p.Valid() && n <= |candles|
    ensures
      var early, late := p.Upto(candles[..n], n), p.Upto(candles, |candles|);
      && |early| <= |late|
      && (forall j :: 0 <= j < |early| ==> SameGapEarlier(early[j], late[j], n))
      && (forall j :: |early| <= j < |late| ==> n <= late[j].index)
  {
    hide GapsTo, SameGapEarlier;
    GapsSeeOnlyThePast(p, candles, n, n);
    LaterBarsOnlyAddLaterGaps(p, candles, n, |candles|);
  }
}
