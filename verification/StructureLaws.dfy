/** Which closes are structure events, told from the swings, the closes and the ATR: no break is missed and none is invented. */
module StructureLaws {
  import opened Wrappers
  import opened Indicators
  import opened Swings
  import opened Displacement
  import opened Structure

  function Points(swings: SwingSet, side: Side): seq<SwingPoint> { if side == High then swings.highs else swings.lows }

  function Detected(candles: seq<Candle>, swings: SwingSet, moves: seq<Move>, config: StructureConfig): seq<StructureEvent>
    requires config.atrPeriod >= 1
  {
    RunTo(candles, swings, moves, config, |candles|).events
  }

  /** An event before bar i broke this level. */
  ghost predicate UsedUp(events: seq<StructureEvent>, side: Side, level: nat, i: nat) {
    exists n :: 0 <= n < |events| && events[n].index < i && events[n].levelIndex == level
                && events[n].direction == (if side == High then Bullish else Bearish)
  }

  /** The k-th point is confirmed by bar i, lies before it and was not broken before it. */
  ghost predicate Standing(points: seq<SwingPoint>, side: Side, events: seq<StructureEvent>, i: nat, k: nat) {
    k < |points| && points[k].index < i && points[k].confirmedIndex <= i && !UsedUp(events, side, points[k].index, i)
  }

  ghost predicate LastStanding(points: seq<SwingPoint>, side: Side, events: seq<StructureEvent>, i: nat, k: nat) {
    Standing(points, side, events, i, k) && forall j: nat :: j > k ==> !Standing(points, side, events, i, j)
  }

  /** The k-th point is the latest standing one, and the close is past it by more than the buffer. */
  ghost predicate Clears(
    candles: seq<Candle>, swings: SwingSet, side: Side, events: seq<StructureEvent>, config: StructureConfig, i: nat, k: nat)
    requires config.atrPeriod >= 1 && i < |candles|
  {
    var points := Points(swings, side);
    LastStanding(points, side, events, i, k) && Past(candles[i].close, side, points[k].price, Buffer(candles, config, i))
  }

  /** What a close must clear a level by on bar i. */
  function Buffer(candles: seq<Candle>, config: StructureConfig, i: nat): real
    requires config.atrPeriod >= 1 && i < |candles|
  {
    Atr(candles, config.atrPeriod, i) * config.bufferAtr
  }

  predicate Past(close: real, side: Side, level: real, buffer: real) {
    if side == High then close > level + buffer else close < level - buffer
  }

  ghost predicate ClearsSome(
    candles: seq<Candle>, swings: SwingSet, side: Side, events: seq<StructureEvent>, config: StructureConfig, i: nat)
    requires config.atrPeriod >= 1 && i < |candles|
  {
    exists k: nat :: Clears(candles, swings, side, events, config, i, k)
  }

  /** The event names the level the close cleared. */
  ghost predicate Names(
    e: StructureEvent, candles: seq<Candle>, swings: SwingSet, side: Side, events: seq<StructureEvent>, config: StructureConfig, i: nat)
    requires config.atrPeriod >= 1 && i < |candles|
  {
    exists k: nat ::
      && Clears(candles, swings, side, events, config, i, k)
      && e.level == Points(swings, side)[k].price && e.levelIndex == Points(swings, side)[k].index
  }

  ghost predicate Free(points: seq<SwingPoint>, side: Side, broken: set<(Side, nat)>, i: nat, k: nat) {
    k < |points| && points[k].index < i && points[k].confirmedIndex <= i && (side, points[k].index) !in broken
  }

  /** The latest free point among the first n. */
  ghost predicate IsLastFree(points: seq<SwingPoint>, side: Side, broken: set<(Side, nat)>, i: nat, n: nat, k: nat) {
    k < n && Free(points, side, broken, i, k) && forall j :: k < j < n ==> !Free(points, side, broken, i, j)
  }

  /** What the lookup over a run's state finds is the latest free point. */
  lemma {:induction false} TargetIsTheLatest(points: seq<SwingPoint>, side: Side, broken: set<(Side, nat)>, i: nat, n: nat)
    requires n <= |points|
    ensures
      var target := Target(Known(points[..n], i), side, broken, i);
      && (target.None? ==> forall k :: 0 <= k < n ==> !Free(points, side, broken, i, k))
      && (target.Some? ==> exists k: nat :: IsLastFree(points, side, broken, i, n, k) && target.value == points[k])
  {
    if n > 0 {
      OnePointMore(points, side, broken, i, n - 1);
      TargetIsTheLatest(points, side, broken, i, n - 1);
      hide Known, Target, Free, IsLastFree;
      var earlier := Target(Known(points[..n - 1], i), side, broken, i);
      if Free(points, side, broken, i, n - 1) {
        LastFreeOfOneMore(points, side, broken, i, n, n - 1);
      } else if earlier.Some? {
        var k: nat :| IsLastFree(points, side, broken, i, n - 1, k) && earlier.value == points[k];
        LastFreeOfOneMore(points, side, broken, i, n, k);
      }
    }
  }

  lemma LastFreeOfOneMore(points: seq<SwingPoint>, side: Side, broken: set<(Side, nat)>, i: nat, n: nat, k: nat)
    requires 0 < n <= |points|
    requires if Free(points, side, broken, i, n - 1) then k == n - 1 else IsLastFree(points, side, broken, i, n - 1, k)
    ensures IsLastFree(points, side, broken, i, n, k)
  {
    hide Free;
  }

  lemma OnePointMore(points: seq<SwingPoint>, side: Side, broken: set<(Side, nat)>, i: nat, n: nat)
    requires n < |points|
    ensures Target(Known(points[..n + 1], i), side, broken, i)
            == if Free(points, side, broken, i, n) then Some(points[n]) else Target(Known(points[..n], i), side, broken, i)
  {
    var earlier, known := Known(points[..n], i), Known(points[..n + 1], i);
    assert points[..n + 1][..n] == points[..n];
    if points[n].confirmedIndex <= i {
      assert known == earlier + [points[n]];
      assert known[..|known| - 1] == earlier;
    } else {
      assert known == earlier;
    }
  }

  // ---------------------------------------------------------------- levels used up

  lemma {:induction false} BrokenIsUsedUp(
    candles: seq<Candle>, swings: SwingSet, moves: seq<Move>, config: StructureConfig, n: nat, side: Side, level: nat)
    requires config.atrPeriod >= 1 && n <= |candles|
    ensures
      var s := RunTo(candles, swings, moves, config, n);
      (side, level) in s.broken <==> UsedUp(s.events, side, level, n)
  {
    if n > 0 {
      var i := n - 1;
      BrokenIsUsedUp(candles, swings, moves, config, i, side, level);
      EveryRunIsWellFormed(candles, swings, moves, config, i);
      RunToStep(candles, swings, moves, config, i);
      hide RunTo, Known, Atr, DisplacementNear;
      StepUsesUp(
        candles[i], i, Known(swings.highs, i), Known(swings.lows, i), Atr(candles, config.atrPeriod, i), DisplacementNear(moves, i, 1),
        config.bufferAtr, RunTo(candles, swings, moves, config, i), side, level);
    }
  }

  lemma StepUsesUp(
    candle: Candle, i: nat, highs: seq<SwingPoint>, lows: seq<SwingPoint>, atr: real, move: Option<Move>, bufferAtr: real, s: State,
    side: Side, level: nat)
    requires forall e :: e in s.events ==> e.index < i
    requires (side, level) in s.broken <==> UsedUp(s.events, side, level, i)
    ensures
      var after := BarStep(candle, i, highs, lows, atr, move, bufferAtr, s);
      (side, level) in after.broken <==> UsedUp(after.events, side, level, i + 1)
  {
    hide Target, TrendAt, InAtr, Beyond;
    var after := BarStep(candle, i, highs, lows, atr, move, bufferAtr, s);
    if UsedUp(s.events, side, level, i) {
      var n :| 0 <= n < |s.events| && s.events[n].index < i && s.events[n].levelIndex == level
               && s.events[n].direction == (if side == High then Bullish else Bearish);
      assert after.events[n] == s.events[n];
    }
    if after.events != s.events {
      var e := after.events[|s.events|];
      assert after.broken == s.broken + {(if e.direction == Bullish then High else Low, e.levelIndex)};
    }
  }

  /** Which levels are used up at bar i is the same told from the events before it or from all of them. */
  lemma UsedUpIsSettled(
    candles: seq<Candle>, swings: SwingSet, moves: seq<Move>, config: StructureConfig, i: nat, side: Side, level: nat)
    requires config.atrPeriod >= 1 && i <= |candles|
    ensures UsedUp(Detected(candles, swings, moves, config), side, level, i)
            <==> (side, level) in RunTo(candles, swings, moves, config, i).broken
  {
    BrokenIsUsedUp(candles, swings, moves, config, i, side, level);
    RunsOnlyAppend(candles, swings, moves, config, i, |candles|);
    EveryRunIsWellFormed(candles, swings, moves, config, i);
    hide RunTo, BrokeAKnownLevel;
    var before, all := RunTo(candles, swings, moves, config, i).events, Detected(candles, swings, moves, config);
    if UsedUp(before, side, level, i) {
      var n :| 0 <= n < |before| && before[n].index < i && before[n].levelIndex == level
               && before[n].direction == (if side == High then Bullish else Bearish);
      assert all[n] == before[n];
    }
  }

  lemma StandingIsFree(
    candles: seq<Candle>, swings: SwingSet, moves: seq<Move>, config: StructureConfig, i: nat, side: Side, points: seq<SwingPoint>, k: nat)
    requires config.atrPeriod >= 1 && i <= |candles|
    ensures Standing(points, side, Detected(candles, swings, moves, config), i, k)
            <==> Free(points, side, RunTo(candles, swings, moves, config, i).broken, i, k)
  {
    if k < |points| {
      UsedUpIsSettled(candles, swings, moves, config, i, side, points[k].index);
    }
    hide RunTo, UsedUp, Detected;
  }

  // ---------------------------------------------------------------- one side of one bar

  ghost predicate PastLast(
    points: seq<SwingPoint>, side: Side, broken: set<(Side, nat)>, i: nat, close: real, buffer: real, k: nat)
  {
    IsLastFree(points, side, broken, i, |points|, k) && Past(close, side, points[k].price, buffer)
  }

  lemma BreaksIsPastLast(points: seq<SwingPoint>, side: Side, broken: set<(Side, nat)>, i: nat, close: real, buffer: real)
    ensures
      var target := Target(Known(points, i), side, broken, i);
      && (Breaks(close, side, target, buffer) <==> exists k: nat :: PastLast(points, side, broken, i, close, buffer, k))
      && (Breaks(close, side, target, buffer) ==>
            exists k: nat :: PastLast(points, side, broken, i, close, buffer, k) && target == Some(points[k]))
  {
    var target := Target(Known(points, i), side, broken, i);
    TargetIsTheLatest(points, side, broken, i, |points|);
    assert points[..|points|] == points;
    hide Known, Target, Free;
    if target.Some? {
      var k: nat :| IsLastFree(points, side, broken, i, |points|, k) && target.value == points[k];
      forall other: nat | PastLast(points, side, broken, i, close, buffer, other) ensures other == k {
      }
      if Breaks(close, side, target, buffer) {
        assert PastLast(points, side, broken, i, close, buffer, k);
      }
    }
  }

  lemma LastStandingIsLastFree(
    candles: seq<Candle>, swings: SwingSet, moves: seq<Move>, config: StructureConfig, i: nat, side: Side, points: seq<SwingPoint>, k: nat)
    requires config.atrPeriod >= 1 && i < |candles|
    ensures LastStanding(points, side, Detected(candles, swings, moves, config), i, k)
            <==> IsLastFree(points, side, RunTo(candles, swings, moves, config, i).broken, i, |points|, k)
  {
    var events, broken := Detected(candles, swings, moves, config), RunTo(candles, swings, moves, config, i).broken;
    forall j: nat ensures Standing(points, side, events, i, j) <==> Free(points, side, broken, i, j) {
      StandingIsFree(candles, swings, moves, config, i, side, points, j);
    }
    FreeIsInRange(points, side, broken, i);
    hide RunTo, Detected, Standing, Free;
  }

  lemma ClearsIsPastLast(
    candles: seq<Candle>, swings: SwingSet, moves: seq<Move>, config: StructureConfig, i: nat, side: Side, k: nat)
    requires config.atrPeriod >= 1 && i < |candles|
    ensures Clears(candles, swings, side, Detected(candles, swings, moves, config), config, i, k)
            <==> PastLast(Points(swings, side), side, RunTo(candles, swings, moves, config, i).broken, i, candles[i].close,
                          Buffer(candles, config, i), k)
  {
    LastStandingIsLastFree(candles, swings, moves, config, i, side, Points(swings, side), k);
    hide RunTo, Detected, LastStanding, IsLastFree, Buffer, Past, Points;
  }

  lemma FreeIsInRange(points: seq<SwingPoint>, side: Side, broken: set<(Side, nat)>, i: nat)
    ensures forall k: nat :: Free(points, side, broken, i, k) ==> k < |points|
  {
  }

  /** The level the step looks at is broken exactly when the close clears the latest standing point. */
  lemma BreaksIsClears(
    candles: seq<Candle>, swings: SwingSet, moves: seq<Move>, config: StructureConfig, i: nat, side: Side)
    requires config.atrPeriod >= 1 && i < |candles|
    ensures
      var points, events := Points(swings, side), Detected(candles, swings, moves, config);
      var target := Target(Known(points, i), side, RunTo(candles, swings, moves, config, i).broken, i);
      && (Breaks(candles[i].close, side, target, Buffer(candles, config, i))
          <==> ClearsSome(candles, swings, side, events, config, i))
      && (ClearsSome(candles, swings, side, events, config, i) ==>
            exists k: nat :: Clears(candles, swings, side, events, config, i, k) && target == Some(points[k]))
  {
    var points, buffer := Points(swings, side), Buffer(candles, config, i);
    var broken := RunTo(candles, swings, moves, config, i).broken;
    BreaksIsPastLast(points, side, broken, i, candles[i].close, buffer);
    forall k: nat
      ensures Clears(candles, swings, side, Detected(candles, swings, moves, config), config, i, k)
              <==> PastLast(points, side, broken, i, candles[i].close, buffer, k)
    {
      ClearsIsPastLast(candles, swings, moves, config, i, side, k);
    }
    hide RunTo, Detected, Target, Known, Buffer, Clears, PastLast, Points, Breaks;
  }

  // ---------------------------------------------------------------- one bar

  ghost predicate Lately(moves: seq<Move>, i: nat) { exists m :: m in moves && m.index <= i <= m.index + 1 }

  /** So many ATRs are this distance. */
  predicate Measures(clearance: real, atr: real, distance: real) { clearance * atr == distance }

  lemma InAtrMeasures(distance: real, atr: real)
    requires atr > 0.0
    ensures Measures(InAtr(distance, atr), atr, distance)
  {
  }

  /** What an event says of its bar: the level cleared, by how much, and whether the move there was a displacement. */
  ghost predicate Tells(
    e: StructureEvent, candles: seq<Candle>, swings: SwingSet, moves: seq<Move>, events: seq<StructureEvent>, config: StructureConfig)
    requires config.atrPeriod >= 1
  {
    var i := e.index;
    && i < |candles| && Atr(candles, config.atrPeriod, i) > 0.0 && e.close == candles[i].close
    && (var up := ClearsSome(candles, swings, High, events, config, i);
        && e.direction == (if up then Bullish else Bearish)
        && Names(e, candles, swings, if up then High else Low, events, config, i)
        && Measures(e.clearanceAtr, Atr(candles, config.atrPeriod, i), if up then e.close - e.level else e.level - e.close))
    && (e.displaced <==> Lately(moves, i))
    && (!e.displaced ==> e.displacementQuality == 0.0)
    && (e.displaced ==> exists m :: m in moves && m.index <= i <= m.index + 1 && e.displacementQuality == m.quality
                                    && forall other :: other in moves && other.index <= i ==> other.index <= m.index)
  }

  /** What one bar's step records is told by the bar. */
  lemma RecordedIsTold(
    candles: seq<Candle>, swings: SwingSet, moves: seq<Move>, config: StructureConfig, i: nat, side: Side, target: SwingPoint,
    trend: Option<Bias>, events: seq<StructureEvent>)
    requires config.atrPeriod >= 1 && i < |candles| && Atr(candles, config.atrPeriod, i) > 0.0
    requires side == if ClearsSome(candles, swings, High, events, config, i) then High else Low
    requires exists k: nat :: Clears(candles, swings, side, events, config, i, k) && target == Points(swings, side)[k]
    ensures
      var move, atr := DisplacementNear(moves, i, 1), Atr(candles, config.atrPeriod, i);
      var e := BreakEvent(candles[i], i, side, target, trend, move, atr);
      && Tells(e, candles, swings, moves, events, config) && e.index == i
      && (e.kind == CHoCH <==> trend == Some(if e.direction == Bullish then Bearish else Bullish))
  {
    var move, atr := DisplacementNear(moves, i, 1), Atr(candles, config.atrPeriod, i);
    var e := BreakEvent(candles[i], i, side, target, trend, move, atr);
    InAtrMeasures(Beyond(candles[i].close, side, target.price), atr);
    hide Clears, DisplacementNear, Atr, Points, InAtr, Measures;
    assert Names(e, candles, swings, side, events, config, i);
  }

  /** The bar breaks a level, on either side. */
  ghost predicate ABreak(candles: seq<Candle>, swings: SwingSet, events: seq<StructureEvent>, config: StructureConfig, i: nat)
    requires config.atrPeriod >= 1 && i < |candles|
  {
    && Atr(candles, config.atrPeriod, i) > 0.0
    && (ClearsSome(candles, swings, High, events, config, i) || ClearsSome(candles, swings, Low, events, config, i))
  }

  /** The events after the bar are those before it and one that tells the bar's break. */
  ghost predicate AddsItsBreak(
    before: seq<StructureEvent>, after: seq<StructureEvent>, candles: seq<Candle>, swings: SwingSet, moves: seq<Move>,
    events: seq<StructureEvent>, config: StructureConfig, trend: Option<Bias>, i: nat)
    requires config.atrPeriod >= 1
  {
    && |after| == |before| + 1 && before <= after
    && var e := after[|before|];
       && e.index == i && Tells(e, candles, swings, moves, events, config)
       && (e.kind == CHoCH <==> trend == Some(if e.direction == Bullish then Bearish else Bullish))
  }

  lemma RecordingAdds(
    candles: seq<Candle>, swings: SwingSet, moves: seq<Move>, config: StructureConfig, i: nat, side: Side, target: Option<SwingPoint>,
    trend: Option<Bias>, events: seq<StructureEvent>, before: seq<StructureEvent>, after: seq<StructureEvent>)
    requires config.atrPeriod >= 1 && i < |candles| && Atr(candles, config.atrPeriod, i) > 0.0
    requires side == if ClearsSome(candles, swings, High, events, config, i) then High else Low
    requires exists k: nat :: Clears(candles, swings, side, events, config, i, k) && target == Some(Points(swings, side)[k])
    requires after == before + [BreakEvent(candles[i], i, side, target.value, trend, DisplacementNear(moves, i, 1),
                                           Atr(candles, config.atrPeriod, i))]
    ensures AddsItsBreak(before, after, candles, swings, moves, events, config, trend, i)
  {
    hide BreakEvent, Tells, Clears, ClearsSome, Points, DisplacementNear, Atr;
    RecordedIsTold(candles, swings, moves, config, i, side, target.value, trend, events);
  }

  /** One bar adds an event exactly when it breaks a level, and the event tells the break. */
  lemma BarAddsItsBreak(candles: seq<Candle>, swings: SwingSet, moves: seq<Move>, config: StructureConfig, i: nat)
    requires config.atrPeriod >= 1 && i < |candles|
    ensures
      var before, after := RunTo(candles, swings, moves, config, i), RunTo(candles, swings, moves, config, i + 1);
      var events := Detected(candles, swings, moves, config);
      var trend := TrendAt(before.trend, Known(swings.highs, i), Known(swings.lows, i));
      if ABreak(candles, swings, events, config, i) then
        AddsItsBreak(before.events, after.events, candles, swings, moves, events, config, trend, i)
      else
        after.events == before.events
        && after.trend == if Atr(candles, config.atrPeriod, i) > 0.0 then trend else before.trend
  {
    var before, events := RunTo(candles, swings, moves, config, i), Detected(candles, swings, moves, config);
    var after := RunTo(candles, swings, moves, config, i + 1);
    var atr, highs, lows := Atr(candles, config.atrPeriod, i), Known(swings.highs, i), Known(swings.lows, i);
    var high, low := Target(highs, High, before.broken, i), Target(lows, Low, before.broken, i);
    var trend, move := TrendAt(before.trend, highs, lows), DisplacementNear(moves, i, 1);
    hide *;
    RunToStep(candles, swings, moves, config, i);
    BreaksIsClears(candles, swings, moves, config, i, High);
    BreaksIsClears(candles, swings, moves, config, i, Low);
    PointsAre(swings);
    StepAdds(candles, config, i, highs, lows, move, before);
    BreaksMean(candles, swings, events, config, i);
    if ABreak(candles, swings, events, config, i) {
      if ClearsSome(candles, swings, High, events, config, i) {
        RecordingAdds(candles, swings, moves, config, i, High, high, trend, events, before.events, after.events);
      } else {
        RecordingAdds(candles, swings, moves, config, i, Low, low, trend, events, before.events, after.events);
      }
    }
  }

  lemma PointsAre(swings: SwingSet)
    ensures Points(swings, High) == swings.highs && Points(swings, Low) == swings.lows
  {
  }

  lemma BreaksMean(candles: seq<Candle>, swings: SwingSet, events: seq<StructureEvent>, config: StructureConfig, i: nat)
    requires config.atrPeriod >= 1 && i < |candles|
    ensures ABreak(candles, swings, events, config, i)
            <==> Atr(candles, config.atrPeriod, i) > 0.0
                 && (ClearsSome(candles, swings, High, events, config, i) || ClearsSome(candles, swings, Low, events, config, i))
  {
  }

  /** What the step of bar i does, with its buffer worked out. */
  lemma StepAdds(
    candles: seq<Candle>, config: StructureConfig, i: nat, highs: seq<SwingPoint>, lows: seq<SwingPoint>, move: Option<Move>, s: State)
    requires config.atrPeriod >= 1 && i < |candles|
    ensures
      var candle, atr, buffer := candles[i], Atr(candles, config.atrPeriod, i), Buffer(candles, config, i);
      var after, trend := BarStep(candle, i, highs, lows, atr, move, config.bufferAtr, s), TrendAt(s.trend, highs, lows);
      var high, low := Target(highs, High, s.broken, i), Target(lows, Low, s.broken, i);
      var up, down := Breaks(candle.close, High, high, buffer), Breaks(candle.close, Low, low, buffer);
      && (up ==> high.Some?) && (down ==> low.Some?)
      && if atr > 0.0 && up then after.events == s.events + [BreakEvent(candle, i, High, high.value, trend, move, atr)]
         else if atr > 0.0 && down then after.events == s.events + [BreakEvent(candle, i, Low, low.value, trend, move, atr)]
         else after.events == s.events && after.trend == if atr > 0.0 then trend else s.trend
  {
    hide Target, TrendAt, BreakEvent, Beyond, Atr;
  }

  // ---------------------------------------------------------------- every bar

  /** The events on bars before i, then the one on bar i if there is one, then the later ones. */
  lemma EventsAroundABar(candles: seq<Candle>, swings: SwingSet, moves: seq<Move>, config: StructureConfig, i: nat)
    requires config.atrPeriod >= 1 && i <= |candles|
    ensures
      var before, events := RunTo(candles, swings, moves, config, i).events, Detected(candles, swings, moves, config);
      && before <= events
      && (forall n :: 0 <= n < |before| ==> events[n].index < i)
      && (forall n :: |before| <= n < |events| ==> i <= events[n].index < |candles|)
  {
    RunsOnlyAppend(candles, swings, moves, config, i, |candles|);
    EveryRunIsWellFormed(candles, swings, moves, config, i);
    hide RunTo, BrokeAKnownLevel;
    var before := RunTo(candles, swings, moves, config, i).events;
    forall n | 0 <= n < |before| ensures before[n].index < i {
      assert before[n] in before;
    }
  }

  /**
   A bar carries an event if and only if its ATR is positive and its close is past, by more
   than the buffer, the latest confirmed high, or the latest confirmed low, that no event
   before the bar used up. No break is missed, and there is no other event.
   */
  lemma EventsAreExactlyTheBreaks(candles: seq<Candle>, swings: SwingSet, moves: seq<Move>, config: StructureConfig, i: nat)
    requires config.atrPeriod >= 1 && i < |candles|
    ensures
      var events := Detected(candles, swings, moves, config);
      (exists n :: 0 <= n < |events| && events[n].index == i) <==> ABreak(candles, swings, events, config, i)
  {
    EventsAroundABar(candles, swings, moves, config, i);
    EventsAroundABar(candles, swings, moves, config, i + 1);
    BarAddsItsBreak(candles, swings, moves, config, i);
    hide RunTo, Detected, ABreak, Tells, TrendAt, Known, Atr;
    var events, before := Detected(candles, swings, moves, config), RunTo(candles, swings, moves, config, i).events;
    if ABreak(candles, swings, events, config, i) {
      assert events[|before|].index == i;
    }
  }

  /** Each event was added by its own bar, to the events before it. */
  lemma EventIsAdded(candles: seq<Candle>, swings: SwingSet, moves: seq<Move>, config: StructureConfig, n: nat)
    requires config.atrPeriod >= 1 && n < |Detected(candles, swings, moves, config)|
    ensures
      var events := Detected(candles, swings, moves, config);
      var i := events[n].index;
      && i < |candles|
      && var before, after := RunTo(candles, swings, moves, config, i), RunTo(candles, swings, moves, config, i + 1);
         && |before.events| == n && |after.events| == n + 1 && after.events[n] == events[n]
         && AddsItsBreak(before.events, after.events, candles, swings, moves, events, config,
                         TrendAt(before.trend, Known(swings.highs, i), Known(swings.lows, i)), i)
  {
    hide *;
    var events := Detected(candles, swings, moves, config);
    var i := events[n].index;
    EventsAroundABar(candles, swings, moves, config, 0);
    NoEventsYet(candles, swings, moves, config);
    EventsAroundABar(candles, swings, moves, config, i);
    EventsAroundABar(candles, swings, moves, config, i + 1);
    BarAddsItsBreak(candles, swings, moves, config, i);
    var before, after := RunTo(candles, swings, moves, config, i), RunTo(candles, swings, moves, config, i + 1);
    AddsOne(before.events, after.events, candles, swings, moves, events, config,
            TrendAt(before.trend, Known(swings.highs, i), Known(swings.lows, i)), i);
  }

  lemma NoEventsYet(candles: seq<Candle>, swings: SwingSet, moves: seq<Move>, config: StructureConfig)
    requires config.atrPeriod >= 1
    ensures RunTo(candles, swings, moves, config, 0).events == []
  {
  }

  lemma AddsOne(
    before: seq<StructureEvent>, after: seq<StructureEvent>, candles: seq<Candle>, swings: SwingSet, moves: seq<Move>,
    events: seq<StructureEvent>, config: StructureConfig, trend: Option<Bias>, i: nat)
    requires config.atrPeriod >= 1
    ensures AddsItsBreak(before, after, candles, swings, moves, events, config, trend, i) ==> |after| == |before| + 1
  {
  }

  /**
   Each event tells its bar: bullish when a high is cleared, bearish when only a low is, with
   that level, the close and the clearance; displaced exactly when a displacement is on the
   bar or the one before it, with the quality of the later of the two.
   */
  lemma EachEventTellsItsBreak(candles: seq<Candle>, swings: SwingSet, moves: seq<Move>, config: StructureConfig, n: nat)
    requires config.atrPeriod >= 1 && n < |Detected(candles, swings, moves, config)|
    ensures
      var events := Detected(candles, swings, moves, config);
      Tells(events[n], candles, swings, moves, events, config)
  {
    EventIsAdded(candles, swings, moves, config, n);
    hide RunTo, Detected, ABreak, Tells, TrendAt, Known, Atr;
  }

  // ---------------------------------------------------------------- the kind of an event

  /** What the swings confirmed by a bar lean to. */
  function Lean(swings: SwingSet, i: nat): Bias { SwingBias(Known(swings.highs, i), Known(swings.lows, i)) }

  /** Bar j is the first with a positive ATR by which the swings lean either way. */
  ghost predicate LeansFirst(candles: seq<Candle>, swings: SwingSet, config: StructureConfig, j: nat)
    requires config.atrPeriod >= 1
  {
    && j < |candles| && Atr(candles, config.atrPeriod, j) > 0.0 && Lean(swings, j) != Neutral
    && forall m :: 0 <= m < j && Atr(candles, config.atrPeriod, m) > 0.0 ==> Lean(swings, m) == Neutral
  }

  /** The trend is what the swings leaned to first before bar i, if they leaned at all. */
  ghost predicate IsFirstLean(candles: seq<Candle>, swings: SwingSet, config: StructureConfig, trend: Option<Bias>, i: nat)
    requires config.atrPeriod >= 1 && i <= |candles|
  {
    && (trend.None? ==> forall m :: 0 <= m < i && Atr(candles, config.atrPeriod, m) > 0.0 ==> Lean(swings, m) == Neutral)
    && (trend.Some? ==> exists j: nat :: j < i && LeansFirst(candles, swings, config, j) && trend == Some(Lean(swings, j)))
  }

  lemma FirstLeanStep(candles: seq<Candle>, swings: SwingSet, config: StructureConfig, trend: Option<Bias>, i: nat)
    requires config.atrPeriod >= 1 && i < |candles| && IsFirstLean(candles, swings, config, trend, i)
    ensures
      var after := if Atr(candles, config.atrPeriod, i) > 0.0 then TrendAt(trend, Known(swings.highs, i), Known(swings.lows, i)) else trend;
      IsFirstLean(candles, swings, config, after, i + 1)
  {
    hide Known, Atr, SwingBias;
    if trend.None? && Atr(candles, config.atrPeriod, i) > 0.0 && Lean(swings, i) != Neutral {
      assert LeansFirst(candles, swings, config, i);
    }
  }

  lemma {:induction false} TrendBeforeTheFirst(candles: seq<Candle>, swings: SwingSet, moves: seq<Move>, config: StructureConfig, i: nat)
    requires config.atrPeriod >= 1 && i <= |candles| && RunTo(candles, swings, moves, config, i).events == []
    ensures IsFirstLean(candles, swings, config, RunTo(candles, swings, moves, config, i).trend, i)
  {
    hide *;
    if i == 0 {
      NoLeanYet(candles, swings, moves, config);
    } else {
      var before, after := RunTo(candles, swings, moves, config, i - 1), RunTo(candles, swings, moves, config, i);
      BarAddsItsBreak(candles, swings, moves, config, i - 1);
      AddsOne(before.events, after.events, candles, swings, moves, Detected(candles, swings, moves, config), config,
              TrendAt(before.trend, Known(swings.highs, i - 1), Known(swings.lows, i - 1)), i - 1);
      TrendBeforeTheFirst(candles, swings, moves, config, i - 1);
      FirstLeanStep(candles, swings, config, before.trend, i - 1);
    }
  }

  lemma NoLeanYet(candles: seq<Candle>, swings: SwingSet, moves: seq<Move>, config: StructureConfig)
    requires config.atrPeriod >= 1
    ensures IsFirstLean(candles, swings, config, RunTo(candles, swings, moves, config, 0).trend, 0)
  {
  }

  /**
   The first event is a change of character exactly when the swings leaned against it when
   they first leaned at all, on its bar or earlier; any other, exactly when its direction is
   not that of the event before it.
   */
  lemma KindsFollowTheTrend(candles: seq<Candle>, swings: SwingSet, moves: seq<Move>, config: StructureConfig, n: nat)
    requires config.atrPeriod >= 1 && n < |Detected(candles, swings, moves, config)|
    ensures
      var events := Detected(candles, swings, moves, config);
      var e := events[n];
      e.kind == CHoCH
      <==> if n > 0 then e.direction != events[n - 1].direction
           else exists j: nat :: j <= e.index && LeansFirst(candles, swings, config, j)
                                 && Lean(swings, j) == (if e.direction == Bullish then Bearish else Bullish)
  {
    if n > 0 {
      LaterKinds(candles, swings, moves, config, n);
    } else {
      var events := Detected(candles, swings, moves, config);
      var i := events[0].index;
      EventIsAdded(candles, swings, moves, config, 0);
      var before := RunTo(candles, swings, moves, config, i);
      TrendBeforeTheFirst(candles, swings, moves, config, i);
      FirstKind(candles, swings, config, before.trend, i);
      hide RunTo, Detected, Tells, Known, Atr, SwingBias, TrendAt, LeansFirst, Lean, IsFirstLean;
    }
  }

  lemma LaterKinds(candles: seq<Candle>, swings: SwingSet, moves: seq<Move>, config: StructureConfig, n: nat)
    requires config.atrPeriod >= 1 && 0 < n < |Detected(candles, swings, moves, config)|
    ensures
      var events := Detected(candles, swings, moves, config);
      events[n].kind == CHoCH <==> events[n].direction != events[n - 1].direction
  {
    EveryRunIsWellFormed(candles, swings, moves, config, |candles|);
    hide RunTo, BrokeAKnownLevel;
  }

  /** The trend at a bar before the first event is what the swings leaned to first, if they have leaned by then. */
  lemma FirstKind(candles: seq<Candle>, swings: SwingSet, config: StructureConfig, trend: Option<Bias>, i: nat)
    requires config.atrPeriod >= 1 && i < |candles| && Atr(candles, config.atrPeriod, i) > 0.0
    requires IsFirstLean(candles, swings, config, trend, i)
    ensures
      forall bias :: bias != Neutral ==>
        (TrendAt(trend, Known(swings.highs, i), Known(swings.lows, i)) == Some(bias)
         <==> exists j: nat :: j <= i && LeansFirst(candles, swings, config, j) && Lean(swings, j) == bias)
  {
    hide Known, Atr, SwingBias;
    if trend.None? && Lean(swings, i) != Neutral {
      assert LeansFirst(candles, swings, config, i);
    }
  }
}
