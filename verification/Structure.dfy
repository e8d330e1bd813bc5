/** Breaks of structure and changes of character, confirmed by closes against confirmed swings. */
module Structure {
  import opened Wrappers
  import opened Indicators
  import opened Swings
  import opened Displacement

  datatype EventType = BOS | CHoCH

  datatype StructureEvent = StructureEvent(
    index: nat, direction: Bias, kind: EventType, level: real, levelIndex: nat, close: real,
    displaced: bool, displacementQuality: real, clearanceAtr: real)

  /** What the loop carries from bar to bar. */
  datatype State = State(events: seq<StructureEvent>, broken: set<(Side, nat)>, trend: Option<Bias>)

  const INITIAL := State([], {}, None)

  datatype StructureConfig = StructureConfig(atrPeriod: nat, bufferAtr: real)

  /** The latest point before bar i whose level is still unbroken. */
  function Target(points: seq<SwingPoint>, side: Side, broken: set<(Side, nat)>, i: nat): (t: Option<SwingPoint>)
    ensures t.Some? ==> t.value in points && t.value.index < i && (side, t.value.index) !in broken
    ensures t.None? ==> forall p :: p in points && p.index < i ==> (side, p.index) in broken
  {
    if points == [] then None
    else
      var last := points[|points| - 1];
      if last.index < i && (side, last.index) !in broken then Some(last)
      else Target(points[..|points| - 1], side, broken, i)
  }

  /** How far beyond the level a close is, in the direction a break of that side goes. */
  function Beyond(close: real, side: Side, level: real): real {
    if side == High then close - level else level - close
  }

  function Broken(side: Side): Bias { if side == High then Bullish else Bearish }

  function Against(side: Side): Bias { if side == High then Bearish else Bullish }

  predicate Breaks(close: real, side: Side, target: Option<SwingPoint>, buffer: real) {
    target.Some? && Beyond(close, side, target.value.price) > buffer
  }

  function InAtr(distance: real, atr: real): real
    requires atr > 0.0
  {
    distance / atr
  }

  /** The event a break of `target` on bar i amounts to. */
  function BreakEvent(
    candle: Candle, i: nat, side: Side, target: SwingPoint, trend: Option<Bias>, move: Option<Move>, atr: real): StructureEvent
    requires atr > 0.0
  {
    StructureEvent(
      i, Broken(side), if trend == Some(Against(side)) then CHoCH else BOS, target.price, target.index, candle.close,
      move.Some?, if move.Some? then move.value.quality else 0.0,
      InAtr(Beyond(candle.close, side, target.price), atr))
  }

  /** The trend in force at bar i: inferred from the swings until something has set it. */
  function TrendAt(trend: Option<Bias>, highs: seq<SwingPoint>, lows: seq<SwingPoint>): Option<Bias> {
    if trend.Some? then trend
    else if SwingBias(highs, lows) != Neutral then Some(SwingBias(highs, lows))
    else None
  }

  /** One bar, given the swings known at it, its ATR and the displacement found at it or one bar back. */
  function BarStep(
    candle: Candle, i: nat, highs: seq<SwingPoint>, lows: seq<SwingPoint>, atr: real, move: Option<Move>,
    bufferAtr: real, s: State): State
  {
    if atr <= 0.0 then s
    else
      var trend := TrendAt(s.trend, highs, lows);
      var high, low := Target(highs, High, s.broken, i), Target(lows, Low, s.broken, i);
      if Breaks(candle.close, High, high, atr * bufferAtr) then
        Record(s, BreakEvent(candle, i, High, high.value, trend, move, atr), High)
      else if Breaks(candle.close, Low, low, atr * bufferAtr) then
        Record(s, BreakEvent(candle, i, Low, low.value, trend, move, atr), Low)
      else s.(trend := trend)
  }

  function Record(s: State, event: StructureEvent, side: Side): State {
    State(s.events + [event], s.broken + {(side, event.levelIndex)}, Some(event.direction))
  }

  /** The state after the bars before bar n. */
  function RunTo(candles: seq<Candle>, swings: SwingSet, moves: seq<Move>, config: StructureConfig, n: nat): State
    requires config.atrPeriod >= 1 && n <= |candles|
  {
    if n == 0 then INITIAL
    else
      BarStep(candles[n - 1], n - 1, Known(swings.highs, n - 1), Known(swings.lows, n - 1),
              Atr(candles, config.atrPeriod, n - 1), DisplacementNear(moves, n - 1, 1), config.bufferAtr,
              RunTo(candles, swings, moves, config, n - 1))
  }

  lemma RunToStep(candles: seq<Candle>, swings: SwingSet, moves: seq<Move>, config: StructureConfig, i: nat)
    requires config.atrPeriod >= 1 && i < |candles|
    ensures RunTo(candles, swings, moves, config, i + 1)
            == BarStep(candles[i], i, Known(swings.highs, i), Known(swings.lows, i), Atr(candles, config.atrPeriod, i),
                       DisplacementNear(moves, i, 1), config.bufferAtr, RunTo(candles, swings, moves, config, i))
  {
  }

  method KnownPoints(points: seq<SwingPoint>, at: nat) returns (known: seq<SwingPoint>)
    ensures known == Known(points, at)
  {
    known := [];
    for k := 0 to |points|
      invariant known == Known(points[..k], at)
    {
      assert points[..k + 1][..k] == points[..k];
      if points[k].confirmedIndex <= at {
        known := known + [points[k]];
      }
    }
    assert points[..|points|] == points;
  }

  method DetectStructureEvents(candles: seq<Candle>, swings: SwingSet, moves: seq<Move>, config: StructureConfig)
    returns (events: seq<StructureEvent>)
    requires config.atrPeriod >= 1
    ensures events == RunTo(candles, swings, moves, config, |candles|).events
  {
    hide BreakEvent, Beyond, TrendAt, Target, RunTo, Known, Atr, DisplacementNear;
    events := [];
    var broken: set<(Side, nat)> := {};
    var trend := None;
    var atrs := AtrSeries(candles, config.atrPeriod);
    assert State(events, broken, trend) == RunTo(candles, swings, moves, config, 0) by { NothingYet(candles, swings, moves, config); }
    for i := 0 to |candles|
      invariant State(events, broken, trend) == RunTo(candles, swings, moves, config, i)
    {
      RunToStep(candles, swings, moves, config, i);
      var candle, atr := candles[i], atrs[i];
      if atr <= 0.0 {
        continue;
      }
      var buffer := atr * config.bufferAtr;
      var highs := KnownPoints(swings.highs, i);
      var lows := KnownPoints(swings.lows, i);
      trend := TrendAt(trend, highs, lows);
      var high, low := Target(highs, High, broken, i), Target(lows, Low, broken, i);
      if Breaks(candle.close, High, high, buffer) {
        var event := BreakEvent(candle, i, High, high.value, trend, DisplacementNear(moves, i, 1), atr);
        broken := broken + {(High, event.levelIndex)};
        events := events + [event];
        trend := Some(event.direction);
      } else if Breaks(candle.close, Low, low, buffer) {
        var event := BreakEvent(candle, i, Low, low.value, trend, DisplacementNear(moves, i, 1), atr);
        broken := broken + {(Low, event.levelIndex)};
        events := events + [event];
        trend := Some(event.direction);
      }
    }
  }

  lemma NothingYet(candles: seq<Candle>, swings: SwingSet, moves: seq<Move>, config: StructureConfig)
    requires config.atrPeriod >= 1
    ensures RunTo(candles, swings, moves, config, 0) == INITIAL
  {
  }

  // ---------------------------------------------------------------- what every run keeps

  /** Some swing confirmed by the event's bar is the level it broke, cleared by more than the buffer. */
  ghost predicate BrokeAKnownLevel(e: StructureEvent, swings: SwingSet, bufferAtr: real) {
    && e.direction != Neutral
    && e.clearanceAtr > bufferAtr
    && (exists p :: p in (if e.direction == Bullish then swings.highs else swings.lows)
                    && p.index == e.levelIndex && p.price == e.level && p.index < e.index && p.confirmedIndex <= e.index)
  }

  /** The level an event used up. */
  function LevelOf(e: StructureEvent): (Side, nat) { (if e.direction == Bullish then High else Low, e.levelIndex) }

  ghost predicate WellFormed(s: State, swings: SwingSet, bufferAtr: real, n: nat) {
    && (forall e :: e in s.events ==> e.index < n && BrokeAKnownLevel(e, swings, bufferAtr) && LevelOf(e) in s.broken)
    && (forall j, k :: 0 <= j < k < |s.events| ==> s.events[j].index < s.events[k].index && LevelOf(s.events[j]) != LevelOf(s.events[k]))
    && (forall k :: 0 < k < |s.events| ==> (s.events[k].kind == CHoCH <==> s.events[k].direction != s.events[k - 1].direction))
    && (s.events != [] ==> s.trend == Some(s.events[|s.events| - 1].direction))
  }

  lemma ClearanceExceedsTheBuffer(distance: real, atr: real, bufferAtr: real)
    requires atr > 0.0 && distance > atr * bufferAtr
    ensures InAtr(distance, atr) > bufferAtr
  {
    assert distance / atr * atr == distance;
    if distance / atr <= bufferAtr {
      assert distance / atr * atr <= bufferAtr * atr;
    }
  }

  lemma {:induction false} KnownAreConfirmed(points: seq<SwingPoint>, at: int)
    ensures forall p :: p in Known(points, at) <==> p in points && p.confirmedIndex <= at
  {
    if points != [] {
      var n := |points| - 1;
      KnownAreConfirmed(points[..n], at);
      assert points == points[..n] + [points[n]];
    }
  }

  lemma RecordingKeepsRunsWellFormed(
    s: State, swings: SwingSet, bufferAtr: real, candle: Candle, i: nat, side: Side, target: SwingPoint,
    trend: Option<Bias>, move: Option<Move>, atr: real)
    requires WellFormed(s, swings, bufferAtr, i)
    requires atr > 0.0 && Beyond(candle.close, side, target.price) > atr * bufferAtr
    requires target in (if side == High then swings.highs else swings.lows)
    requires target.index < i && target.confirmedIndex <= i && (side, target.index) !in s.broken
    requires s.trend.Some? ==> trend == s.trend
    ensures WellFormed(Record(s, BreakEvent(candle, i, side, target, trend, move, atr), side), swings, bufferAtr, i + 1)
  {
    hide Beyond, InAtr, WellFormed, Record;
    var e := BreakEvent(candle, i, side, target, trend, move, atr);
    ClearanceExceedsTheBuffer(Beyond(candle.close, side, target.price), atr, bufferAtr);
    assert BrokeAKnownLevel(e, swings, bufferAtr);
    DirectionsAreReal(s, swings, bufferAtr, i);
    NewEventKeepsRunsWellFormed(s, swings, bufferAtr, i, side, e);
  }

  lemma DirectionsAreReal(s: State, swings: SwingSet, bufferAtr: real, n: nat)
    requires WellFormed(s, swings, bufferAtr, n)
    ensures s.events != [] ==> s.trend == Some(s.events[|s.events| - 1].direction) && s.trend != Some(Neutral)
  {
  }

  lemma NewEventKeepsRunsWellFormed(s: State, swings: SwingSet, bufferAtr: real, i: nat, side: Side, e: StructureEvent)
    requires WellFormed(s, swings, bufferAtr, i)
    requires BrokeAKnownLevel(e, swings, bufferAtr) && e.index == i && e.direction == Broken(side)
    requires (side, e.levelIndex) !in s.broken
    requires s.events != [] ==> (e.kind == CHoCH <==> e.direction != s.events[|s.events| - 1].direction)
    ensures WellFormed(Record(s, e, side), swings, bufferAtr, i + 1)
  {
    hide BrokeAKnownLevel;
    assert LevelOf(e) == (side, e.levelIndex);
    forall k | 0 <= k < |s.events| ensures LevelOf(s.events[k]) != LevelOf(e) && s.events[k].index < i {
      assert s.events[k] in s.events;
    }
  }

  /**
   In every run each level is broken at most once and only by a bar at or after its
   confirmation, by a close clearing it by more than the buffer; events come in bar order;
   and after the first, an event is a change of character exactly when its direction
   differs from the event before it.
   */
  lemma {:induction false} EveryRunIsWellFormed(
    candles: seq<Candle>, swings: SwingSet, moves: seq<Move>, config: StructureConfig, n: nat)
    requires config.atrPeriod >= 1 && n <= |candles|
    ensures WellFormed(RunTo(candles, swings, moves, config, n), swings, config.bufferAtr, n)
  {
    if n > 0 {
      var i := n - 1;
      EveryRunIsWellFormed(candles, swings, moves, config, i);
      StepKeepsRunsWellFormed(
        RunTo(candles, swings, moves, config, i), swings, config.bufferAtr, candles[i], i,
        Atr(candles, config.atrPeriod, i), DisplacementNear(moves, i, 1));
    }
  }

  lemma StepKeepsRunsWellFormed(
    s: State, swings: SwingSet, bufferAtr: real, candle: Candle, i: nat, atr: real, move: Option<Move>)
    requires WellFormed(s, swings, bufferAtr, i)
    ensures WellFormed(BarStep(candle, i, Known(swings.highs, i), Known(swings.lows, i), atr, move, bufferAtr, s), swings, bufferAtr, i + 1)
  {
    hide Known, Target, Beyond, BreakEvent, Record, BrokeAKnownLevel, LevelOf;
    var highs, lows := Known(swings.highs, i), Known(swings.lows, i);
    KnownAreConfirmed(swings.highs, i);
    KnownAreConfirmed(swings.lows, i);
    if atr > 0.0 {
      var trend := TrendAt(s.trend, highs, lows);
      var high, low := Target(highs, High, s.broken, i), Target(lows, Low, s.broken, i);
      if Breaks(candle.close, High, high, atr * bufferAtr) {
        RecordingKeepsRunsWellFormed(s, swings, bufferAtr, candle, i, High, high.value, trend, move, atr);
      } else if Breaks(candle.close, Low, low, atr * bufferAtr) {
        RecordingKeepsRunsWellFormed(s, swings, bufferAtr, candle, i, Low, low.value, trend, move, atr);
      }
    }
  }

  // ---------------------------------------------------------------- no look-ahead

  /** The whole pipeline on one series. */
  datatype Pipeline = Pipeline(window: nat, displacement: DisplacementConfig, structure: StructureConfig) {
    ghost predicate Valid() { displacement.Valid() && structure.atrPeriod >= 1 }

    function SwingsOf(candles: seq<Candle>): SwingSet {
      SwingSet(Pivots(candles, window, High), Pivots(candles, window, Low))
    }

    function MovesOf(candles: seq<Candle>): seq<Move>
      requires Valid()
    {
      MovesTo(candles, displacement, |candles|)
    }

    /** The structure state the analysis of `candles` is in before its bar n. */
    function StateAt(candles: seq<Candle>, n: nat): State
      requires Valid() && n <= |candles|
    {
      RunTo(candles, SwingsOf(candles), MovesOf(candles), structure, n)
    }

    function Events(candles: seq<Candle>): seq<StructureEvent>
      requires Valid()
    {
      StateAt(candles, |candles|).events
    }
  }

  /** Equal but for the copied displacement quality. */
  ghost predicate SameButQuality(a: StructureEvent, b: StructureEvent) {
    a == b.(displacementQuality := a.displacementQuality)
  }

  /** Two states that agree on everything but the quality of an event on bar `last`. */
  ghost predicate AgreeExcept(a: State, b: State, last: int) {
    && a.broken == b.broken && a.trend == b.trend && |a.events| == |b.events|
    && (forall k :: 0 <= k < |a.events| ==>
          SameButQuality(a.events[k], b.events[k]) && (a.events[k].index != last ==> a.events[k] == b.events[k]))
  }

  lemma BarStepAgrees(
    candle: Candle, i: nat, highs: seq<SwingPoint>, lows: seq<SwingPoint>, atr: real,
    early: Option<Move>, late: Option<Move>, bufferAtr: real, a: State, b: State, n: nat)
    requires i < n && AgreeExcept(a, b, n - 1)
    requires early.Some? == late.Some? && (i + 1 < n ==> early == late)
    ensures AgreeExcept(BarStep(candle, i, highs, lows, atr, early, bufferAtr, a),
                        BarStep(candle, i, highs, lows, atr, late, bufferAtr, b), n - 1)
  {
    hide Target, Beyond, TrendAt, InAtr;
  }

  /**
   No look-ahead: running on the first n bars goes through exactly the states the full run
   goes through, trend and broken levels included. The one thing later bars can change is
   the displacement quality copied into an event on bar n - 1.
   */
  lemma {:induction false} StructureSeesOnlyThePast(p: Pipeline, candles: seq<Candle>, n: nat, m: nat)
    requires p.Valid() && m <= n <= |candles|
    ensures AgreeExcept(p.StateAt(candles[..n], m), p.StateAt(candles, m), n - 1)
  {
    hide Known, Atr, DisplacementNear, MovesTo, BarStep, AgreeExcept;
    if m == 0 {
      AgreeAtTheStart(n);
    } else {
      var i := m - 1;
      var early, late := candles[..n], candles;
      StructureSeesOnlyThePast(p, candles, n, i);
      KnownPivotsArePrefixStable(candles, p.window, High, n, i);
      KnownPivotsArePrefixStable(candles, p.window, Low, n, i);
      AtrSeesOnlyThePast(candles, p.structure.atrPeriod, n, i);
      NearbyMoveIsPrefixStable(candles, p.displacement, n, i);
      RunToStep(early, p.SwingsOf(early), p.MovesOf(early), p.structure, i);
      RunToStep(late, p.SwingsOf(late), p.MovesOf(late), p.structure, i);
      BarStepAgrees(
        late[i], i, Known(Pivots(late, p.window, High), i), Known(Pivots(late, p.window, Low), i),
        Atr(late, p.structure.atrPeriod, i), DisplacementNear(p.MovesOf(early), i, 1), DisplacementNear(p.MovesOf(late), i, 1),
        p.structure.bufferAtr, p.StateAt(early, i), p.StateAt(late, i), n);
    }
  }

  lemma AgreeAtTheStart(n: nat)
    ensures AgreeExcept(INITIAL, INITIAL, n - 1)
  {
  }

  lemma BarStepOnlyAppends(
    candle: Candle, i: nat, highs: seq<SwingPoint>, lows: seq<SwingPoint>, atr: real, move: Option<Move>,
    bufferAtr: real, s: State)
    ensures Appends(s.events, BarStep(candle, i, highs, lows, atr, move, bufferAtr, s).events, i)
  {
  }

  /** At most one event more, and that one on bar i. */
  ghost predicate Appends(before: seq<StructureEvent>, after: seq<StructureEvent>, i: nat) {
    after == before || (|after| == |before| + 1 && before <= after && after[|before|].index == i)
  }

  /** Later bars only append. */
  lemma {:induction false} RunsOnlyAppend(
    candles: seq<Candle>, swings: SwingSet, moves: seq<Move>, config: StructureConfig, n: nat, m: nat)
    requires config.atrPeriod >= 1 && n <= m <= |candles|
    ensures
      Continues(RunTo(candles, swings, moves, config, n).events, RunTo(candles, swings, moves, config, m).events, n, m)
  {
    hide *;
    if n == m {
      NothingAppended(RunTo(candles, swings, moves, config, n).events, n);
    } else {
      RunsOnlyAppend(candles, swings, moves, config, n, m - 1);
      RunToStep(candles, swings, moves, config, m - 1);
      var i := m - 1;
      BarStepOnlyAppends(
        candles[i], i, Known(swings.highs, i), Known(swings.lows, i), Atr(candles, config.atrPeriod, i),
        DisplacementNear(moves, i, 1), config.bufferAtr, RunTo(candles, swings, moves, config, i));
      OneMoreContinues(
        RunTo(candles, swings, moves, config, n).events, RunTo(candles, swings, moves, config, i).events,
        RunTo(candles, swings, moves, config, m).events, n, i);
    }
  }

  /** The later list starts with the earlier one and goes on with events on bars n to m. */
  ghost predicate Continues(now: seq<StructureEvent>, later: seq<StructureEvent>, n: nat, m: nat) {
    now <= later && forall k :: |now| <= k < |later| ==> n <= later[k].index < m
  }

  lemma NothingAppended(now: seq<StructureEvent>, n: nat)
    ensures Continues(now, now, n, n)
  {
  }

  lemma OneMoreContinues(now: seq<StructureEvent>, mid: seq<StructureEvent>, later: seq<StructureEvent>, n: nat, i: nat)
    requires n <= i && Continues(now, mid, n, i) && Appends(mid, later, i)
    ensures Continues(now, later, n, i + 1)
  {
  }

  /**
   Analysing the first n bars finds exactly the events the full analysis has on those bars:
   the full list starts with them and goes on with events on later bars. Only the copied
   displacement quality of an event on bar n - 1 may differ.
   */
  lemma AnalysisOfAPrefixFiltersTheFullAnalysis(p: Pipeline, candles: seq<Candle>, n: nat)
    requires p.Valid() && n <= |candles|
    ensures
      var early, late := p.Events(candles[..n]), p.Events(candles);
      && |early| <= |late|
      && (forall k :: 0 <= k < |early| ==> early[k].index < n && SameButQuality(early[k], late[k]))
      && (forall k :: 0 <= k < |early| && early[k].index + 1 < n ==> early[k] == late[k])
      && (forall k :: |early| <= k < |late| ==> n <= late[k].index)
  {
    hide RunTo, WellFormed;
    StructureSeesOnlyThePast(p, candles, n, n);
    RunsOnlyAppend(candles, p.SwingsOf(candles), p.MovesOf(candles), p.structure, n, |candles|);
    RunsOnlyAppend(candles[..n], p.SwingsOf(candles[..n]), p.MovesOf(candles[..n]), p.structure, 0, n);
    NothingYet(candles[..n], p.SwingsOf(candles[..n]), p.MovesOf(candles[..n]), p.structure);
  }
}
