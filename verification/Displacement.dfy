/** Energetic, directional candles, and how far their grading can look ahead. */
module Displacement {
  import opened Wrappers
  import opened Prices
  import opened Rounding
  import opened Indicators

  datatype DisplacementConfig = DisplacementConfig(
    atrPeriod: nat, atrMultiple: real, bodyRatio: real, impulseWindow: nat)
  {
    ghost predicate Valid() { atrPeriod >= 1 && atrMultiple > 0.0 && bodyRatio < 1.0 && impulseWindow >= 1 }
  }

  datatype Move = Move(
    index: nat, direction: Bias, body: real, atr: real, multiple: real, ratio: real, leavesGap: bool, quality: real)

  /**
   Did the candle leave a three-candle imbalance? On the last bar the next candle does not
   exist yet, and the two-candle form is used instead.
   */
  predicate CreatesGap(candles: seq<Candle>, i: nat, direction: Bias)
    requires i < |candles|
  {
    if i < 1 then false
    else if i + 1 >= |candles| then
      (if direction == Bullish then candles[i].low > candles[i - 1].high else candles[i].high < candles[i - 1].low)
    else
      (if direction == Bullish then candles[i + 1].low > candles[i - 1].high else candles[i + 1].high < candles[i - 1].low)
  }

  function BodyRatio(candle: Candle, atr: real): real
    requires atr > 0.0
  {
    candle.Body() / (if candle.Range() == 0.0 then atr else candle.Range())
  }

  function NetMove(candles: seq<Candle>, i: nat, window: nat): real
    requires i < |candles| && window >= 1
  {
    candles[i].close - candles[if i + 1 >= window then i + 1 - window else 0].open
  }

  /** The four tests, all on bars up to and including i. */
  predicate IsDisplacement(candles: seq<Candle>, config: DisplacementConfig, i: nat)
    requires config.Valid() && i < |candles|
  {
    var atr := Atr(candles, config.atrPeriod, i);
    && i >= config.atrPeriod / 2
    && atr > 0.0
    && candles[i].Body() / atr >= config.atrMultiple
    && BodyRatio(candles[i], atr) >= config.bodyRatio
    && candles[i].Tendency() != Neutral
    && (candles[i].Tendency() == Bullish ==> NetMove(candles, i, config.impulseWindow) > 0.0)
    && (candles[i].Tendency() == Bearish ==> NetMove(candles, i, config.impulseWindow) < 0.0)
  }

  function Quality(config: DisplacementConfig, multiple: real, ratio: real, leavesGap: bool): real
    requires config.Valid()
  {
    Min(1.0,
        0.45 * Min(multiple / (config.atrMultiple * 2.0), 1.0)
        + 0.35 * Min((ratio - config.bodyRatio) / (1.0 - config.bodyRatio), 1.0)
        + (if leavesGap then 0.20 else 0.05))
  }

  function MoveAt(candles: seq<Candle>, config: DisplacementConfig, i: nat): Move
    requires config.Valid() && i < |candles| && IsDisplacement(candles, config, i)
  {
    var atr := Atr(candles, config.atrPeriod, i);
    var multiple, ratio := candles[i].Body() / atr, BodyRatio(candles[i], atr);
    var gap := CreatesGap(candles, i, candles[i].Tendency());
    Move(i, candles[i].Tendency(), candles[i].Body(), atr, multiple, ratio, gap, Quality(config, multiple, ratio, gap))
  }

  /** The displacements on bars before bar k, in order. */
  function MovesTo(candles: seq<Candle>, config: DisplacementConfig, k: nat): seq<Move>
    requires config.Valid() && k <= |candles|
  {
    if k == 0 then []
    else
      MovesTo(candles, config, k - 1)
      + (if IsDisplacement(candles, config, k - 1) then [MoveAt(candles, config, k - 1)] else [])
  }

  method DetectDisplacement(candles: seq<Candle>, config: DisplacementConfig) returns (result: seq<Move>)
    requires config.Valid()
    ensures result == MovesTo(candles, config, |candles|)
  {
    result := [];
    var atrs := AtrSeries(candles, config.atrPeriod);
    for i := 0 to |candles|
      invariant result == MovesTo(candles, config, i)
    {
      if i < config.atrPeriod / 2 { continue; }
      if atrs[i] <= 0.0 { continue; }
      var multiple, ratio := candles[i].Body() / atrs[i], BodyRatio(candles[i], atrs[i]);
      if multiple < config.atrMultiple || ratio < config.bodyRatio { continue; }
      var direction := candles[i].Tendency();
      if direction == Neutral { continue; }
      var net := NetMove(candles, i, config.impulseWindow);
      if direction == Bullish && net <= 0.0 { continue; }
      if direction == Bearish && net >= 0.0 { continue; }
      var gap := CreatesGap(candles, i, direction);
      result := result
        + [Move(i, direction, candles[i].Body(), atrs[i], multiple, ratio, gap, Quality(config, multiple, ratio, gap))];
    }
  }

  /**
   A bar is a displacement exactly when it is past the warm-up, its body is at least so many
   ATRs and so much of its range (of the ATR, if it has none), it closes away from its open,
   and the window it ends moved the same way.
   */
  lemma DisplacesExactlyWhen(candles: seq<Candle>, config: DisplacementConfig, i: nat)
    requires config.Valid() && i < |candles| && candles[i].low <= candles[i].high
    ensures
      var bar, atr := candles[i], Atr(candles, config.atrPeriod, i);
      var start := if i >= config.impulseWindow then i - config.impulseWindow + 1 else 0;
      var body, net := if bar.close > bar.open then bar.close - bar.open else bar.open - bar.close, bar.close - candles[start].open;
      IsDisplacement(candles, config, i)
      <==> 2 * i + 1 >= config.atrPeriod && atr > 0.0
           && AtLeast(body, config.atrMultiple, atr)
           && AtLeast(body, config.bodyRatio, if bar.high > bar.low then bar.high - bar.low else atr)
           && ((bar.close > bar.open && net > 0.0) || (bar.close < bar.open && net < 0.0))
  {
    var bar, atr := candles[i], Atr(candles, config.atrPeriod, i);
    hide Atr, AtLeast, BodyRatio;
    if atr > 0.0 {
      BodyIsAtLeast(bar, atr, config.atrMultiple, config.bodyRatio);
    }
  }

  /** This many of the unit, or more. */
  predicate AtLeast(x: real, times: real, unit: real) { x >= times * unit }

  lemma BodyIsAtLeast(bar: Candle, atr: real, multiple: real, ratio: real)
    requires atr > 0.0 && bar.low <= bar.high
    ensures bar.Body() / atr >= multiple <==> AtLeast(bar.Body(), multiple, atr)
    ensures BodyRatio(bar, atr) >= ratio <==> AtLeast(bar.Body(), ratio, if bar.high > bar.low then bar.high - bar.low else atr)
  {
    QuotientReaches(bar.Body(), atr, multiple);
    QuotientReaches(bar.Body(), if bar.Range() == 0.0 then atr else bar.Range(), ratio);
  }

  // ---------------------------------------------------------------- no look-ahead, and its one exception

  lemma DisplacementSeesOnlyThePast(candles: seq<Candle>, config: DisplacementConfig, n: nat, i: nat)
    requires config.Valid() && i < n <= |candles|
    ensures IsDisplacement(candles[..n], config, i) == IsDisplacement(candles, config, i)
    ensures IsDisplacement(candles, config, i) ==>
              var early, late := MoveAt(candles[..n], config, i), MoveAt(candles, config, i);
              // all but the gap flag and the quality it enters agree...
              && early.(leavesGap := late.leavesGap, quality := late.quality) == late
              // ...and those agree too, except on the prefix's last bar, exactly when the flag does
              && (i + 1 < n ==> early == late)
              && (early == late <==> CreatesGap(candles[..n], i, late.direction) == CreatesGap(candles, i, late.direction))
  {
    AtrSeesOnlyThePast(candles, config.atrPeriod, n, i);
    assert forall j :: 0 <= j < n ==> candles[..n][j] == candles[j];
  }

  lemma MoveAtIsOnItsBar(candles: seq<Candle>, config: DisplacementConfig)
    requires config.Valid()
    ensures forall i :: 0 <= i < |candles| && IsDisplacement(candles, config, i) ==> MoveAt(candles, config, i).index == i
  {
  }

  lemma {:induction false} MovesAreMoves(candles: seq<Candle>, config: DisplacementConfig, k: nat)
    requires config.Valid() && k <= |candles|
    ensures forall m :: m in MovesTo(candles, config, k) ==>
              m.index < k && IsDisplacement(candles, config, m.index) && m == MoveAt(candles, config, m.index)
  {
    if k > 0 {
      MoveAtIsOnItsBar(candles, config);
      hide IsDisplacement, MoveAt;
      MovesAreMoves(candles, config, k - 1);
    }
  }

  lemma {:induction false} NoMoveIsMissed(candles: seq<Candle>, config: DisplacementConfig, k: nat, i: nat)
    requires config.Valid() && i < k <= |candles| && IsDisplacement(candles, config, i)
    ensures MoveAt(candles, config, i) in MovesTo(candles, config, k)
  {
    hide IsDisplacement, MoveAt;
    if i < k - 1 {
      NoMoveIsMissed(candles, config, k - 1, i);
    }
  }

  lemma {:induction false} MovesAscend(candles: seq<Candle>, config: DisplacementConfig, k: nat)
    requires config.Valid() && k <= |candles|
    ensures forall a, b :: 0 <= a < b < |MovesTo(candles, config, k)| ==>
              MovesTo(candles, config, k)[a].index < MovesTo(candles, config, k)[b].index
  {
    if k > 0 {
      MoveAtIsOnItsBar(candles, config);
      MovesAreMoves(candles, config, k - 1);
      hide IsDisplacement, MoveAt;
      MovesAscend(candles, config, k - 1);
    }
  }

  lemma MovesAreInOrder(candles: seq<Candle>, config: DisplacementConfig, k: nat)
    requires config.Valid() && k <= |candles|
    ensures forall m :: m in MovesTo(candles, config, k) ==>
              m.index < k && IsDisplacement(candles, config, m.index) && m == MoveAt(candles, config, m.index)
    ensures forall i :: 0 <= i < k && IsDisplacement(candles, config, i) ==> MoveAt(candles, config, i) in MovesTo(candles, config, k)
    ensures forall a, b :: 0 <= a < b < |MovesTo(candles, config, k)| ==>
              MovesTo(candles, config, k)[a].index < MovesTo(candles, config, k)[b].index
  {
    hide IsDisplacement, MoveAt, MovesTo;
    MovesAreMoves(candles, config, k);
    forall i: nat | i < k && IsDisplacement(candles, config, i) ensures MoveAt(candles, config, i) in MovesTo(candles, config, k) {
      NoMoveIsMissed(candles, config, k, i);
    }
    MovesAscend(candles, config, k);
  }

  /** Bars settled before the prefix ends give the same list, entry for entry. */
  lemma {:induction false} MovesArePrefixStable(candles: seq<Candle>, config: DisplacementConfig, n: nat, k: nat)
    requires config.Valid() && k < n <= |candles|
    ensures MovesTo(candles[..n], config, k) == MovesTo(candles, config, k)
  {
    if k > 0 {
      MovesArePrefixStable(candles, config, n, k - 1);
      DisplacementSeesOnlyThePast(candles, config, n, k - 1);
    }
  }

  // ---------------------------------------------------------------- lookup

  /** The most recent displacement within `tolerance` bars of a bar. */
  function DisplacementNear(moves: seq<Move>, index: nat, tolerance: nat): (r: Option<Move>)
    ensures r.Some? ==> r.value in moves && index <= r.value.index + tolerance && r.value.index <= index
    ensures r.Some? ==> forall m :: m in moves && m.index <= index ==> m.index <= r.value.index
    ensures r.None? ==> forall m :: m in moves ==> index > m.index + tolerance || m.index > index
  {
    if moves == [] then None
    else
      var n := |moves| - 1;
      var earlier, last := DisplacementNear(moves[..n], index, tolerance), moves[n];
      if index <= last.index + tolerance && last.index <= index && (earlier.None? || last.index > earlier.value.index)
      then Some(last) else earlier
  }

  /** A lookup one bar back finds the displacement on the bar, else the one on the bar before. */
  lemma NearbyIsTheBarOrTheOneBefore(candles: seq<Candle>, config: DisplacementConfig, k: nat, i: nat)
    requires config.Valid() && i < k <= |candles|
    ensures DisplacementNear(MovesTo(candles, config, k), i, 1)
            == if IsDisplacement(candles, config, i) then Some(MoveAt(candles, config, i))
               else if i > 0 && IsDisplacement(candles, config, i - 1) then Some(MoveAt(candles, config, i - 1))
               else None
  {
    hide DisplacementNear, MovesTo, MoveAt, IsDisplacement;
    MovesAreInOrder(candles, config, k);
    MoveAtIsOnItsBar(candles, config);
    var moves := MovesTo(candles, config, k);
    var r := DisplacementNear(moves, i, 1);
    if r.Some? {
      assert r.value == MoveAt(candles, config, r.value.index);
    }
    if IsDisplacement(candles, config, i) {
      assert MoveAt(candles, config, i) in moves;
    } else if i > 0 && IsDisplacement(candles, config, i - 1) {
      assert MoveAt(candles, config, i - 1) in moves;
    }
  }

  /** What a lookup one bar back finds is the same move on a prefix, grading on its last bar aside. */
  lemma NearbyMoveIsPrefixStable(candles: seq<Candle>, config: DisplacementConfig, n: nat, i: nat)
    requires config.Valid() && i < n <= |candles|
    ensures
      var early := DisplacementNear(MovesTo(candles[..n], config, n), i, 1);
      var late := DisplacementNear(MovesTo(candles, config, |candles|), i, 1);
      && early.Some? == late.Some?
      && (i + 1 < n ==> early == late)
  {
    hide DisplacementNear, MovesTo, IsDisplacement, MoveAt, CreatesGap;
    NearbyIsTheBarOrTheOneBefore(candles[..n], config, n, i);
    NearbyIsTheBarOrTheOneBefore(candles, config, |candles|, i);
    DisplacementSeesOnlyThePast(candles, config, n, i);
    if i > 0 {
      DisplacementSeesOnlyThePast(candles, config, n, i - 1);
    }
  }
}
