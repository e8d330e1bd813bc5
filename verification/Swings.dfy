/** Fractal pivots that carry the index at which they became knowable. */
module Swings {
  import opened Wrappers
  import opened Indicators

  datatype Side = High | Low

  datatype SwingPoint = SwingPoint(index: nat, confirmedIndex: nat, price: real, side: Side)

  datatype SwingSet = SwingSet(highs: seq<SwingPoint>, lows: seq<SwingPoint>)

  /** Strictly beyond every neighbour within the window on both sides. */
  predicate IsPivot(candles: seq<Candle>, window: nat, side: Side, i: nat) {
    && window <= i && i + window < |candles|
    && (forall k :: i - window <= k <= i + window && k != i ==>
          if side == High then candles[i].high > candles[k].high else candles[i].low < candles[k].low)
  }

  function PivotPrice(candle: Candle, side: Side): real { if side == High then candle.high else candle.low }

  function PivotPoint(candles: seq<Candle>, window: nat, side: Side, i: nat): SwingPoint
    requires i < |candles|
  {
    SwingPoint(i, i + window, PivotPrice(candles[i], side), side)
  }

  /** The pivots formed by bars before bar k, in order. */
  function PivotsTo(candles: seq<Candle>, window: nat, side: Side, k: nat): seq<SwingPoint>
    requires k <= |candles|
  {
    if k == 0 then []
    else
      PivotsTo(candles, window, side, k - 1)
      + (if IsPivot(candles, window, side, k - 1) then [PivotPoint(candles, window, side, k - 1)] else [])
  }

  function Pivots(candles: seq<Candle>, window: nat, side: Side): seq<SwingPoint> {
    PivotsTo(candles, window, side, |candles|)
  }

  method DetectSwings(candles: seq<Candle>, window: nat) returns (r: Result<SwingSet, string>)
    ensures r.Ok? <==> window >= 1
    ensures r.Ok? ==> r.value == SwingSet(Pivots(candles, window, High), Pivots(candles, window, Low))
  {
    if window < 1 {
      return Err("swing window must be at least 1");
    }
    hide *;
    var highs, lows := [], [];
    var i := window;
    NoPivotsNearTheStart(candles, window, High);
    NoPivotsNearTheStart(candles, window, Low);
    while i + window < |candles|
      invariant window <= i && (i + window <= |candles| || i == window)
      invariant i <= |candles| ==> highs == PivotsTo(candles, window, High, i) && lows == PivotsTo(candles, window, Low, i)
      invariant i > |candles| ==> highs == [] && lows == []
    {
      var isHigh := Dominates(candles, window, High, i);
      highs := highs + (if isHigh then [PivotPoint(candles, window, High, i)] else []);
      var isLow := Dominates(candles, window, Low, i);
      lows := lows + (if isLow then [PivotPoint(candles, window, Low, i)] else []);
      PivotsToStep(candles, window, High, i);
      PivotsToStep(candles, window, Low, i);
      i := i + 1;
    }
    NoPivotsNearTheEnd(candles, window, High, i);
    NoPivotsNearTheEnd(candles, window, Low, i);
    return Ok(SwingSet(highs, lows));
  }

  lemma PivotsToStep(candles: seq<Candle>, window: nat, side: Side, i: nat)
    requires i < |candles|
    ensures PivotsTo(candles, window, side, i + 1)
            == PivotsTo(candles, window, side, i) + (if IsPivot(candles, window, side, i) then [PivotPoint(candles, window, side, i)] else [])
  {
  }

  method Dominates(candles: seq<Candle>, window: nat, side: Side, i: nat) returns (b: bool)
    requires window <= i && i + window < |candles|
    ensures b == IsPivot(candles, window, side, i)
  {
    for k := i - window to i + window + 1
      invariant forall j :: i - window <= j < k && j != i ==>
                  if side == High then candles[i].high > candles[j].high else candles[i].low < candles[j].low
    {
      if k != i && !(if side == High then candles[i].high > candles[k].high else candles[i].low < candles[k].low) {
        return false;
      }
    }
    return true;
  }

  lemma {:induction false} NoPivotsUpTo(candles: seq<Candle>, window: nat, side: Side, k: nat)
    requires k <= |candles| && k <= window
    ensures PivotsTo(candles, window, side, k) == []
  {
    if k > 0 {
      NoPivotsUpTo(candles, window, side, k - 1);
    }
  }

  lemma NoPivotsNearTheStart(candles: seq<Candle>, window: nat, side: Side)
    ensures window <= |candles| ==> PivotsTo(candles, window, side, window) == []
  {
    if window <= |candles| {
      NoPivotsUpTo(candles, window, side, window);
    }
  }

  lemma {:induction false} NoPivotsFrom(candles: seq<Candle>, window: nat, side: Side, from: nat, k: nat)
    requires from <= k <= |candles| && |candles| <= from + window
    ensures PivotsTo(candles, window, side, k) == PivotsTo(candles, window, side, from)
  {
    if k > from {
      NoPivotsFrom(candles, window, side, from, k - 1);
    }
  }

  lemma NoPivotsNearTheEnd(candles: seq<Candle>, window: nat, side: Side, from: nat)
    requires window <= from && |candles| <= from + window && (from > |candles| ==> from == window)
    ensures from <= |candles| ==> Pivots(candles, window, side) == PivotsTo(candles, window, side, from)
    ensures from > |candles| ==> Pivots(candles, window, side) == []
  {
    if from <= |candles| {
      NoPivotsFrom(candles, window, side, from, |candles|);
    } else {
      NoPivotsUpTo(candles, window, side, |candles|);
    }
  }

  /** A point is found for a bar exactly when the bar is strictly beyond its neighbours, and it tells the bar's extreme. */
  lemma {:induction false} PivotsAreExactlyTheExtremes(candles: seq<Candle>, window: nat, side: Side, k: nat, p: SwingPoint)
    requires k <= |candles|
    ensures p in PivotsTo(candles, window, side, k) <==>
      && p.index < k && window <= p.index < |candles| - window && p.side == side && p.confirmedIndex == p.index + window
      && (if side == High then
            p.price == candles[p.index].high
            && forall j :: p.index - window <= j <= p.index + window && j != p.index ==> candles[j].high < p.price
          else
            p.price == candles[p.index].low
            && forall j :: p.index - window <= j <= p.index + window && j != p.index ==> candles[j].low > p.price)
  {
    if k > 0 {
      PivotsAreExactlyTheExtremes(candles, window, side, k - 1, p);
      var earlier, i := PivotsTo(candles, window, side, k - 1), k - 1;
      assert p in PivotsTo(candles, window, side, k) <==>
             p in earlier || (IsPivot(candles, window, side, i) && p == PivotPoint(candles, window, side, i));
      hide PivotsTo;
    }
  }

  // ---------------------------------------------------------------- what was knowable when

  /** The points confirmed by bar `at`. */
  function Known(points: seq<SwingPoint>, at: int): seq<SwingPoint> {
    if points == [] then []
    else
      var n := |points| - 1;
      Known(points[..n], at) + (if points[n].confirmedIndex <= at then [points[n]] else [])
  }

  lemma {:induction false} KnownOfPivots(candles: seq<Candle>, window: nat, side: Side, k: nat, at: int)
    requires k <= |candles| && -1 <= at
    ensures Known(PivotsTo(candles, window, side, k), at)
            == PivotsTo(candles, window, side, if at + 1 < window then 0 else if k <= at + 1 - window then k else at + 1 - window)
  {
    if k > 0 {
      KnownOfPivots(candles, window, side, k - 1, at);
      if IsPivot(candles, window, side, k - 1) {
        var all := PivotsTo(candles, window, side, k);
        assert all == PivotsTo(candles, window, side, k - 1) + [PivotPoint(candles, window, side, k - 1)];
        assert all[..|all| - 1] == PivotsTo(candles, window, side, k - 1);
      } else {
        assert PivotsTo(candles, window, side, k) == PivotsTo(candles, window, side, k - 1);
      }
    }
  }

  lemma {:induction false} PivotsSeeOnlyThePast(candles: seq<Candle>, window: nat, side: Side, n: nat, k: nat)
    requires k + window <= n <= |candles|
    ensures PivotsTo(candles[..n], window, side, k) == PivotsTo(candles, window, side, k)
  {
    if k > 0 {
      PivotsSeeOnlyThePast(candles, window, side, n, k - 1);
      var i := k - 1;
      assert IsPivot(candles[..n], window, side, i) == IsPivot(candles, window, side, i) by {
        assert forall j :: 0 <= j < n ==> candles[..n][j] == candles[j];
      }
    }
  }

  /** No look-ahead: what is known at bar `at` is the same whether or not later bars exist. */
  lemma KnownPivotsArePrefixStable(candles: seq<Candle>, window: nat, side: Side, n: nat, at: nat)
    requires at < n <= |candles|
    ensures Known(Pivots(candles[..n], window, side), at) == Known(Pivots(candles, window, side), at)
  {
    KnownOfPivots(candles, window, side, |candles|, at);
    KnownOfPivots(candles[..n], window, side, n, at);
    if at + 1 >= window {
      PivotsSeeOnlyThePast(candles, window, side, n, at + 1 - window);
    }
  }

  /** Detecting on a prefix finds exactly the pivots the full series had confirmed by its last bar. */
  lemma DetectionOnAPrefixFiltersTheFullDetection(candles: seq<Candle>, window: nat, side: Side, n: nat)
    requires 1 <= n <= |candles|
    ensures Pivots(candles[..n], window, side) == Known(Pivots(candles, window, side), n - 1)
  {
    KnownPivotsArePrefixStable(candles, window, side, n, n - 1);
    KnownOfPivots(candles[..n], window, side, n, n - 1);
    NoPivotsNearTheEnd(candles[..n], window, side, if n < window then window else if n - window >= window then n - window else window);
    if n >= window {
      NoPivotsFrom(candles[..n], window, side, n - window, n);
    } else {
      NoPivotsUpTo(candles[..n], window, side, n);
    }
  }

  /** Trend from confirmed swings: one side decides unless the other contradicts it. */
  function SwingBias(highs: seq<SwingPoint>, lows: seq<SwingPoint>): Bias {
    var h, l := |highs|, |lows|;
    if h < 2 && l < 2 then Neutral
    else
      var higherHighs := h >= 2 && highs[h - 1].price > highs[h - 2].price;
      var lowerHighs := h >= 2 && highs[h - 1].price < highs[h - 2].price;
      var higherLows := l >= 2 && lows[l - 1].price > lows[l - 2].price;
      var lowerLows := l >= 2 && lows[l - 1].price < lows[l - 2].price;
      if (higherHighs || higherLows) && !lowerHighs && !lowerLows then Bullish
      else if (lowerHighs || lowerLows) && !higherHighs && !higherLows then Bearish
      else Neutral
  }

  predicate Rises(points: seq<SwingPoint>) { |points| >= 2 && points[|points| - 1].price > points[|points| - 2].price }

  predicate Falls(points: seq<SwingPoint>) { |points| >= 2 && points[|points| - 1].price < points[|points| - 2].price }

  /** The swings lean up exactly when the last two highs or the last two lows rise and neither pair falls, and down likewise. */
  lemma SwingsLeanExactlyWhen(highs: seq<SwingPoint>, lows: seq<SwingPoint>)
    ensures SwingBias(highs, lows) == Bullish <==> (Rises(highs) || Rises(lows)) && !Falls(highs) && !Falls(lows)
    ensures SwingBias(highs, lows) == Bearish <==> (Falls(highs) || Falls(lows)) && !Rises(highs) && !Rises(lows)
  {
  }
}
