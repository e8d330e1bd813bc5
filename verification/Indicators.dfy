/** Candles and the volatility measure every detector is scaled by. */
module Indicators {
  import opened Prices

  datatype Candle = Candle(time: int, minutes: nat, open: real, high: real, low: real, close: real) {
    function CloseTime(): int { time + minutes }

    function Body(): real { if close >= open then close - open else open - close }

    function Range(): real { high - low }

    function Tendency(): Bias {
      if close > open then Bullish else if close < open then Bearish else Neutral
    }

    /** What a candle must satisfy to be constructed. */
    ghost predicate Valid() { 0.0 < low <= open <= high && low <= close <= high }
  }

  /** A direction the market leans to. `Neutral` is also the "range" of a swing sequence. */
  datatype Bias = Bullish | Bearish | Neutral

  function TrueRange(candles: seq<Candle>, i: nat): real
    requires i < |candles|
  {
    if i == 0 then candles[0].Range()
    else
      Max(candles[i].Range(),
          Max(Abs(candles[i].high - candles[i - 1].close), Abs(candles[i].low - candles[i - 1].close)))
  }

  /** The true range is the range of the bar once it is stretched to the previous close. */
  lemma TrueRangeReachesThePreviousClose(candles: seq<Candle>, i: nat)
    requires i < |candles| && candles[i].low <= candles[i].high
    ensures
      var bar := candles[i];
      TrueRange(candles, i)
      == if i == 0 then bar.high - bar.low
         else Max(bar.high, candles[i - 1].close) - Min(bar.low, candles[i - 1].close)
  {
  }

  /** The sum of the true ranges of bars lo up to, not including, hi. */
  function RangeSum(candles: seq<Candle>, lo: nat, hi: nat): real
    requires lo <= hi <= |candles|
  {
    if lo == hi then 0.0 else RangeSum(candles, lo, hi - 1) + TrueRange(candles, hi - 1)
  }

  /** The average true range of the last `period` bars up to and including bar i. */
  function Atr(candles: seq<Candle>, period: nat, i: nat): real
    requires period >= 1 && i < |candles|
  {
    if i < period then RangeSum(candles, 0, i + 1) / (i + 1) as real
    else RangeSum(candles, i + 1 - period, i + 1) / period as real
  }

  /** The rolling series: a running sum while it fills, then a window. */
  method AtrSeries(candles: seq<Candle>, period: nat) returns (out: seq<real>)
    requires period >= 1
    ensures |out| == |candles|
    ensures forall i :: 0 <= i < |candles| ==> out[i] == Atr(candles, period, i)
  {
    out := [];
    var running := 0.0;
    for i := 0 to |candles|
      invariant |out| == i
      invariant i <= period ==> running == RangeSum(candles, 0, i)
      invariant forall j :: 0 <= j < i ==> out[j] == Atr(candles, period, j)
    {
      if i < period {
        running := running + TrueRange(candles, i);
        out := out + [running / (i + 1) as real];
      } else {
        var sum := 0.0;
        for k := i + 1 - period to i + 1
          invariant sum == RangeSum(candles, i + 1 - period, k)
        {
          sum := sum + TrueRange(candles, k);
        }
        out := out + [sum / period as real];
      }
    }
  }

  /** An average over this many bars. */
  predicate IsAverage(average: real, count: nat, total: real) { average * count as real == total }

  lemma {:induction false} RangesMove(candles: seq<Candle>, lo: nat, hi: nat)
    requires lo < hi <= |candles|
    ensures RangeSum(candles, lo, hi) == TrueRange(candles, lo) + RangeSum(candles, lo + 1, hi)
  {
    if lo + 1 < hi {
      RangesMove(candles, lo, hi - 1);
    }
  }

  /** How many bars the average at bar i is over. */
  function Averaged(period: nat, i: nat): nat { if i < period then i + 1 else period }

  /**
   The average is of the latest `period` true ranges, or of all there are. From bar to bar
   their sum takes the new one in and, once full, lets go of the one `period` bars old.
   */
  lemma AtrRollsForward(candles: seq<Candle>, period: nat, i: nat)
    requires period >= 1 && i < |candles|
    ensures
      var now := RangeSum(candles, i + 1 - Averaged(period, i), i + 1);
      && IsAverage(Atr(candles, period, i), Averaged(period, i), now)
      && (i == 0 ==> now == TrueRange(candles, 0))
      && (i > 0 ==>
            var before := RangeSum(candles, i - Averaged(period, i - 1), i);
            now == before + TrueRange(candles, i) - (if i >= period then TrueRange(candles, i - period) else 0.0))
  {
    AverageTimesCount(RangeSum(candles, i + 1 - Averaged(period, i), i + 1), Averaged(period, i));
    if i >= period {
      RangesMove(candles, i - period, i + 1);
    }
    hide TrueRange, IsAverage;
  }

  lemma AverageTimesCount(total: real, count: nat)
    requires count >= 1
    ensures IsAverage(total / count as real, count, total)
  {
  }

  lemma {:induction false} RangeSumSeesOnlyThePast(candles: seq<Candle>, n: nat, lo: nat, hi: nat)
    requires lo <= hi <= n <= |candles|
    ensures RangeSum(candles[..n], lo, hi) == RangeSum(candles, lo, hi)
  {
    if lo < hi {
      RangeSumSeesOnlyThePast(candles, n, lo, hi - 1);
      assert TrueRange(candles[..n], hi - 1) == TrueRange(candles, hi - 1);
    }
  }

  /** No look-ahead: bars after bar i cannot change its average true range. */
  lemma AtrSeesOnlyThePast(candles: seq<Candle>, period: nat, n: nat, i: nat)
    requires period >= 1 && i < n <= |candles|
    ensures Atr(candles[..n], period, i) == Atr(candles, period, i)
  {
    if i < period {
      RangeSumSeesOnlyThePast(candles, n, 0, i + 1);
    } else {
      RangeSumSeesOnlyThePast(candles, n, i + 1 - period, i + 1);
    }
  }
}
