/** Which bars a decision at a moment may see: closed ones only, and only as many as the live bot reads. */
module Windows {
  import opened Indicators

  const M15_LOOKBACK: nat := 400
  const H1_LOOKBACK: nat := 300

  /** The last n entries, or all of them. */
  function LastN<X>(s: seq<X>, n: nat): seq<X> { if |s| <= n then s else s[|s| - n..] }

  /** The bars that had closed by a moment, in the order given. */
  function ClosedBy(candles: seq<Candle>, cutoff: int): seq<Candle> {
    if candles == [] then []
    else
      var n := |candles| - 1;
      ClosedBy(candles[..n], cutoff) + (if candles[n].CloseTime() <= cutoff then [candles[n]] else [])
  }

  ghost predicate InTimeOrder(candles: seq<Candle>) {
    forall i, j :: 0 <= i < j < |candles| ==> candles[i].time <= candles[j].time
  }

  /** One timeframe: every bar lasts as long as every other. */
  ghost predicate Uniform(candles: seq<Candle>) {
    forall i, j :: 0 <= i < |candles| && 0 <= j < |candles| ==> candles[i].minutes == candles[j].minutes
  }

  /** Puts a bar after every bar that does not open later than it. */
  function Insert(sorted: seq<Candle>, x: Candle): seq<Candle> {
    if sorted == [] || sorted[|sorted| - 1].time <= x.time then sorted + [x]
    else
      var n := |sorted| - 1;
      Insert(sorted[..n], x) + [sorted[n]]
  }

  /** The stable sort by opening time. */
  function SortedByTime(candles: seq<Candle>): seq<Candle> {
    if candles == [] then []
    else
      var n := |candles| - 1;
      Insert(SortedByTime(candles[..n]), candles[n])
  }

  lemma {:induction false} InsertAddsOne(sorted: seq<Candle>, x: Candle)
    ensures multiset(Insert(sorted, x)) == multiset(sorted) + multiset{x}
  {
    if sorted != [] && sorted[|sorted| - 1].time > x.time {
      var n := |sorted| - 1;
      InsertAddsOne(sorted[..n], x);
      assert sorted == sorted[..n] + [sorted[n]];
    }
  }

  lemma AppendKeepsOrder(s: seq<Candle>, x: Candle)
    requires InTimeOrder(s) && forall c :: c in s ==> c.time <= x.time
    ensures InTimeOrder(s + [x])
  {
  }

  lemma {:induction false} InsertKeepsOrder(sorted: seq<Candle>, x: Candle)
    requires InTimeOrder(sorted)
    ensures InTimeOrder(Insert(sorted, x))
  {
    if sorted == [] || sorted[|sorted| - 1].time <= x.time {
      AppendKeepsOrder(sorted, x);
    } else {
      var n := |sorted| - 1;
      InsertKeepsOrder(sorted[..n], x);
      InsertAddsOne(sorted[..n], x);
      var rest := Insert(sorted[..n], x);
      forall c | c in rest ensures c.time <= sorted[n].time {
        assert c in multiset(rest);
      }
      AppendKeepsOrder(rest, sorted[n]);
    }
  }

  /** The sort puts the same bars in time order. */
  lemma {:induction false} SortingSorts(candles: seq<Candle>)
    ensures InTimeOrder(SortedByTime(candles))
    ensures multiset(SortedByTime(candles)) == multiset(candles)
    ensures forall c :: c in SortedByTime(candles) <==> c in candles
  {
    if candles != [] {
      hide Insert, InTimeOrder;
      var n := |candles| - 1;
      SortingSorts(candles[..n]);
      InsertKeepsOrder(SortedByTime(candles[..n]), candles[n]);
      InsertAddsOne(SortedByTime(candles[..n]), candles[n]);
      assert candles == candles[..n] + [candles[n]];
    }
    assert forall c :: c in SortedByTime(candles) <==> c in multiset(SortedByTime(candles));
  }

  lemma ClosedBySnoc(s: seq<Candle>, x: Candle, cutoff: int)
    ensures ClosedBy(s + [x], cutoff) == if x.CloseTime() <= cutoff then ClosedBy(s, cutoff) + [x] else ClosedBy(s, cutoff)
  {
  }

  lemma {:induction false} ClosedBySplits(a: seq<Candle>, b: seq<Candle>, cutoff: int)
    ensures ClosedBy(a + b, cutoff) == ClosedBy(a, cutoff) + ClosedBy(b, cutoff)
  {
    if b == [] {
      assert a + b == a;
    } else {
      var n := |b| - 1;
      assert (a + b)[..|a + b| - 1] == a + b[..n];
      ClosedBySplits(a, b[..n], cutoff);
    }
  }

  lemma {:induction false} InsertCommutesWithClosing(sorted: seq<Candle>, x: Candle, cutoff: int)
    requires InTimeOrder(sorted) && (forall c :: c in sorted ==> c.minutes == x.minutes)
    ensures ClosedBy(Insert(sorted, x), cutoff)
            == if x.CloseTime() <= cutoff then Insert(ClosedBy(sorted, cutoff), x) else ClosedBy(sorted, cutoff)
  {
    hide ClosedBy;
    if sorted == [] || sorted[|sorted| - 1].time <= x.time {
      ClosedBySnoc(sorted, x, cutoff);
      ClosedByKeepsTheClosed(sorted, cutoff);
      assert forall c :: c in ClosedBy(sorted, cutoff) ==> c.time <= x.time;
      InsertAfterAll(ClosedBy(sorted, cutoff), x);
    } else {
      var n := |sorted| - 1;
      assert sorted[n] in sorted && forall c :: c in sorted[..n] ==> c in sorted;
      InsertCommutesWithClosing(sorted[..n], x, cutoff);
      hide Insert, InTimeOrder;
      ClosingPastTheLast(sorted, x, cutoff);
    }
  }

  lemma InsertAfterAll(s: seq<Candle>, x: Candle)
    requires forall c :: c in s ==> c.time <= x.time
    ensures Insert(s, x) == s + [x]
  {
  }

  /** The step of an insertion that goes past the last bar. */
  lemma ClosingPastTheLast(sorted: seq<Candle>, x: Candle, cutoff: int)
    requires sorted != [] && sorted[|sorted| - 1].time > x.time && sorted[|sorted| - 1].minutes == x.minutes
    requires
      var rest := sorted[..|sorted| - 1];
      ClosedBy(Insert(rest, x), cutoff)
      == if x.CloseTime() <= cutoff then Insert(ClosedBy(rest, cutoff), x) else ClosedBy(rest, cutoff)
    ensures ClosedBy(Insert(sorted, x), cutoff)
            == if x.CloseTime() <= cutoff then Insert(ClosedBy(sorted, cutoff), x) else ClosedBy(sorted, cutoff)
  {
    hide ClosedBy, Insert;
    var n := |sorted| - 1;
    var last, rest := sorted[n], sorted[..n];
    assert sorted == rest + [last];
    InsertBefore(rest, last, x);
    ClosedBySnoc(Insert(rest, x), last, cutoff);
    ClosedBySnoc(rest, last, cutoff);
    InsertBefore(ClosedBy(rest, cutoff), last, x);
  }

  lemma InsertBefore(sorted: seq<Candle>, last: Candle, x: Candle)
    requires last.time > x.time
    ensures Insert(sorted + [last], x) == Insert(sorted, x) + [last]
  {
  }

  lemma {:induction false} ClosedByKeepsTheClosed(candles: seq<Candle>, cutoff: int)
    ensures |ClosedBy(candles, cutoff)| <= |candles|
    ensures forall c :: c in ClosedBy(candles, cutoff) <==> c in candles && c.CloseTime() <= cutoff
  {
    if candles != [] {
      var n := |candles| - 1;
      ClosedByKeepsTheClosed(candles[..n], cutoff);
      assert candles == candles[..n] + [candles[n]];
    }
  }

  /** In time order the last bar of one timeframe closes last. */
  lemma LastClosesLast(candles: seq<Candle>)
    requires InTimeOrder(candles) && Uniform(candles) && candles != []
    ensures InTimeOrder(candles[..|candles| - 1]) && Uniform(candles[..|candles| - 1])
    ensures forall c :: c in candles ==> c.CloseTime() <= candles[|candles| - 1].CloseTime()
  {
  }

  lemma {:induction false} ClosedOfOrderedIsAPrefix(candles: seq<Candle>, cutoff: int)
    requires InTimeOrder(candles) && Uniform(candles)
    ensures |ClosedBy(candles, cutoff)| <= |candles| && ClosedBy(candles, cutoff) == candles[..|ClosedBy(candles, cutoff)|]
  {
    if candles != [] {
      var n := |candles| - 1;
      LastClosesLast(candles);
      hide InTimeOrder, Uniform;
      if candles[n].CloseTime() <= cutoff {
        AllClosed(candles, cutoff);
      } else {
        ClosedOfOrderedIsAPrefix(candles[..n], cutoff);
      }
    }
  }

  /** Of bars in time order, the closed ones come first. */
  lemma ClosedByIsAPrefix(candles: seq<Candle>, cutoff: int)
    ensures |ClosedBy(candles, cutoff)| <= |candles|
    ensures forall c :: c in ClosedBy(candles, cutoff) <==> c in candles && c.CloseTime() <= cutoff
    ensures InTimeOrder(candles) && Uniform(candles) ==> ClosedBy(candles, cutoff) == candles[..|ClosedBy(candles, cutoff)|]
  {
    hide ClosedBy, InTimeOrder, Uniform;
    ClosedByKeepsTheClosed(candles, cutoff);
    if InTimeOrder(candles) && Uniform(candles) {
      ClosedOfOrderedIsAPrefix(candles, cutoff);
    }
  }

  lemma {:induction false} AllClosed(candles: seq<Candle>, cutoff: int)
    requires forall c :: c in candles ==> c.CloseTime() <= cutoff
    ensures ClosedBy(candles, cutoff) == candles
  {
    if candles != [] {
      AllClosed(candles[..|candles| - 1], cutoff);
    }
  }

  /** Sorting everything and cutting at a moment shows what sorting only the closed bars shows. */
  lemma {:induction false} SortingCommutesWithClosing(candles: seq<Candle>, cutoff: int)
    requires Uniform(candles)
    ensures ClosedBy(SortedByTime(candles), cutoff) == SortedByTime(ClosedBy(candles, cutoff))
  {
    if candles != [] {
      hide ClosedBy, Insert, InTimeOrder;
      var n := |candles| - 1;
      var x, rest := candles[n], candles[..n];
      assert candles == rest + [x];
      SortingCommutesWithClosing(rest, cutoff);
      SortingSorts(rest);
      assert forall c :: c in rest ==> c in candles;
      assert forall c :: c in SortedByTime(rest) ==> c.minutes == x.minutes;
      InsertCommutesWithClosing(SortedByTime(rest), x, cutoff);
      ClosedBySnoc(rest, x, cutoff);
      SortedSnoc(ClosedBy(rest, cutoff), x);
    } else {
      assert ClosedBy([], cutoff) == [];
    }
  }

  lemma SortedSnoc(s: seq<Candle>, x: Candle)
    ensures SortedByTime(s + [x]) == Insert(SortedByTime(s), x)
  {
  }

  /** A later cutoff's closed bars hold an earlier one's. */
  lemma {:induction false} ClosingTwice(candles: seq<Candle>, early: int, late: int)
    requires early <= late
    ensures ClosedBy(ClosedBy(candles, late), early) == ClosedBy(candles, early)
  {
    if candles != [] {
      var n := |candles| - 1;
      ClosingTwice(candles[..n], early, late);
      ClosedBySplits(ClosedBy(candles[..n], late), if candles[n].CloseTime() <= late then [candles[n]] else [], early);
      assert ClosedBy([], early) == [];
      assert [candles[n]][..0] == [];
    }
  }

  /** What the last n closed bars were, by any definition: no look-ahead, and no more than the live bot reads. */
  function VisibleH1(h1: seq<Candle>, cutoff: int): seq<Candle> {
    LastN(SortedByTime(ClosedBy(h1, cutoff)), H1_LOOKBACK)
  }

  function VisibleM15(m15: seq<Candle>, index: nat): seq<Candle>
    requires index < |m15|
  {
    LastN(m15[..index + 1], M15_LOOKBACK)
  }

  /** The number of entries of an ascending list that are at most x. */
  method BisectRight(a: seq<int>, x: int) returns (r: nat)
    requires forall i, j :: 0 <= i < j < |a| ==> a[i] <= a[j]
    ensures r <= |a|
    ensures forall i :: 0 <= i < r ==> a[i] <= x
    ensures forall i :: r <= i < |a| ==> x < a[i]
  {
    var lo, hi := 0, |a|;
    while lo < hi
      invariant 0 <= lo <= hi <= |a|
      invariant forall i :: 0 <= i < lo ==> a[i] <= x
      invariant forall i :: hi <= i < |a| ==> x < a[i]
    {
      var mid := (lo + hi) / 2;
      if x < a[mid] { hi := mid; } else { lo := mid + 1; }
    }
    return lo;
  }

  /** The slice the run takes of the sorted series is the last closed bars, exactly. */
  method SliceH1(byTime: seq<Candle>, closeTimes: seq<int>, cutoff: int, ghost h1: seq<Candle>) returns (visible: seq<Candle>)
    requires Uniform(h1) && byTime == SortedByTime(h1)
    requires |closeTimes| == |byTime| && forall i :: 0 <= i < |byTime| ==> closeTimes[i] == byTime[i].CloseTime()
    ensures visible == VisibleH1(h1, cutoff)
  {
    hide SortedByTime, Insert, ClosedBy;
    SortingSorts(h1);
    assert forall i :: 0 <= i < |byTime| ==> byTime[i] in h1;
    assert Uniform(byTime) by { UniformByMembership(h1, byTime); }
    var end := BisectRight(closeTimes, cutoff);
    visible := byTime[(if end >= H1_LOOKBACK then end - H1_LOOKBACK else 0)..end];
    SortingCommutesWithClosing(h1, cutoff);
    CutAt(byTime, cutoff, end);
  }

  lemma UniformByMembership(a: seq<Candle>, b: seq<Candle>)
    requires Uniform(a) && forall c :: c in b ==> c in a
    ensures Uniform(b)
  {
    forall i, j | 0 <= i < |b| && 0 <= j < |b| ensures b[i].minutes == b[j].minutes {
      assert b[i] in a && b[j] in a;
    }
  }

  lemma CutAt(candles: seq<Candle>, cutoff: int, end: nat)
    requires end <= |candles|
    requires forall i :: 0 <= i < end ==> candles[i].CloseTime() <= cutoff
    requires forall i :: end <= i < |candles| ==> cutoff < candles[i].CloseTime()
    ensures ClosedBy(candles, cutoff) == candles[..end]
  {
    AllClosed(candles[..end], cutoff);
    NoneClosed(candles[end..], cutoff);
    ClosedBySplits(candles[..end], candles[end..], cutoff);
    assert candles == candles[..end] + candles[end..];
  }

  lemma {:induction false} NoneClosed(candles: seq<Candle>, cutoff: int)
    requires forall c :: c in candles ==> cutoff < c.CloseTime()
    ensures ClosedBy(candles, cutoff) == []
  {
    if candles != [] {
      NoneClosed(candles[..|candles| - 1], cutoff);
    }
  }

  /** The M15 window is the bar asked on and up to 399 before it. */
  lemma VisibleM15Is(m15: seq<Candle>, index: nat)
    requires index < |m15|
    ensures VisibleM15(m15, index) == m15[(if index < 400 then 0 else index - 399)..index + 1]
  {
  }

  /** The H1 window is the latest 300 of the bars closed by the moment (or all of them), in time order. */
  lemma VisibleH1Is(h1: seq<Candle>, cutoff: int)
    ensures
      var visible, closed := VisibleH1(h1, cutoff), ClosedBy(h1, cutoff);
      && |visible| == (if |closed| < 300 then |closed| else 300)
      && InTimeOrder(visible)
      && exists earlier ::
           && multiset(earlier + visible) == multiset(closed)
           && forall a, b :: a in earlier && b in visible ==> a.time <= b.time
  {
    var closed := ClosedBy(h1, cutoff);
    var sorted := SortedByTime(closed);
    SortingSorts(closed);
    hide SortedByTime, ClosedBy, InTimeOrder;
    assert |sorted| == |multiset(sorted)| == |multiset(closed)| == |closed|;
    LastOfOrdered(sorted, H1_LOOKBACK);
  }

  lemma LastOfOrdered(sorted: seq<Candle>, n: nat)
    requires InTimeOrder(sorted)
    ensures InTimeOrder(LastN(sorted, n))
    ensures
      var last := LastN(sorted, n);
      var earlier := sorted[..|sorted| - |last|];
      earlier + last == sorted && forall a, b :: a in earlier && b in last ==> a.time <= b.time
  {
    var last := LastN(sorted, n);
    var earlier := sorted[..|sorted| - |last|];
    assert forall i :: 0 <= i < |earlier| ==> earlier[i] == sorted[i];
    assert forall j :: 0 <= j < |last| ==> last[j] == sorted[|earlier| + j];
  }
}
