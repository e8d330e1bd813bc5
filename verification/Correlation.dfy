/** Risk-weighted currency exposure and the correlation derived from it. */
module Correlation {
  import opened Wrappers
  import opened Symbols

  /** A dictionary in insertion order: each key once. */
  type Exposure = seq<(string, real)>

  function Sign(direction: Direction): real { if direction == Buy then 1.0 else -1.0 }

  /** Signed exposure per currency for one unit of risk. A pair of one currency keeps its last leg. */
  function CurrencyExposure(symbol: string, direction: Direction): Exposure {
    match SplitCurrencies(symbol)
    case None => []
    case Some((base, quote)) =>
      if base == quote then [(base, -Sign(direction))]
      else [(base, Sign(direction)), (quote, -Sign(direction))]
  }

  predicate HasTwoLegs(symbol: string) {
    var legs := SplitCurrencies(symbol);
    legs.Some? && legs.value.0 != legs.value.1
  }

  function Weight(e: Exposure, currency: string): Option<real> {
    if e == [] then None
    else if e[0].0 == currency then Some(e[0].1)
    else Weight(e[1..], currency)
  }

  /** The sum, over the currencies both hold, of the products of their weights. */
  function Dot(a: Exposure, b: Exposure): real {
    if a == [] then 0.0
    else
      var other := Weight(b, a[0].0);
      (if other.Some? then a[0].1 * other.value else 0.0) + Dot(a[1..], b)
  }

  predicate ShareACurrency(a: Exposure, b: Exposure) {
    exists i :: 0 <= i < |a| && Weight(b, a[i].0).Some?
  }

  /** The square root of two, which the reals have but no finite expression names. */
  ghost predicate IsRootTwo(root: real) { root > 0.0 && root * root == 2.0 }

  /** The Euclidean norm of an exposure: every weight is one or minus one. */
  function Norm(e: Exposure, rootTwo: real): real { if |e| == 2 then rootTwo else 1.0 }

  function Clamp(x: real): real { if x < -1.0 then -1.0 else if x > 1.0 then 1.0 else x }

  function CorrelationScore(symbolA: string, a: Direction, symbolB: string, b: Direction, rootTwo: real): real
    requires IsRootTwo(rootTwo)
  {
    ExposureScore(CurrencyExposure(symbolA, a), CurrencyExposure(symbolB, b), rootTwo)
  }

  function ExposureScore(ea: Exposure, eb: Exposure, rootTwo: real): real
    requires IsRootTwo(rootTwo)
  {
    if ea == [] || eb == [] || !ShareACurrency(ea, eb) then 0.0
    else
      NormsArePositive(ea, eb, rootTwo);
      Clamp(Dot(ea, eb) / (Norm(ea, rootTwo) * Norm(eb, rootTwo)))
  }

  lemma NormsArePositive(a: Exposure, b: Exposure, rootTwo: real)
    requires IsRootTwo(rootTwo)
    ensures Norm(a, rootTwo) * Norm(b, rootTwo) > 0.0
  {
  }

  function Flip(d: Direction): Direction { if d == Buy then Sell else Buy }

  // ---------------------------------------------------------------- properties of the score

  /** The dot product of two two-legged exposures, leg by leg. */
  function Overlap(a: (string, string), b: (string, string)): int {
    (if a.0 == b.0 then 1 else 0) + (if a.1 == b.1 then 1 else 0)
    - (if a.0 == b.1 then 1 else 0) - (if a.1 == b.0 then 1 else 0)
  }

  lemma WeightOfTwo(x: string, v: real, y: string, w: real, currency: string)
    ensures Weight([(x, v), (y, w)], currency) == if x == currency then Some(v) else if y == currency then Some(w) else None
  {
    var e := [(x, v), (y, w)];
    assert e[1..] == [(y, w)] && e[1..][1..] == [];
    assert Weight(e[1..], currency) == if y == currency then Some(w) else None;
  }

  function TwoLegs(legs: (string, string), sign: real): Exposure { [(legs.0, sign), (legs.1, -sign)] }

  lemma DotOfTwoLegs(a: (string, string), s: real, b: (string, string), t: real)
    requires a.0 != a.1 && b.0 != b.1
    requires (s == 1.0 || s == -1.0) && (t == 1.0 || t == -1.0)
    ensures Dot(TwoLegs(a, s), TwoLegs(b, t)) == (if s == t then Overlap(a, b) else -Overlap(a, b)) as real
    ensures ShareACurrency(TwoLegs(a, s), TwoLegs(b, t)) || Overlap(a, b) == 0
  {
    var e, f := TwoLegs(a, s), TwoLegs(b, t);
    assert e[1..] == [(a.1, -s)] && e[1..][1..] == [];
    WeightOfTwo(b.0, t, b.1, -t, a.0);
    WeightOfTwo(b.0, t, b.1, -t, a.1);
    var first := if b.0 == a.0 then s * t else if b.1 == a.0 then s * (-t) else 0.0;
    var second := if b.0 == a.1 then (-s) * t else if b.1 == a.1 then (-s) * (-t) else 0.0;
    assert Dot(e[1..], f) == second;
    assert Dot(e, f) == first + second;
    assert e[0] == (a.0, s) && e[1] == (a.1, -s);
  }

  /** The score of two pairs: half the legs they share less half the legs they oppose. */
  lemma TwoLegScore(symbolA: string, a: Direction, symbolB: string, b: Direction, rootTwo: real)
    requires IsRootTwo(rootTwo) && HasTwoLegs(symbolA) && HasTwoLegs(symbolB)
    ensures
      var overlap := Overlap(SplitCurrencies(symbolA).value, SplitCurrencies(symbolB).value);
      CorrelationScore(symbolA, a, symbolB, b, rootTwo) == (if a == b then overlap else -overlap) as real / 2.0
  {
    var la, lb := SplitCurrencies(symbolA).value, SplitCurrencies(symbolB).value;
    ExposureIsTwoLegs(symbolA, a);
    ExposureIsTwoLegs(symbolB, b);
    TwoLegExposureScore(la, Sign(a), lb, Sign(b), rootTwo);
  }

  lemma ExposureIsTwoLegs(symbol: string, direction: Direction)
    requires HasTwoLegs(symbol)
    ensures CurrencyExposure(symbol, direction) == TwoLegs(SplitCurrencies(symbol).value, Sign(direction))
  {
  }

  lemma TwoLegExposureScore(a: (string, string), s: real, b: (string, string), t: real, rootTwo: real)
    requires IsRootTwo(rootTwo) && a.0 != a.1 && b.0 != b.1
    requires (s == 1.0 || s == -1.0) && (t == 1.0 || t == -1.0)
    ensures ExposureScore(TwoLegs(a, s), TwoLegs(b, t), rootTwo)
            == (if s == t then Overlap(a, b) else -Overlap(a, b)) as real / 2.0
  {
    DotOfTwoLegs(a, s, b, t);
    ScoreFromDot(TwoLegs(a, s), TwoLegs(b, t), if s == t then Overlap(a, b) else -Overlap(a, b), rootTwo);
  }

  lemma ScoreFromDot(ea: Exposure, eb: Exposure, overlap: int, rootTwo: real)
    requires IsRootTwo(rootTwo) && |ea| == 2 && |eb| == 2 && -2 <= overlap <= 2
    requires Dot(ea, eb) == overlap as real
    ensures Clamp(Dot(ea, eb) / (Norm(ea, rootTwo) * Norm(eb, rootTwo))) == overlap as real / 2.0
  {
  }

  /** Symmetric, bounded, one with itself, and negated by turning either side around. */
  lemma ScoreIsACorrelation(symbolA: string, a: Direction, symbolB: string, b: Direction, rootTwo: real)
    requires IsRootTwo(rootTwo) && HasTwoLegs(symbolA) && HasTwoLegs(symbolB)
    ensures CorrelationScore(symbolA, a, symbolB, b, rootTwo) == CorrelationScore(symbolB, b, symbolA, a, rootTwo)
    ensures -1.0 <= CorrelationScore(symbolA, a, symbolB, b, rootTwo) <= 1.0
    ensures CorrelationScore(symbolA, a, symbolA, a, rootTwo) == 1.0
    ensures CorrelationScore(symbolA, Flip(a), symbolB, b, rootTwo) == -CorrelationScore(symbolA, a, symbolB, b, rootTwo)
  {
    TwoLegScore(symbolA, a, symbolB, b, rootTwo);
    TwoLegScore(symbolB, b, symbolA, a, rootTwo);
    TwoLegScore(symbolA, a, symbolA, a, rootTwo);
    TwoLegScore(symbolA, Flip(a), symbolB, b, rootTwo);
  }

  /** Exposure depends on the instrument, not on how the broker spells it. */
  lemma ExposureRespectsSameInstrument(left: string, right: string, direction: Direction)
    requires SameInstrument(left, right)
    ensures CurrencyExposure(left, direction) == CurrencyExposure(right, direction)
  {
  }

  // ---------------------------------------------------------------- the book

  datatype Position = Position(symbol: string, direction: Direction, risk: Option<real>)

  /** A position whose money at risk is known. */
  datatype Entry = Entry(symbol: string, direction: Direction, risk: real)

  datatype ExposureReport = ExposureReport(
    perCurrency: Exposure, correlatedRisk: real, worstScore: Option<real>, totalOpenRisk: real, unpriced: nat)

  function Entries(positions: seq<Position>): seq<Entry> {
    if positions == [] then []
    else
      var p := positions[|positions| - 1];
      Entries(positions[..|positions| - 1])
      + (if p.risk.Some? then [Entry(p.symbol, p.direction, p.risk.value)] else [])
  }

  /** dict[currency] = dict.get(currency, 0) + amount */
  function Add(e: Exposure, currency: string, amount: real): Exposure {
    if e == [] then [(currency, amount)]
    else if e[0].0 == currency then [(currency, e[0].1 + amount)] + e[1..]
    else [e[0]] + Add(e[1..], currency, amount)
  }

  function Scaled(weight: real, risk: real): real { weight * risk }

  function AddAll(e: Exposure, weights: Exposure, risk: real): Exposure
    decreases |weights|
  {
    if weights == [] then e
    else
      var n := |weights| - 1;
      Add(AddAll(e, weights[..n], risk), weights[n].0, Scaled(weights[n].1, risk))
  }

  function PerCurrency(entries: seq<Entry>): Exposure {
    if entries == [] then []
    else
      var last := entries[|entries| - 1];
      AddAll(PerCurrency(entries[..|entries| - 1]), CurrencyExposure(last.symbol, last.direction), last.risk)
  }

  function SumBy(amount: Entry -> real, entries: seq<Entry>): real {
    if entries == [] then 0.0
    else SumBy(amount, entries[..|entries| - 1]) + amount(entries[|entries| - 1])
  }

  function RiskOf(): Entry -> real { (e: Entry) => e.risk }

  function TotalRisk(entries: seq<Entry>): real { SumBy(RiskOf(), entries) }

  function ScoreWith(candidate: Entry, entry: Entry, rootTwo: real): real
    requires IsRootTwo(rootTwo)
  {
    CorrelationScore(candidate.symbol, candidate.direction, entry.symbol, entry.direction, rootTwo)
  }

  /** What one position adds to the risk that moves with the candidate. */
  function CorrelatedShare(score: real, risk: real, threshold: real): real {
    if score >= threshold then risk * score else 0.0
  }

  function ShareOf(candidate: Entry, threshold: real, rootTwo: real): Entry -> real
    requires IsRootTwo(rootTwo)
  {
    (e: Entry) => CorrelatedShare(ScoreWith(candidate, e, rootTwo), e.risk, threshold)
  }

  function CorrelatedRisk(candidate: Entry, entries: seq<Entry>, threshold: real, rootTwo: real): real
    requires IsRootTwo(rootTwo)
  {
    candidate.risk + SumBy(ShareOf(candidate, threshold, rootTwo), entries)
  }

  /** Aggregates the open positions and one candidate. */
  method AnalyseExposure(positions: seq<Position>, candidate: Entry, threshold: real, rootTwo: real)
    returns (report: ExposureReport)
    requires IsRootTwo(rootTwo)
    ensures report.totalOpenRisk == TotalRisk(Entries(positions)) + candidate.risk
    ensures report.correlatedRisk == CorrelatedRisk(candidate, Entries(positions), threshold, rootTwo)
    ensures report.perCurrency == PerCurrency(Entries(positions) + [candidate])
    ensures report.unpriced == |positions| - |Entries(positions)|
    ensures report.worstScore.None? <==> Entries(positions) == []
    ensures forall e :: e in Entries(positions) ==> ScoreWith(candidate, e, rootTwo) <= report.worstScore.value
    ensures report.worstScore.Some? ==> exists e :: e in Entries(positions) && ScoreWith(candidate, e, rootTwo) == report.worstScore.value
  {
    hide *;
    var entries := PricedEntries(positions);
    var perCurrency, total := AddUp(entries);
    perCurrency := Accumulate(perCurrency, candidate);
    PerCurrencySteps(entries, candidate);
    var correlated, worst := CorrelateWith(candidate, entries, threshold, rootTwo);
    return ExposureReport(perCurrency, correlated, worst, total + candidate.risk, |positions| - |entries|);
  }

  lemma PerCurrencySteps(entries: seq<Entry>, e: Entry)
    ensures PerCurrency(entries + [e]) == AddAll(PerCurrency(entries), CurrencyExposure(e.symbol, e.direction), e.risk)
  {
    assert (entries + [e])[..|entries|] == entries;
  }

  /** The book's exposure per currency and its risk. */
  method AddUp(entries: seq<Entry>) returns (perCurrency: Exposure, total: real)
    ensures perCurrency == PerCurrency(entries) && total == TotalRisk(entries)
  {
    hide CurrencyExposure, AddAll;
    perCurrency, total := [], 0.0;
    for i := 0 to |entries|
      invariant perCurrency == PerCurrency(entries[..i]) && total == TotalRisk(entries[..i])
    {
      assert entries[..i + 1][..i] == entries[..i];
      perCurrency := Accumulate(perCurrency, entries[i]);
      total := total + entries[i].risk;
    }
    assert entries[..|entries|] == entries;
  }

  /** The positions whose risk is known; the others are only counted. */
  method PricedEntries(positions: seq<Position>) returns (entries: seq<Entry>)
    ensures entries == Entries(positions) && |entries| <= |positions|
  {
    entries := [];
    for i := 0 to |positions|
      invariant entries == Entries(positions[..i]) && |entries| <= i
    {
      assert positions[..i + 1][..i] == positions[..i];
      if positions[i].risk.Some? {
        entries := entries + [Entry(positions[i].symbol, positions[i].direction, positions[i].risk.value)];
      }
    }
    assert positions[..|positions|] == positions;
  }

  lemma CorrelatedRiskGrows(candidate: Entry, entries: seq<Entry>, i: nat, threshold: real, rootTwo: real)
    requires IsRootTwo(rootTwo) && i < |entries|
    ensures CorrelatedRisk(candidate, entries[..i + 1], threshold, rootTwo)
            == CorrelatedRisk(candidate, entries[..i], threshold, rootTwo)
               + CorrelatedShare(ScoreWith(candidate, entries[i], rootTwo), entries[i].risk, threshold)
  {
    var share := ShareOf(candidate, threshold, rootTwo);
    assert entries[..i + 1][..i] == entries[..i];
    assert share(entries[i]) == CorrelatedShare(ScoreWith(candidate, entries[i], rootTwo), entries[i].risk, threshold);
  }

  method CorrelateWith(candidate: Entry, entries: seq<Entry>, threshold: real, rootTwo: real)
    returns (correlated: real, worst: Option<real>)
    requires IsRootTwo(rootTwo)
    ensures correlated == CorrelatedRisk(candidate, entries, threshold, rootTwo)
    ensures worst.None? <==> entries == []
    ensures forall e :: e in entries ==> ScoreWith(candidate, e, rootTwo) <= worst.value
    ensures worst.Some? ==> exists e :: e in entries && ScoreWith(candidate, e, rootTwo) == worst.value
  {
    hide ScoreWith, CorrelatedShare;
    correlated, worst := candidate.risk, None;
    for i := 0 to |entries|
      invariant correlated == CorrelatedRisk(candidate, entries[..i], threshold, rootTwo)
      invariant worst.None? <==> i == 0
      invariant forall j :: 0 <= j < i ==> ScoreWith(candidate, entries[j], rootTwo) <= worst.value
      invariant worst.Some? ==> exists j :: 0 <= j < i && ScoreWith(candidate, entries[j], rootTwo) == worst.value
    {
      CorrelatedRiskGrows(candidate, entries, i, threshold, rootTwo);
      var score := ScoreWith(candidate, entries[i], rootTwo);
      if worst.None? || score > worst.value {
        worst := Some(score);
      }
      correlated := correlated + CorrelatedShare(score, entries[i].risk, threshold);
    }
    assert entries[..|entries|] == entries;
  }

  method Accumulate(perCurrency: Exposure, entry: Entry) returns (after: Exposure)
    ensures after == AddAll(perCurrency, CurrencyExposure(entry.symbol, entry.direction), entry.risk)
  {
    var weights := CurrencyExposure(entry.symbol, entry.direction);
    after := perCurrency;
    for i := 0 to |weights|
      invariant after == AddAll(perCurrency, weights[..i], entry.risk)
    {
      var upTo := weights[..i + 1];
      assert upTo[..i] == weights[..i] && upTo[i] == weights[i];
      after := Add(after, weights[i].0, Scaled(weights[i].1, entry.risk));
      assert after == AddAll(perCurrency, upTo, entry.risk);
    }
    assert weights[..|weights|] == weights;
  }

  // ---------------------------------------------------------------- properties of the book

  function Sum(e: Exposure): real { if e == [] then 0.0 else e[0].1 + Sum(e[1..]) }

  lemma {:induction false} AddingShiftsTheSum(e: Exposure, currency: string, amount: real)
    ensures Sum(Add(e, currency, amount)) == Sum(e) + amount
  {
    if e != [] {
      if e[0].0 == currency {
        assert Add(e, currency, amount)[1..] == e[1..];
      } else {
        AddingShiftsTheSum(e[1..], currency, amount);
        assert Add(e, currency, amount)[1..] == Add(e[1..], currency, amount);
      }
    }
  }

  /** Long and short exposure cancel: over all currencies the book always sums to zero. */
  lemma {:induction false} ExposuresSumToZero(entries: seq<Entry>)
    requires forall e :: e in entries ==> HasTwoLegs(e.symbol) || CurrencyExposure(e.symbol, e.direction) == []
    ensures Sum(PerCurrency(entries)) == 0.0
  {
    if entries != [] {
      var last := entries[|entries| - 1];
      var before := PerCurrency(entries[..|entries| - 1]);
      ExposuresSumToZero(entries[..|entries| - 1]);
      assert last in entries;
      if HasTwoLegs(last.symbol) {
        ExposureIsTwoLegs(last.symbol, last.direction);
        TwoLegsCancel(before, SplitCurrencies(last.symbol).value, Sign(last.direction), last.risk);
      }
    }
  }

  lemma TwoLegsCancel(e: Exposure, legs: (string, string), sign: real, risk: real)
    ensures Sum(AddAll(e, TwoLegs(legs, sign), risk)) == Sum(e)
  {
    var w := TwoLegs(legs, sign);
    assert w[..1] == [w[0]] && w[..1][..0] == [];
    var first := Add(e, w[0].0, Scaled(w[0].1, risk));
    assert AddAll(e, w[..1], risk) == first;
    AddingShiftsTheSum(e, w[0].0, Scaled(w[0].1, risk));
    AddingShiftsTheSum(first, w[1].0, Scaled(w[1].1, risk));
    assert Scaled(-sign, risk) == -Scaled(sign, risk);
  }

  lemma {:induction false} SmallerSharesSumToLess(f: Entry -> real, g: Entry -> real, entries: seq<Entry>)
    requires forall e :: e in entries ==> f(e) <= g(e)
    ensures SumBy(f, entries) <= SumBy(g, entries)
  {
    if entries != [] {
      assert entries[|entries| - 1] in entries;
      SmallerSharesSumToLess(f, g, entries[..|entries| - 1]);
    }
  }

  lemma ShareIsAtMostTheRisk(score: real, risk: real, threshold: real)
    requires risk >= 0.0 && score <= 1.0
    ensures CorrelatedShare(score, risk, threshold) <= risk
  {
  }

  /** The correlated part of the book never exceeds the whole, whatever the threshold. */
  lemma CorrelatedRiskIsPartOfTotal(candidate: Entry, entries: seq<Entry>, threshold: real, rootTwo: real)
    requires IsRootTwo(rootTwo)
    requires forall e :: e in entries ==> e.risk >= 0.0
    ensures CorrelatedRisk(candidate, entries, threshold, rootTwo) <= TotalRisk(entries) + candidate.risk
  {
    forall e | e in entries ensures ShareOf(candidate, threshold, rootTwo)(e) <= RiskOf()(e) {
      ShareIsAtMostTheRisk(ScoreWith(candidate, e, rootTwo), e.risk, threshold);
    }
    SmallerSharesSumToLess(ShareOf(candidate, threshold, rootTwo), RiskOf(), entries);
  }

  lemma {:induction false} RemovingOne(amount: Entry -> real, entries: seq<Entry>, i: nat)
    requires i < |entries|
    ensures SumBy(amount, entries) == SumBy(amount, entries[..i] + entries[i + 1..]) + amount(entries[i])
  {
    var rest := entries[..i] + entries[i + 1..];
    if i == |entries| - 1 {
      assert rest == entries[..i];
    } else {
      var n := |entries| - 1;
      RemovingOne(amount, entries[..n], i);
      assert rest[..n - 1] == entries[..n][..i] + entries[..n][i + 1..];
      assert rest[n - 1] == entries[n];
    }
  }

  lemma {:induction false} SumIgnoresOrder(amount: Entry -> real, a: seq<Entry>, b: seq<Entry>)
    requires multiset(a) == multiset(b)
    ensures SumBy(amount, a) == SumBy(amount, b)
    decreases |a|
  {
    if a == [] {
      assert |multiset(b)| == 0;
    } else {
      var n := |a| - 1;
      assert a[n] in multiset(a);
      var i :| 0 <= i < |b| && b[i] == a[n];
      WithoutOne(a, n);
      WithoutOne(b, i);
      assert a[..n] + a[n + 1..] == a[..n];
      RemovingOne(amount, b, i);
      SumIgnoresOrder(amount, a[..n], b[..i] + b[i + 1..]);
    }
  }

  lemma WithoutOne(entries: seq<Entry>, i: nat)
    requires i < |entries|
    ensures multiset(entries[..i] + entries[i + 1..]) == multiset(entries) - multiset{entries[i]}
  {
    assert entries == entries[..i] + [entries[i]] + entries[i + 1..];
  }

  /** A position counts toward the correlated risk by its score, if that reaches the threshold, and not at all otherwise. */
  lemma EachCountsByItsScore(candidate: Entry, entries: seq<Entry>, e: Entry, threshold: real, rootTwo: real)
    requires IsRootTwo(rootTwo)
    ensures CorrelatedRisk(candidate, [], threshold, rootTwo) == candidate.risk
    ensures
      var score := CorrelationScore(candidate.symbol, candidate.direction, e.symbol, e.direction, rootTwo);
      var counted := CorrelatedRisk(candidate, entries + [e], threshold, rootTwo) - CorrelatedRisk(candidate, entries, threshold, rootTwo);
      if score >= threshold then IsShare(counted, e.risk, score) else counted == 0.0
    ensures TotalRisk([]) == 0.0 && TotalRisk(entries + [e]) == TotalRisk(entries) + e.risk
  {
    CorrelatedRiskGrows(candidate, entries + [e], |entries|, threshold, rootTwo);
    assert (entries + [e])[..|entries|] == entries && (entries + [e])[..|entries| + 1] == entries + [e];
    assert RiskOf()(e) == e.risk;
    ShareIsShare(ScoreWith(candidate, e, rootTwo), e.risk, threshold);
    hide CorrelationScore, CorrelatedRisk, CorrelatedShare, IsShare;
    NoEntriesNoRisk(candidate, threshold, rootTwo);
  }

  predicate IsShare(counted: real, risk: real, score: real) { counted == risk * score }

  lemma ShareIsShare(score: real, risk: real, threshold: real)
    ensures if score >= threshold then IsShare(CorrelatedShare(score, risk, threshold), risk, score)
            else CorrelatedShare(score, risk, threshold) == 0.0
  {
  }

  lemma NoEntriesNoRisk(candidate: Entry, threshold: real, rootTwo: real)
    requires IsRootTwo(rootTwo)
    ensures CorrelatedRisk(candidate, [], threshold, rootTwo) == candidate.risk
  {
  }

  /** What an exposure comes to in one currency. */
  function Net(e: Exposure, currency: string): real {
    var w := Weight(e, currency);
    if w.Some? then w.value else 0.0
  }

  lemma {:induction false} AddingShiftsOneCurrency(e: Exposure, key: string, amount: real, currency: string)
    ensures Net(Add(e, key, amount), currency) == Net(e, currency) + (if key == currency then amount else 0.0)
  {
    if e == [] {
      assert [(key, amount)][1..] == [];
    } else {
      if e[0].0 == key {
        assert Add(e, key, amount)[1..] == e[1..];
      } else {
        AddingShiftsOneCurrency(e[1..], key, amount, currency);
        assert Add(e, key, amount)[1..] == Add(e[1..], key, amount);
      }
    }
  }

  /** What a position is worth in one currency: its risk in the leg it is long, less its risk in the leg it is short. */
  function InCurrency(currency: string): Entry -> real {
    (e: Entry) =>
      var legs := SplitCurrencies(e.symbol);
      if legs.None? || legs.value.0 == legs.value.1 || (legs.value.0 != currency && legs.value.1 != currency) then 0.0
      else if (legs.value.0 == currency) == (e.direction == Buy) then e.risk else -e.risk
  }

  /** Over a book of two-legged pairs each currency's exposure is what the positions long it risk less what those short it do. */
  lemma {:induction false} ExposureIsNet(entries: seq<Entry>, currency: string)
    requires forall e :: e in entries ==> HasTwoLegs(e.symbol) || CurrencyExposure(e.symbol, e.direction) == []
    ensures Net(PerCurrency(entries), currency) == SumBy(InCurrency(currency), entries)
  {
    if entries != [] {
      var last := entries[|entries| - 1];
      ExposureIsNet(entries[..|entries| - 1], currency);
      assert last in entries;
      if HasTwoLegs(last.symbol) {
        ExposureIsTwoLegs(last.symbol, last.direction);
        TwoLegsShift(PerCurrency(entries[..|entries| - 1]), SplitCurrencies(last.symbol).value, Sign(last.direction), last.risk, currency);
      }
      hide SplitCurrencies;
    }
  }

  lemma TwoLegsShift(e: Exposure, legs: (string, string), sign: real, risk: real, currency: string)
    requires legs.0 != legs.1
    ensures Net(AddAll(e, TwoLegs(legs, sign), risk), currency)
            == Net(e, currency)
               + (if legs.0 == currency then Scaled(sign, risk) else if legs.1 == currency then -Scaled(sign, risk) else 0.0)
  {
    var w := TwoLegs(legs, sign);
    assert w[..1] == [w[0]] && w[..1][..0] == [];
    var first := Add(e, w[0].0, Scaled(w[0].1, risk));
    assert AddAll(e, w[..1], risk) == first;
    AddingShiftsOneCurrency(e, w[0].0, Scaled(w[0].1, risk), currency);
    AddingShiftsOneCurrency(first, w[1].0, Scaled(w[1].1, risk), currency);
    assert Scaled(-sign, risk) == -Scaled(sign, risk);
  }

  /** The order in which the broker lists positions changes neither the correlated nor the total risk. */
  lemma ExposureIgnoresOrder(candidate: Entry, a: seq<Entry>, b: seq<Entry>, threshold: real, rootTwo: real)
    requires IsRootTwo(rootTwo) && multiset(a) == multiset(b)
    ensures CorrelatedRisk(candidate, a, threshold, rootTwo) == CorrelatedRisk(candidate, b, threshold, rootTwo)
    ensures TotalRisk(a) == TotalRisk(b)
  {
    SumIgnoresOrder(ShareOf(candidate, threshold, rootTwo), a, b);
    SumIgnoresOrder(RiskOf(), a, b);
  }
}
