/** Position sizing from the broker's instrument specification. Money, prices and lots are reals. */
module Sizing {
  import opened Wrappers
  import opened Prices
  import opened Rounding

  datatype InstrumentSpec = InstrumentSpec(
    symbol: string, contractSize: real, tickSize: real,
    lotStep: real, minLot: real, maxLot: real,
    base: string, quote: string, accountCurrency: string)
  {
    /** Snap to the lot step, rounding down; without a step, to the nearest hundredth. */
    function RoundLot(lots: real): real {
      if lotStep <= 0.0 then Round2(lots)
      else Round8(Multiple(WholeSteps(lots, lotStep), lotStep))
    }

    /** The lot step is a multiple of the eight decimals lots are rounded to. */
    ghost predicate StepOnGrid() { lotStep > 0.0 && OnGrid8(lotStep) }
  }

  const LOT_EPSILON: real := 0.000000001

  function WholeSteps(lots: real, step: real): int
    requires step > 0.0
  {
    Truncate(lots / step + LOT_EPSILON)
  }

  function Multiple(n: int, step: real): real { n as real * step }

  datatype SizingError =
    | NonPositiveRisk | NonPositivePrice | ZeroStop | NoContractSize
    | NoAccountCurrency | NoQuoteCurrency | NoRateSource | NoRate
    | NonPositiveLoss | BelowMinimumLot | TooMuchMargin

  /** The broker's price of one unit of the first currency in the second, if it has one. */
  type RateLookup = (string, string) -> Option<real>

  datatype PositionSize = PositionSize(
    lots: real, units: real, riskAmount: real, actualRisk: real, lossPerLot: real, conversionRate: real,
    marginEstimate: Option<real>)

  /** What one unit of the quote currency is worth in the account currency, or a refusal to guess. */
  function ConversionRate(spec: InstrumentSpec, entry: real, lookup: Option<RateLookup>): (r: Result<real, SizingError>)
    ensures r.Ok? && entry > 0.0 ==> r.value > 0.0
    ensures r == Err(NoRate) ==>
              spec.quote != spec.accountCurrency && spec.base != spec.accountCurrency && lookup.Some?
  {
    if spec.accountCurrency == "" then Err(NoAccountCurrency)
    else if spec.quote != "" && spec.quote == spec.accountCurrency then Ok(1.0)
    else if spec.base != "" && spec.base == spec.accountCurrency then
      (if entry <= 0.0 then Err(NonPositivePrice) else Ok(1.0 / entry))
    else if spec.quote == "" then Err(NoQuoteCurrency)
    else if lookup.None? then Err(NoRateSource)
    else
      var direct := lookup.value(spec.quote, spec.accountCurrency);
      if direct.Some? && direct.value > 0.0 then Ok(direct.value)
      else
        var inverse := lookup.value(spec.accountCurrency, spec.quote);
        if inverse.Some? && inverse.value > 0.0 then Ok(1.0 / inverse.value)
        else Err(NoRate)
  }

  /** The account-currency loss of one lot from entry to stop. */
  function LossPerLot(spec: InstrumentSpec, entry: real, stopLoss: real, rate: real): real {
    Abs(entry - stopLoss) * spec.contractSize * rate
  }

  function MoneyAtRisk(lots: real, lossPerLot: real): real { lots * lossPerLot }

  /** The margin a position of this size is estimated to need, when the account is leveraged. */
  function MarginEstimate(spec: InstrumentSpec, lots: real, entry: real, rate: real, leverage: Option<real>): Option<real> {
    if leverage.Some? && leverage.value > 0.0
    then Some(lots * spec.contractSize * entry * rate / leverage.value) else None
  }

  predicate MarginRefused(estimate: Option<real>, availableMargin: Option<real>) {
    estimate.Some? && availableMargin.Some? && estimate.value > availableMargin.value * 0.5
  }

  function Sized(
    spec: InstrumentSpec, lots: real, riskAmount: real, lossPerLot: real, rate: real, margin: Option<real>): PositionSize
  {
    PositionSize(lots, lots * spec.contractSize, riskAmount, MoneyAtRisk(lots, lossPerLot), lossPerLot, rate, margin)
  }

  /** The lots that a budget buys before the minimum is checked: rounded down, capped at the maximum. */
  function LotsFor(spec: InstrumentSpec, riskAmount: real, lossPerLot: real): real
    requires lossPerLot > 0.0
  {
    var lots := spec.RoundLot(riskAmount / lossPerLot);
    if lots < spec.minLot then lots
    else if lots > spec.maxLot then spec.RoundLot(spec.maxLot)
    else lots
  }

  /** Lots that lose `riskAmount` at the stop, or the reason there are none. */
  method CalculatePositionSize(
    spec: InstrumentSpec, riskAmount: real, entry: real, stopLoss: real, lookup: Option<RateLookup>,
    leverage: Option<real>, availableMargin: Option<real>)
    returns (r: Result<PositionSize, SizingError>)
    ensures r == SizeOf(spec, riskAmount, entry, stopLoss, lookup, leverage, availableMargin)
    ensures r.Ok? ==> riskAmount > 0.0 && r.value.lossPerLot > 0.0
  {
    if riskAmount <= 0.0 {
      return Err(NonPositiveRisk);
    }
    if entry <= 0.0 || stopLoss <= 0.0 {
      return Err(NonPositivePrice);
    }
    if Abs(entry - stopLoss) <= 0.0 {
      return Err(ZeroStop);
    }
    if spec.contractSize <= 0.0 {
      return Err(NoContractSize);
    }
    var rate := ConversionRate(spec, entry, lookup);
    if rate.Err? {
      return Err(rate.error);
    }
    var lossPerLot := LossPerLot(spec, entry, stopLoss, rate.value);
    if lossPerLot <= 0.0 {
      return Err(NonPositiveLoss);
    }
    var lots := spec.RoundLot(riskAmount / lossPerLot);
    if lots < spec.minLot {
      return Err(BelowMinimumLot);
    }
    if lots > spec.maxLot {
      lots := spec.RoundLot(spec.maxLot);
    }
    var margin := MarginEstimate(spec, lots, entry, rate.value, leverage);
    if MarginRefused(margin, availableMargin) {
      return Err(TooMuchMargin);
    }
    assert lots == LotsFor(spec, riskAmount, lossPerLot);
    return Ok(Sized(spec, lots, riskAmount, lossPerLot, rate.value, margin));
  }

  /** The method's result as a function, for reasoning about two calls at once. */
  function SizeOf(
    spec: InstrumentSpec, riskAmount: real, entry: real, stopLoss: real, lookup: Option<RateLookup>,
    leverage: Option<real>, availableMargin: Option<real>): Result<PositionSize, SizingError>
  {
    if riskAmount <= 0.0 then Err(NonPositiveRisk)
    else if entry <= 0.0 || stopLoss <= 0.0 then Err(NonPositivePrice)
    else if Abs(entry - stopLoss) <= 0.0 then Err(ZeroStop)
    else if spec.contractSize <= 0.0 then Err(NoContractSize)
    else
      var rate := ConversionRate(spec, entry, lookup);
      if rate.Err? then Err(rate.error)
      else
        var lossPerLot := LossPerLot(spec, entry, stopLoss, rate.value);
        if lossPerLot <= 0.0 then Err(NonPositiveLoss)
        else if spec.RoundLot(riskAmount / lossPerLot) < spec.minLot then Err(BelowMinimumLot)
        else
          var lots := LotsFor(spec, riskAmount, lossPerLot);
          var margin := MarginEstimate(spec, lots, entry, rate.value, leverage);
          if MarginRefused(margin, availableMargin) then Err(TooMuchMargin)
          else
            Ok(Sized(spec, lots, riskAmount, lossPerLot, rate.value, margin))
  }

  // ---------------------------------------------------------------- rounding down

  lemma RoundLotOnGrid(spec: InstrumentSpec, lots: real)
    requires spec.StepOnGrid()
    ensures spec.RoundLot(lots) == Multiple(WholeSteps(lots, spec.lotStep), spec.lotStep)
  {
    var n := WholeSteps(lots, spec.lotStep);
    GridMultiplesRoundToThemselves(Multiple(n, spec.lotStep), n, spec.lotStep);
  }

  lemma WholeStepsIsMonotone(a: real, b: real, step: real)
    requires a <= b && step > 0.0
    ensures WholeSteps(a, step) <= WholeSteps(b, step)
  {
    QuotientIsMonotone(a, b, step);
    TruncateIsMonotone(a / step + LOT_EPSILON, b / step + LOT_EPSILON);
  }

  lemma WholeStepsOfAMultiple(n: nat, step: real)
    requires step > 0.0
    ensures WholeSteps(Multiple(n, step), step) == n
  {
    assert Multiple(n, step) / step == n as real;
  }

  lemma MultipleIsMonotone(m: int, n: int, step: real)
    requires m <= n && step > 0.0
    ensures Multiple(m, step) <= Multiple(n, step)
  {
    assert (n - m) as real * step >= 0.0;
  }

  lemma RoundLotIsMonotone(spec: InstrumentSpec, a: real, b: real)
    requires a <= b
    ensures spec.RoundLot(a) <= spec.RoundLot(b)
  {
    if spec.lotStep <= 0.0 {
      RoundingIsMonotone(a, b);
    } else {
      var m, n := WholeSteps(a, spec.lotStep), WholeSteps(b, spec.lotStep);
      WholeStepsIsMonotone(a, b, spec.lotStep);
      MultipleIsMonotone(m, n, spec.lotStep);
      RoundingIsMonotone(Multiple(m, spec.lotStep), Multiple(n, spec.lotStep));
    }
  }

  /** Rounding again changes nothing. */
  lemma RoundLotIsIdempotent(spec: InstrumentSpec, lots: real)
    requires lots >= 0.0 && (spec.lotStep <= 0.0 || spec.StepOnGrid())
    ensures spec.RoundLot(spec.RoundLot(lots)) == spec.RoundLot(lots)
  {
    if spec.lotStep <= 0.0 {
      NearestOfAnInteger(Round2(lots) * 100.0, Nearest(lots * 100.0));
    } else {
      var n := WholeSteps(lots, spec.lotStep);
      QuotientIsMonotone(0.0, lots, spec.lotStep);
      RoundLotOnGrid(spec, lots);
      RoundLotOnGrid(spec, Multiple(n, spec.lotStep));
      WholeStepsOfAMultiple(n, spec.lotStep);
    }
  }

  /**
   On the grid, sizing never spends more than the budget divided by (1 - 1e-9), whether or
   not the broker's maximum capped it.
   */
  lemma SizedRiskIsWithinBudget(
    spec: InstrumentSpec, riskAmount: real, entry: real, stopLoss: real, lookup: Option<RateLookup>,
    leverage: Option<real>, availableMargin: Option<real>)
    requires spec.StepOnGrid() && spec.minLot > 0.0
    requires SizeOf(spec, riskAmount, entry, stopLoss, lookup, leverage, availableMargin).Ok?
    ensures
      var size := SizeOf(spec, riskAmount, entry, stopLoss, lookup, leverage, availableMargin).value;
      size.actualRisk * (1.0 - LOT_EPSILON) <= riskAmount && size.actualRisk <= riskAmount * 1.02
  {
    hide *;
    var size := SizeOf(spec, riskAmount, entry, stopLoss, lookup, leverage, availableMargin).value;
    WhatASizeIs(spec, riskAmount, entry, stopLoss, lookup, leverage, availableMargin);
    var raw := riskAmount / size.lossPerLot;
    QuotientIsPositive(riskAmount, size.lossPerLot);
    RoundLotStaysBelow(spec, raw);
    CappedLotsAreFewer(spec, raw);
    QuotientTimesDivisor(riskAmount, size.lossPerLot);
    ScaledBound(size.lots, spec.RoundLot(raw), raw, size.lossPerLot, riskAmount);
  }

  lemma QuotientIsPositive(a: real, d: real)
    requires a > 0.0 && d > 0.0
    ensures a / d > 0.0
  {
  }

  /** Every size that comes out is the rounded-down purchase, or the broker's maximum below it. */
  lemma WhatASizeIs(
    spec: InstrumentSpec, riskAmount: real, entry: real, stopLoss: real, lookup: Option<RateLookup>,
    leverage: Option<real>, availableMargin: Option<real>)
    requires SizeOf(spec, riskAmount, entry, stopLoss, lookup, leverage, availableMargin).Ok?
    ensures
      var size := SizeOf(spec, riskAmount, entry, stopLoss, lookup, leverage, availableMargin).value;
      && riskAmount > 0.0 && size.lossPerLot > 0.0
      && size.actualRisk == MoneyAtRisk(size.lots, size.lossPerLot)
      && spec.RoundLot(riskAmount / size.lossPerLot) >= spec.minLot
      && (size.lots == spec.RoundLot(riskAmount / size.lossPerLot)
          || (size.lots == spec.RoundLot(spec.maxLot) && spec.RoundLot(riskAmount / size.lossPerLot) > spec.maxLot))
  {
  }

  lemma CappedLotsAreFewer(spec: InstrumentSpec, raw: real)
    requires spec.StepOnGrid() && raw >= 0.0
    ensures spec.RoundLot(raw) > spec.maxLot ==> spec.RoundLot(spec.maxLot) <= spec.RoundLot(raw)
  {
    if spec.RoundLot(raw) > spec.maxLot {
      RoundLotIsMonotone(spec, spec.maxLot, spec.RoundLot(raw));
      RoundLotIsIdempotent(spec, raw);
    }
  }

  lemma ScaledBound(lots: real, uncapped: real, raw: real, lossPerLot: real, riskAmount: real)
    requires lots <= uncapped && uncapped * (1.0 - LOT_EPSILON) <= raw && lossPerLot > 0.0
    requires raw * lossPerLot == riskAmount && riskAmount > 0.0
    ensures MoneyAtRisk(lots, lossPerLot) * (1.0 - LOT_EPSILON) <= riskAmount
    ensures MoneyAtRisk(lots, lossPerLot) <= riskAmount * 1.02
  {
    var kept := lots * (1.0 - LOT_EPSILON);
    assert kept <= raw;
    assert kept * lossPerLot <= raw * lossPerLot;
    assert kept * lossPerLot == MoneyAtRisk(lots, lossPerLot) * (1.0 - LOT_EPSILON);
  }

  lemma RoundLotStaysBelow(spec: InstrumentSpec, raw: real)
    requires spec.StepOnGrid() && raw > 0.0 && spec.RoundLot(raw) > 0.0
    ensures spec.RoundLot(raw) * (1.0 - LOT_EPSILON) <= raw
  {
    RoundLotOnGrid(spec, raw);
    var n := WholeSteps(raw, spec.lotStep);
    QuotientTimesDivisor(raw, spec.lotStep);
    assert n >= 1;
    StepsStayBelow(n, raw / spec.lotStep, spec.lotStep);
  }

  lemma StepsStayBelow(n: int, q: real, step: real)
    requires n >= 1 && n as real <= q + LOT_EPSILON && step > 0.0
    ensures Multiple(n, step) * (1.0 - LOT_EPSILON) <= q * step
  {
    var kept := n as real * (1.0 - LOT_EPSILON);
    assert kept <= q;
    assert kept * step <= q * step;
    assert kept * step == Multiple(n, step) * (1.0 - LOT_EPSILON);
  }

  // ---------------------------------------------------------------- without a lot step

  /** Entry and stop at which one lot has a positive loss that can be put in money. */
  predicate Priceable(spec: InstrumentSpec, entry: real, stopLoss: real, lookup: Option<RateLookup>) {
    && entry > 0.0 && stopLoss > 0.0 && entry != stopLoss && spec.contractSize > 0.0
    && ConversionRate(spec, entry, lookup).Ok?
    && LossPerLot(spec, entry, stopLoss, ConversionRate(spec, entry, lookup).value) > 0.0
  }

  function Times(factor: real, x: real): real { factor * x }

  /** This budget is sized, and the size risks more than `factor` times it. */
  predicate Overshot(
    spec: InstrumentSpec, budget: real, entry: real, stopLoss: real, lookup: Option<RateLookup>, factor: real)
  {
    var sized := SizeOf(spec, budget, entry, stopLoss, lookup, None, None);
    sized.Ok? && sized.value.actualRisk > Times(factor, budget)
  }

  /** n hundredths of a lot are a size the spec allows, and rounding up to them can cost the factor. */
  predicate RoundsUpBy(spec: InstrumentSpec, n: nat, factor: real) {
    1 <= n && spec.minLot <= n as real / 100.0 <= Round2(spec.maxLot) && factor * (n as real - 0.5) < n as real
  }

  /**
   Without a lot step the size is rounded to the nearest hundredth. For every such spec and
   every factor, some budget is overshot by more than the factor if and only if the spec
   allows a size of n hundredths so small that half a hundredth is that much of it: up to
   0.25 lots for the 2% of the last-resort check, a single hundredth for nearly double.
   */
  lemma WithoutALotStepTheGuardMatters(
    spec: InstrumentSpec, entry: real, stopLoss: real, lookup: Option<RateLookup>, factor: real)
    requires spec.lotStep <= 0.0 && factor >= 1.0 && Priceable(spec, entry, stopLoss, lookup)
    ensures (exists budget :: Overshot(spec, budget, entry, stopLoss, lookup, factor))
            <==> (exists n: nat :: RoundsUpBy(spec, n, factor))
  {
    hide Overshot, RoundsUpBy, Priceable;
    if budget :| Overshot(spec, budget, entry, stopLoss, lookup, factor) {
      var n := OvershootingRoundsUp(spec, budget, entry, stopLoss, lookup, factor);
    }
    if n: nat :| RoundsUpBy(spec, n, factor) {
      var budget := RoundingUpOvershoots(spec, n, entry, stopLoss, lookup, factor);
    }
  }

  /** What a stepless purchase comes to: the nearest hundredth, or the maximum's. */
  lemma SteplessSize(spec: InstrumentSpec, budget: real, entry: real, stopLoss: real, lookup: Option<RateLookup>)
    requires spec.lotStep <= 0.0 && Priceable(spec, entry, stopLoss, lookup) && budget > 0.0
    ensures
      var loss := LossPerLot(spec, entry, stopLoss, ConversionRate(spec, entry, lookup).value);
      var sized, bought := SizeOf(spec, budget, entry, stopLoss, lookup, None, None), Round2(budget / loss);
      && (sized.Ok? <==> bought >= spec.minLot)
      && (sized.Ok? ==>
            sized.value.actualRisk == MoneyAtRisk(if bought > spec.maxLot then Round2(spec.maxLot) else bought, loss))
  {
    hide Round2, LossPerLot, MoneyAtRisk, ConversionRate;
  }

  /** Lots overshoot a budget by the factor exactly when they exceed the exact purchase by it. */
  lemma OvershootInLots(lots: real, budget: real, loss: real, factor: real)
    requires loss > 0.0
    ensures MoneyAtRisk(lots, loss) > Times(factor, budget) <==> lots > Times(factor, budget / loss)
  {
    var raw := budget / loss;
    QuotientTimesDivisor(budget, loss);
    assert factor * budget == (factor * raw) * loss;
    var over := lots - factor * raw;
    assert MoneyAtRisk(lots, loss) - factor * budget == over * loss;
    if over > 0.0 {
      assert over * loss > 0.0;
    } else {
      assert -over * loss >= 0.0;
    }
  }

  /** Without a step, overshooting is a matter of the rounded lots against the exact purchase. */
  lemma OvershotInHundredths(
    spec: InstrumentSpec, budget: real, entry: real, stopLoss: real, lookup: Option<RateLookup>, factor: real,
    loss: real, raw: real)
    requires spec.lotStep <= 0.0 && Priceable(spec, entry, stopLoss, lookup) && budget > 0.0
    requires loss == LossPerLot(spec, entry, stopLoss, ConversionRate(spec, entry, lookup).value) > 0.0
    requires raw == budget / loss
    ensures Overshot(spec, budget, entry, stopLoss, lookup, factor)
            <==> Round2(raw) >= spec.minLot
                 && (if Round2(raw) > spec.maxLot then Round2(spec.maxLot) else Round2(raw)) > Times(factor, raw)
  {
    SteplessSize(spec, budget, entry, stopLoss, lookup);
    hide Round2, Priceable, LossPerLot, MoneyAtRisk, ConversionRate, SizeOf, Times;
    OvershootInLots(if Round2(raw) > spec.maxLot then Round2(spec.maxLot) else Round2(raw), budget, loss, factor);
  }

  lemma OvershootingRoundsUp(
    spec: InstrumentSpec, budget: real, entry: real, stopLoss: real, lookup: Option<RateLookup>, factor: real)
    returns (n: nat)
    requires spec.lotStep <= 0.0 && factor >= 1.0 && Priceable(spec, entry, stopLoss, lookup)
    requires Overshot(spec, budget, entry, stopLoss, lookup, factor)
    ensures RoundsUpBy(spec, n, factor)
  {
    hide LossPerLot, ConversionRate, Round2, MoneyAtRisk, Times, InstrumentSpec.RoundLot;
    assert budget > 0.0;
    var loss := LossPerLot(spec, entry, stopLoss, ConversionRate(spec, entry, lookup).value);
    assert loss > 0.0;
    hide *;
    QuotientIsPositive(budget, loss);
    OvershotInHundredths(spec, budget, entry, stopLoss, lookup, factor, loss, budget / loss);
    n := LotsRoundUp(spec, budget / loss, factor);
  }

  /** What was bought by rounding up is a whole number of hundredths under the maximum as rounded. */
  lemma BoughtIsHundredths(maxLot: real, raw: real)
    requires raw > 0.0 && (if Round2(raw) > maxLot then Round2(maxLot) else Round2(raw)) > raw
    ensures (if Round2(raw) > maxLot then Round2(maxLot) else Round2(raw)) == Round2(raw) <= Round2(maxLot)
  {
    var m, cap := Nearest(raw * 100.0), Nearest(maxLot * 100.0);
    NearestOfAnInteger(m as real, m);
    NearestOfAnInteger(cap as real, cap);
    if m as real / 100.0 <= maxLot {
      NearestIsMonotone(m as real, maxLot * 100.0);
    } else {
      NearestIsMonotone(maxLot * 100.0, m as real);
      NearestIsMonotone(raw * 100.0, cap as real);
    }
  }

  /** The arithmetic: of what was rounded up, the hundredths. */
  lemma LotsRoundUp(spec: InstrumentSpec, raw: real, factor: real) returns (n: nat)
    requires raw > 0.0 && factor >= 1.0 && Round2(raw) >= spec.minLot
    requires (if Round2(raw) > spec.maxLot then Round2(spec.maxLot) else Round2(raw)) > Times(factor, raw)
    ensures RoundsUpBy(spec, n, factor)
  {
    assert factor * raw - raw == (factor - 1.0) * raw >= 0.0;
    BoughtIsHundredths(spec.maxLot, raw);
    var m := Nearest(raw * 100.0);
    var slack := raw - (m as real - 0.5) / 100.0;
    assert slack >= 0.0;
    assert factor * raw == factor * slack + factor * (m as real - 0.5) / 100.0;
    assert factor * slack >= 0.0;
    n := m;
  }

  lemma RoundingUpOvershoots(
    spec: InstrumentSpec, n: nat, entry: real, stopLoss: real, lookup: Option<RateLookup>, factor: real)
    returns (budget: real)
    requires spec.lotStep <= 0.0 && factor >= 1.0 && Priceable(spec, entry, stopLoss, lookup)
    requires RoundsUpBy(spec, n, factor)
    ensures Overshot(spec, budget, entry, stopLoss, lookup, factor)
  {
    var loss := LossPerLot(spec, entry, stopLoss, ConversionRate(spec, entry, lookup).value);
    assert loss > 0.0;
    hide LossPerLot, ConversionRate, SizeOf, Round2, Priceable, Overshot, Times;
    var raw := PurchaseToRoundUp(n, factor);
    budget := loss * raw;
    assert budget > 0.0;
    ProductOverFactor(loss, raw);
    OvershotInHundredths(spec, budget, entry, stopLoss, lookup, factor, loss, raw);
  }

  /** Between half a hundredth below n of them and the point where rounding up costs the factor. */
  lemma PurchaseToRoundUp(n: nat, factor: real) returns (raw: real)
    requires n >= 1 && factor >= 1.0 && factor * (n as real - 0.5) < n as real
    ensures raw > 0.0 && Round2(raw) == n as real / 100.0 > Times(factor, raw)
  {
    var limit, low := n as real / factor, n as real - 0.5;
    QuotientTimesDivisor(n as real, factor);
    assert (limit - low) * factor == limit * factor - factor * low;
    PositiveFactor(limit - low, factor);
    if limit > n as real {
      assert (limit - n as real) * factor > 0.0;
      assert n as real * factor >= n as real;
    }
    var hundredths := (low + limit) / 2.0;
    raw := hundredths / 100.0;
    assert Nearest(raw * 100.0) == n;
    assert (limit - hundredths) * factor > 0.0;
    assert factor * hundredths == limit * factor - (limit - hundredths) * factor;
    assert factor * raw == factor * hundredths / 100.0;
  }

  // ---------------------------------------------------------------- two budgets

  /** The lots that come out of sizing, zero when it declines. */
  function LotsOf(r: Result<PositionSize, SizingError>): real {
    match r
    case Ok(size) => size.lots
    case Err(_) => 0.0
  }

  /** A smaller budget never buys more lots (no leverage, so no margin refusal). */
  lemma SmallerBudgetNeverBuysMore(
    spec: InstrumentSpec, less: real, more: real, entry: real, stopLoss: real, lookup: Option<RateLookup>)
    requires less <= more
    requires (spec.lotStep <= 0.0 || spec.StepOnGrid()) && spec.minLot >= 0.0 && spec.maxLot >= 0.0
    ensures LotsOf(SizeOf(spec, less, entry, stopLoss, lookup, None, None))
            <= LotsOf(SizeOf(spec, more, entry, stopLoss, lookup, None, None))
  {
    hide *;
    var a, b := SizeOf(spec, less, entry, stopLoss, lookup, None, None), SizeOf(spec, more, entry, stopLoss, lookup, None, None);
    LotsOfUnfolds(a);
    LotsOfUnfolds(b);
    if a.Ok? {
      WhatASizeIs(spec, less, entry, stopLoss, lookup, None, None);
      MoreStillSizes(spec, less, more, entry, stopLoss, lookup);
      WhatASizeIs(spec, more, entry, stopLoss, lookup, None, None);
      var loss := a.value.lossPerLot;
      QuotientIsMonotone(less, more, loss);
      RoundLotIsMonotone(spec, less / loss, more / loss);
      QuotientIsPositive(less, loss);
      QuotientIsPositive(more, loss);
      CapsAreMonotone(spec, less / loss, more / loss);
      CappedSize(spec, less, entry, stopLoss, lookup);
      CappedSize(spec, more, entry, stopLoss, lookup);
    } else if b.Ok? {
      SizesAreNotNegative(spec, more, entry, stopLoss, lookup);
    }
  }

  lemma LotsOfUnfolds(r: Result<PositionSize, SizingError>)
    ensures LotsOf(r) == if r.Ok? then r.value.lots else 0.0
  {
  }

  /** What a rounded purchase becomes under the broker's maximum. */
  function Capped(spec: InstrumentSpec, rounded: real): real {
    if rounded > spec.maxLot then spec.RoundLot(spec.maxLot) else rounded
  }

  lemma CappedSize(spec: InstrumentSpec, budget: real, entry: real, stopLoss: real, lookup: Option<RateLookup>)
    requires SizeOf(spec, budget, entry, stopLoss, lookup, None, None).Ok?
    ensures
      var size := SizeOf(spec, budget, entry, stopLoss, lookup, None, None).value;
      size.lossPerLot > 0.0 && size.lots == Capped(spec, spec.RoundLot(budget / size.lossPerLot))
  {
  }

  /** A larger budget at the same levels is sized too, against the same loss per lot. */
  lemma MoreStillSizes(spec: InstrumentSpec, less: real, more: real, entry: real, stopLoss: real, lookup: Option<RateLookup>)
    requires less <= more && SizeOf(spec, less, entry, stopLoss, lookup, None, None).Ok?
    ensures
      var a, b := SizeOf(spec, less, entry, stopLoss, lookup, None, None), SizeOf(spec, more, entry, stopLoss, lookup, None, None);
      b.Ok? && b.value.lossPerLot == a.value.lossPerLot
  {
    var loss := SizeOf(spec, less, entry, stopLoss, lookup, None, None).value.lossPerLot;
    assert loss > 0.0;
    QuotientIsMonotone(less, more, loss);
    RoundLotIsMonotone(spec, less / loss, more / loss);
    hide InstrumentSpec.RoundLot, LossPerLot, MoneyAtRisk, ConversionRate;
  }

  lemma CapsAreMonotone(spec: InstrumentSpec, raw: real, larger: real)
    requires 0.0 <= raw && spec.RoundLot(raw) <= spec.RoundLot(larger) && (spec.lotStep <= 0.0 || spec.StepOnGrid())
    ensures Capped(spec, spec.RoundLot(raw)) <= Capped(spec, spec.RoundLot(larger))
  {
    hide InstrumentSpec.RoundLot;
    RoundLotIsIdempotent(spec, raw);
    if spec.RoundLot(raw) <= spec.maxLot {
      RoundLotIsMonotone(spec, spec.RoundLot(raw), spec.maxLot);
    }
  }

  lemma SizesAreNotNegative(spec: InstrumentSpec, budget: real, entry: real, stopLoss: real, lookup: Option<RateLookup>)
    requires spec.minLot >= 0.0 && spec.maxLot >= 0.0 && SizeOf(spec, budget, entry, stopLoss, lookup, None, None).Ok?
    ensures SizeOf(spec, budget, entry, stopLoss, lookup, None, None).value.lots >= 0.0
  {
    hide InstrumentSpec.RoundLot, LossPerLot, MoneyAtRisk, ConversionRate;
    WhatASizeIs(spec, budget, entry, stopLoss, lookup, None, None);
    RoundLotIsMonotone(spec, 0.0, spec.maxLot);
    RoundLotOfNothing(spec);
  }

  lemma RoundLotOfNothing(spec: InstrumentSpec)
    ensures spec.RoundLot(0.0) == 0.0
  {
  }
}
