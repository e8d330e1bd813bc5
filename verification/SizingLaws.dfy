/** What a position size comes to, told from prices, rates and lot steps: which size, and each refusal exactly. */
module SizingLaws {
  import opened Wrappers
  import opened Prices
  import opened Rounding
  import opened Sizing

  // ---------------------------------------------------------------- the conversion rate

  predicate Quotes(lookup: RateLookup, one: string, inThe: string, price: real) {
    lookup(one, inThe) == Some(price) && price > 0.0
  }

  ghost predicate Unquoted(lookup: RateLookup, one: string, inThe: string) {
    forall price :: !Quotes(lookup, one, inThe, price)
  }

  /** The account, the quote and the base are such that only the broker's own prices can convert. */
  predicate IsCross(spec: InstrumentSpec) {
    spec.accountCurrency != "" && spec.quote != "" && spec.quote != spec.accountCurrency && spec.base != spec.accountCurrency
  }

  predicate Inverse(a: real, b: real) { a * b == 1.0 }

  /** One unit of the quote currency is worth `rate` in the account currency. */
  ghost predicate Worth(spec: InstrumentSpec, entry: real, lookup: Option<RateLookup>, rate: real) {
    && spec.accountCurrency != ""
    && (|| (spec.quote == spec.accountCurrency && rate == 1.0)
        || (spec.quote != spec.accountCurrency && spec.base == spec.accountCurrency && entry > 0.0 && Inverse(rate, entry))
        || (IsCross(spec) && lookup.Some? && Quotes(lookup.value, spec.quote, spec.accountCurrency, rate))
        || (IsCross(spec) && lookup.Some? && Unquoted(lookup.value, spec.quote, spec.accountCurrency)
            && exists price :: Quotes(lookup.value, spec.accountCurrency, spec.quote, price) && Inverse(rate, price)))
  }

  lemma InverseIsUnique(a: real, b: real)
    requires b > 0.0
    ensures Inverse(a, b) <==> a == 1.0 / b
  {
    QuotientTimesDivisor(1.0, b);
    ProductsCompare(a, 1.0 / b, b);
    ProductsCompare(1.0 / b, a, b);
  }

  /** The rate is what one unit of the quote currency is worth, and it is refused exactly when nothing says so. */
  lemma RatesAreWorth(spec: InstrumentSpec, entry: real, lookup: Option<RateLookup>, rate: real)
    ensures
      var r := ConversionRate(spec, entry, lookup);
      && (r == Ok(rate) <==> Worth(spec, entry, lookup, rate))
      && (r == Err(NoAccountCurrency) <==> spec.accountCurrency == "")
      && (r == Err(NonPositivePrice) <==>
            spec.accountCurrency != "" && spec.quote != spec.accountCurrency && spec.base == spec.accountCurrency && entry <= 0.0)
      && (r == Err(NoQuoteCurrency) <==> spec.accountCurrency != "" && spec.quote == "" && spec.base != spec.accountCurrency)
      && (r == Err(NoRateSource) <==> IsCross(spec) && lookup.None?)
      && (r == Err(NoRate) <==>
            IsCross(spec) && lookup.Some? && Unquoted(lookup.value, spec.quote, spec.accountCurrency)
            && Unquoted(lookup.value, spec.accountCurrency, spec.quote))
  {
    if entry > 0.0 {
      InverseIsUnique(rate, entry);
    }
    if IsCross(spec) && lookup.Some? {
      var direct, inverse := lookup.value(spec.quote, spec.accountCurrency), lookup.value(spec.accountCurrency, spec.quote);
      assert direct.Some? && direct.value > 0.0 ==> Quotes(lookup.value, spec.quote, spec.accountCurrency, direct.value);
      assert inverse.Some? && inverse.value > 0.0 ==> Quotes(lookup.value, spec.accountCurrency, spec.quote, inverse.value);
      if inverse.Some? && inverse.value > 0.0 {
        InverseIsUnique(rate, inverse.value);
      }
    }
    hide Inverse;
  }

  // ---------------------------------------------------------------- the lots

  /** The most whole steps in `raw`, with a billionth of a step to spare. */
  ghost predicate MostSteps(lots: real, raw: real, step: real) {
    exists n: int :: IsSteps(lots, n, step) && Holds(raw, n, step)
  }

  predicate IsSteps(lots: real, n: int, step: real) { lots == n as real * step }

  predicate Holds(raw: real, n: int, step: real) {
    (n as real - 0.000000001) * step <= raw < (n as real + 1.0 - 0.000000001) * step
  }

  /** Lots are rounded down to whole steps; without a step, to the nearest hundredth. */
  lemma LotsAreTheMostSteps(spec: InstrumentSpec, raw: real)
    requires raw >= 0.0
    ensures spec.StepOnGrid() ==> MostSteps(spec.RoundLot(raw), raw, spec.lotStep)
    ensures spec.lotStep <= 0.0 ==> spec.RoundLot(raw) == Round2(raw)
  {
    if spec.StepOnGrid() {
      var n := WholeSteps(raw, spec.lotStep);
      RoundLotOnGrid(spec, raw);
      StepsHold(raw, spec.lotStep, n);
      assert IsSteps(spec.RoundLot(raw), n, spec.lotStep);
    }
  }

  lemma StepsHold(raw: real, step: real, n: int)
    requires raw >= 0.0 && step > 0.0 && n == WholeSteps(raw, step)
    ensures Holds(raw, n, step)
  {
    var q := raw / step;
    QuotientIsMonotone(0.0, raw, step);
    assert n as real <= q + 0.000000001 < n as real + 1.0;
    QuotientReaches(raw, step, n as real - 0.000000001);
    QuotientReaches(raw, step, n as real + 1.0 - 0.000000001);
  }

  // ---------------------------------------------------------------- the size

  /** What one lot loses from entry to stop, in account currency. */
  function Loss(spec: InstrumentSpec, entry: real, stop: real, rate: real): real {
    (if entry > stop then entry - stop else stop - entry) * spec.contractSize * rate
  }

  /** The lots a budget buys at this loss a lot: the most whole steps, or the nearest hundredth. */
  ghost predicate Buys(spec: InstrumentSpec, budget: real, loss: real, lots: real) {
    && (spec.StepOnGrid() ==> exists n: int :: IsSteps(lots, n, spec.lotStep) && Affords(budget, n, spec.lotStep, loss))
    && (spec.lotStep <= 0.0 ==> NearestHundredth(budget, loss, lots))
  }

  /** The budget pays for n steps, a billionth of a step to spare, and not for one more. */
  predicate Affords(budget: real, n: int, step: real, loss: real) {
    (n as real - 0.000000001) * step * loss <= budget < (n as real + 1.0 - 0.000000001) * step * loss
  }

  /** The lots are whole hundredths, and no more than half a hundredth off what the budget pays for. */
  predicate NearestHundredth(budget: real, loss: real, lots: real) {
    lots * 100.0 == (lots * 100.0).Floor as real && (lots - 0.005) * loss <= budget <= (lots + 0.005) * loss
  }

  function MarginOf(spec: InstrumentSpec, lots: real, entry: real, rate: real): real { lots * spec.contractSize * entry * rate }

  predicate IsMargin(estimate: real, leverage: real, notional: real) { estimate * leverage == notional }

  /** The size at these lots: what it loses at the stop, and the margin it needs on a leveraged account. */
  ghost predicate IsSize(
    size: PositionSize, spec: InstrumentSpec, budget: real, entry: real, rate: real, loss: real, leverage: Option<real>)
  {
    && size.conversionRate == rate && size.lossPerLot == loss && size.riskAmount == budget
    && size.actualRisk == size.lots * loss && size.units == size.lots * spec.contractSize
    && (size.marginEstimate.Some? <==> leverage.Some? && leverage.value > 0.0)
    && (size.marginEstimate.Some? ==> IsMargin(size.marginEstimate.value, leverage.value, MarginOf(spec, size.lots, entry, rate)))
  }

  lemma RoundedLotsAreBought(spec: InstrumentSpec, budget: real, loss: real)
    requires budget > 0.0 && loss > 0.0
    ensures Buys(spec, budget, loss, spec.RoundLot(budget / loss))
  {
    var raw := budget / loss;
    QuotientIsPositive(budget, loss);
    QuotientTimesDivisor(budget, loss);
    LotsAreTheMostSteps(spec, raw);
    NotBoth(spec);
    hide *;
    if spec.StepOnGrid() {
      BuysSteps(spec, budget, loss, spec.RoundLot(raw));
    } else if spec.lotStep <= 0.0 {
      HundredthsAreNear(raw, budget, loss);
      BuysHundredths(spec, budget, loss, Round2(raw));
    } else {
      BuysAnything(spec, budget, loss, spec.RoundLot(raw));
    }
  }

  lemma NotBoth(spec: InstrumentSpec)
    ensures spec.StepOnGrid() ==> spec.lotStep > 0.0
  {
  }

  lemma BuysSteps(spec: InstrumentSpec, budget: real, loss: real, lots: real)
    requires budget > 0.0 && loss > 0.0 && spec.StepOnGrid() && MostSteps(lots, budget / loss, spec.lotStep)
    ensures Buys(spec, budget, loss, lots)
  {
    hide Affords, Holds, IsSteps;
    var n: int :| IsSteps(lots, n, spec.lotStep) && Holds(budget / loss, n, spec.lotStep);
    QuotientTimesDivisor(budget, loss);
    HoldingIsAffording(budget / loss, budget, n, spec.lotStep, loss);
  }

  lemma BuysHundredths(spec: InstrumentSpec, budget: real, loss: real, lots: real)
    requires spec.lotStep <= 0.0 && NearestHundredth(budget, loss, lots)
    ensures Buys(spec, budget, loss, lots)
  {
    hide NearestHundredth;
  }

  /** A step finer than the eight decimals lots are rounded to is not spoken for. */
  lemma BuysAnything(spec: InstrumentSpec, budget: real, loss: real, lots: real)
    requires spec.lotStep > 0.0 && !spec.StepOnGrid()
    ensures Buys(spec, budget, loss, lots)
  {
  }

  lemma HoldingIsAffording(raw: real, budget: real, n: int, step: real, loss: real)
    requires Holds(raw, n, step) && loss > 0.0 && raw * loss == budget
    ensures Affords(budget, n, step, loss)
  {
    ProductsCompare(raw, (n as real - 0.000000001) * step, loss);
    ProductsCompare(raw, (n as real + 1.0 - 0.000000001) * step, loss);
  }

  lemma HundredthsAreNear(raw: real, budget: real, loss: real)
    requires loss > 0.0 && raw * loss == budget
    ensures NearestHundredth(budget, loss, Round2(raw))
  {
    NoHundredthIsNearer(raw, 0);
    var lots := Round2(raw);
    assert lots - 0.005 <= raw <= lots + 0.005;
    ProductsCompare(raw, lots - 0.005, loss);
    ProductsCompare(lots + 0.005, raw, loss);
  }

  /** Nothing about the request itself stands in the way. */
  predicate Asks(spec: InstrumentSpec, budget: real, entry: real, stop: real) {
    budget > 0.0 && entry > 0.0 && stop > 0.0 && entry != stop && spec.contractSize > 0.0
  }

  lemma LossIsLoss(spec: InstrumentSpec, entry: real, stop: real, rate: real)
    ensures LossPerLot(spec, entry, stop, rate) == Loss(spec, entry, stop, rate)
    ensures entry != stop && spec.contractSize > 0.0 && rate > 0.0 ==> Loss(spec, entry, stop, rate) > 0.0
  {
    if entry != stop && spec.contractSize > 0.0 && rate > 0.0 {
      ProductIsPositive(Abs(entry - stop), spec.contractSize);
      ProductIsPositive(Abs(entry - stop) * spec.contractSize, rate);
    }
  }

  /** More than half of the available margin. */
  predicate TooMuch(estimate: Option<real>, available: Option<real>) {
    estimate.Some? && available.Some? && estimate.value * 2.0 > available.value
  }

  lemma SizedIsSize(
    spec: InstrumentSpec, lots: real, budget: real, entry: real, stop: real, rate: real, leverage: Option<real>)
    ensures
      var margin := MarginEstimate(spec, lots, entry, rate, leverage);
      IsSize(Sized(spec, lots, budget, LossPerLot(spec, entry, stop, rate), rate, margin), spec, budget, entry, rate,
             Loss(spec, entry, stop, rate), leverage)
  {
    LossIsLoss(spec, entry, stop, rate);
    if leverage.Some? && leverage.value > 0.0 {
      QuotientTimesDivisor(MarginOf(spec, lots, entry, rate), leverage.value);
    }
    hide LossPerLot, Loss;
  }

  /**
   Each refusal exactly: the request first, then the rate, then the lots below the minimum,
   then the margin. Every other request is sized, and the loss a lot is never what refuses it.
   */
  lemma RefusedExactlyWhen(
    spec: InstrumentSpec, budget: real, entry: real, stop: real, lookup: Option<RateLookup>, leverage: Option<real>,
    available: Option<real>)
    ensures
      var r, rate := SizeOf(spec, budget, entry, stop, lookup, leverage, available), ConversionRate(spec, entry, lookup);
      && (r == Err(NonPositiveRisk) <==> budget <= 0.0)
      && (r == Err(NonPositivePrice) <==> budget > 0.0 && (entry <= 0.0 || stop <= 0.0))
      && (r == Err(ZeroStop) <==> budget > 0.0 && entry > 0.0 && stop > 0.0 && entry == stop)
      && (r == Err(NoContractSize) <==> budget > 0.0 && entry > 0.0 && stop > 0.0 && entry != stop && spec.contractSize <= 0.0)
      && r != Err(NonPositiveLoss)
      && (Asks(spec, budget, entry, stop) && rate.Err? ==> r == Err(rate.error))
      && (Asks(spec, budget, entry, stop) && rate.Ok? ==>
            var loss := Loss(spec, entry, stop, rate.value);
            && loss > 0.0
            && exists bought ::
                 && Buys(spec, budget, loss, bought)
                 && (r == Err(BelowMinimumLot) <==> bought < spec.minLot)
                 && (bought >= spec.minLot ==>
                       var lots := Capped(spec, bought);
                       if TooMuch(MarginEstimate(spec, lots, entry, rate.value, leverage), available) then r == Err(TooMuchMargin)
                       else r.Ok? && r.value.lots == lots && IsSize(r.value, spec, budget, entry, rate.value, loss, leverage)))
  {
    var rate := ConversionRate(spec, entry, lookup);
    if Asks(spec, budget, entry, stop) && rate.Ok? {
      var loss := LossPerLot(spec, entry, stop, rate.value);
      LossIsLoss(spec, entry, stop, rate.value);
      var bought := spec.RoundLot(budget / loss);
      RoundedLotsAreBought(spec, budget, loss);
      SizedIsSize(spec, Capped(spec, bought), budget, entry, stop, rate.value, leverage);
      hide Buys, IsSize, LossPerLot, Loss, ConversionRate, InstrumentSpec.RoundLot, MoneyAtRisk, MarginEstimate;
      assert Buys(spec, budget, Loss(spec, entry, stop, rate.value), bought);
    }
  }

  /** The maximum caps a size at the most whole steps (or the nearest hundredth) in it. */
  lemma CappedAtTheMaximum(spec: InstrumentSpec, bought: real)
    requires spec.maxLot >= 0.0
    ensures bought <= spec.maxLot ==> Capped(spec, bought) == bought
    ensures bought > spec.maxLot && spec.StepOnGrid() ==> MostSteps(Capped(spec, bought), spec.maxLot, spec.lotStep)
    ensures bought > spec.maxLot && spec.lotStep <= 0.0 ==> Capped(spec, bought) == Round2(spec.maxLot)
  {
    LotsAreTheMostSteps(spec, spec.maxLot);
  }
}
