/** When a bar proposes a trade, what the trade stakes, and when a run opens one; told from prices, money and bar counts. */
module BacktestLaws {
  import opened Wrappers
  import opened Prices
  import opened Rounding
  import opened Sizing
  import opened Indicators
  import opened Sessions
  import opened Windows
  import opened Backtest
  import L = SizingLaws
  import R = RiskEngine
  import S = SimulatedTrade

  // ---------------------------------------------------------------- one proposal

  /** The balance is this share of its peak, or more, below it. */
  predicate Fallen(balance: real, peak: real, share: real) {
    if peak > 0.0 then peak - balance >= share * peak else share <= 0.0
  }

  /** The spread is this share of a distance, or less; over no distance it does not matter. */
  predicate Small(spread: real, distance: real, share: real) { distance > 0.0 ==> spread <= distance * share }

  /** The offer's price after half the spread is paid. */
  function Paid(offer: Offer, spread: real): real {
    if offer.direction == Buy then offer.entry + spread / 2.0 else offer.entry - spread / 2.0
  }

  function Apart(a: real, b: real): real { if a > b then a - b else b - a }

  predicate IsShare(money: real, balance: real, pct: real) { money == balance * pct }

  /** The grades in order: A+, A, B, none. */
  function Graded(tier: R.Tier): nat { if tier == R.TierAPlus then 3 else if tier == R.TierA then 2 else if tier == R.TierB then 1 else 0 }

  /** The size an offer is given: what the risk percentage of the balance buys from the paid price to the stop. */
  ghost predicate SizedAs(
    size: Result<PositionSize, SizingError>, setup: Setup, offer: Offer, entry: real, balance: real, peak: real, losses: nat)
  {
    exists budget ::
      && IsShare(budget, balance, R.RiskPct(setup.limits, offer.tier, R.DrawdownOf(balance, peak), losses))
      && size == SizeOf(setup.spec, budget, entry, offer.stopLoss, setup.lookup, None, None)
  }

  /** What a proposal comes to, refusal by refusal in order, and the terms of the trade when there is none. */
  lemma ProposedExactlyWhen(
    setup: Setup, m15: seq<Candle>, h1: seq<Candle>, index: nat, cutoff: int, balance: real, peak: real, losses: nat)
    ensures
      var r, found := Proposed(setup, m15, h1, index, cutoff, balance, peak, losses), setup.strategy(m15, h1, cutoff);
      && (found.Err? ==> r == Err(NoSetup(found.error)))
      && (found.Ok? ==>
            var offer, spread := found.value, setup.Spread();
            var entry := Paid(offer, spread);
            && IsShare(spread, setup.spreadPoints, setup.spec.tickSize)
            && if setup.haltOnMaxDrawdown && Fallen(balance, peak, setup.limits.maxDrawdownPct) then r == Err(MaxDrawdown)
            else
              exists size ::
                && SizedAs(size, setup, offer, entry, balance, peak, losses)
                && if size.Err? then r == Err(NoSize)
                   else if setup.limits.rewardEnabled && offer.riskReward < setup.limits.minRewardR - 0.000001
                   then r == Err(RewardObjective)
                   else if !(spread >= 0.0 && Small(spread, offer.atr, setup.maxSpreadAtrFraction)
                             && Small(spread, Apart(entry, offer.stopLoss), 0.25)
                             && Small(spread, Apart(offer.takeProfit, entry), setup.maxSpreadTpFraction))
                   then r == Err(SpreadGuard)
                   else
                     r == Ok(S.Terms(
                       setup.spec.symbol, offer.direction, index, cutoff, entry, offer.stopLoss, offer.takeProfit,
                       size.value.lots, size.value.actualRisk, size.value.conversionRate, Graded(offer.tier), Round2(offer.score))))
  {
    var found := setup.strategy(m15, h1, cutoff);
    if found.Ok? {
      var offer, spread := found.value, setup.Spread();
      var entry := Paid(offer, spread);
      var pct := R.RiskPct(setup.limits, offer.tier, R.DrawdownOf(balance, peak), losses);
      FallIsFallen(balance, peak, setup.limits.maxDrawdownPct);
      StakeIsShare(balance, pct);
      StakeIsShare(setup.spreadPoints, setup.spec.tickSize);
      assert Stake(setup.spreadPoints, setup.spec.tickSize) == spread;
      SpreadIsSmall(spread, offer.atr, Abs(entry - offer.stopLoss), Abs(offer.takeProfit - entry),
                    setup.maxSpreadAtrFraction, setup.maxSpreadTpFraction);
      assert Filled(offer, spread) == entry;
      hide R.FallFromPeak, Fallen, Stake, IsShare, SizeOf, R.RiskPct, R.DrawdownOf, SpreadOk, Small, Setup.Spread, Filled, Paid;
      var size := SizeOf(setup.spec, Stake(balance, pct), entry, offer.stopLoss, setup.lookup, None, None);
      assert SizedAs(size, setup, offer, entry, balance, peak, losses);
    }
  }

  lemma FallIsFallen(balance: real, peak: real, share: real)
    ensures R.FallFromPeak(balance, peak) >= share <==> Fallen(balance, peak, share)
  {
    if peak > 0.0 {
      QuotientReaches(peak - balance, peak, share);
    }
  }

  lemma StakeIsShare(balance: real, pct: real)
    ensures IsShare(Stake(balance, pct), balance, pct)
  {
  }

  lemma SpreadIsSmall(spread: real, atr: real, stop: real, target: real, atrFraction: real, tpFraction: real)
    ensures SpreadOk(spread, atr, stop, target, atrFraction, tpFraction)
            <==> spread >= 0.0 && Small(spread, atr, atrFraction) && Small(spread, stop, 0.25) && Small(spread, target, tpFraction)
  {
  }

  /** The lots and the money of a trade are what the share of the balance buys at its own loss a lot. */
  ghost predicate StakesTheShare(setup: Setup, terms: S.Terms, budget: real) {
    && L.Worth(setup.spec, terms.entry, setup.lookup, terms.conversionRate)
    && var loss := L.Loss(setup.spec, terms.entry, terms.initialStop, terms.conversionRate);
       && loss > 0.0 && terms.riskAmount == terms.lots * loss
       && exists bought ::
            L.Buys(setup.spec, budget, loss, bought) && bought >= setup.spec.minLot && terms.lots == Capped(setup.spec, bought)
  }

  /** What every proposed trade stakes: the risk percentage of the balance, bought in whole lot steps. */
  lemma ProposalsStakeTheShare(
    setup: Setup, m15: seq<Candle>, h1: seq<Candle>, index: nat, cutoff: int, balance: real, peak: real, losses: nat)
    requires Proposed(setup, m15, h1, index, cutoff, balance, peak, losses).Ok?
    ensures
      var terms, offer := Proposed(setup, m15, h1, index, cutoff, balance, peak, losses).value, setup.strategy(m15, h1, cutoff).value;
      exists budget ::
        && IsShare(budget, balance, R.RiskPct(setup.limits, offer.tier, R.DrawdownOf(balance, peak), losses))
        && StakesTheShare(setup, terms, budget)
  {
    var terms, offer := Proposed(setup, m15, h1, index, cutoff, balance, peak, losses).value, setup.strategy(m15, h1, cutoff).value;
    var pct := R.RiskPct(setup.limits, offer.tier, R.DrawdownOf(balance, peak), losses);
    var budget := Stake(balance, pct);
    StakeIsShare(balance, pct);
    hide R.FallFromPeak, Stake, IsShare, SizeOf, R.RiskPct, R.DrawdownOf, SpreadOk;
    SizedStakes(setup, terms, budget, terms.entry, offer.stopLoss,
                SizeOf(setup.spec, budget, terms.entry, offer.stopLoss, setup.lookup, None, None));
  }

  lemma SizedStakes(
    setup: Setup, terms: S.Terms, budget: real, entry: real, stop: real, size: Result<PositionSize, SizingError>)
    requires size == SizeOf(setup.spec, budget, entry, stop, setup.lookup, None, None) && size.Ok?
    requires terms.entry == entry && terms.initialStop == stop && terms.lots == size.value.lots
    requires terms.riskAmount == size.value.actualRisk && terms.conversionRate == size.value.conversionRate
    ensures StakesTheShare(setup, terms, budget)
  {
    var rate := ConversionRate(setup.spec, entry, setup.lookup);
    L.RefusedExactlyWhen(setup.spec, budget, entry, stop, setup.lookup, None, None);
    L.RatesAreWorth(setup.spec, entry, setup.lookup, terms.conversionRate);
    hide SizeOf, ConversionRate, L.Loss, L.Buys, L.Worth, Capped, MarginEstimate;
  }

  // ---------------------------------------------------------------- one bar of the run

  /** Enough H1 bars had closed, and the bar is one to ask on. */
  predicate IsToAsk(setup: Setup, h1: seq<Candle>, index: nat, cutoff: int)
    requires setup.step >= 1
  {
    index % setup.step == 0 && !IsForexWeekend(cutoff) && |ClosedBy(h1, cutoff)| >= 40
  }

  lemma SortingKeepsCount(candles: seq<Candle>)
    ensures |SortedByTime(candles)| == |candles|
  {
    SortingSorts(candles);
    assert |multiset(SortedByTime(candles))| == |multiset(candles)|;
  }

  /** What asking on a bar does to a run with nothing open. */
  ghost predicate AsksOn(setup: Setup, m15: seq<Candle>, h1: seq<Candle>, st: RunState, end: RunState, index: nat)
    requires setup.step >= 1 && index < |m15|
  {
    var cutoff := m15[index].CloseTime();
    && end == st.(open := end.open, considered := end.considered, refused := end.refused)
    && if !IsToAsk(setup, h1, index, cutoff) then
         end.open.None? && end.considered == st.considered && end.refused == st.refused
       else
         var r := Proposed(setup, VisibleM15(m15, index), VisibleH1(h1, cutoff), index, cutoff, st.balance, st.peak, st.losses);
         && (end.open.Some? <==> r.Ok?)
         && (r.Ok? ==> end.open == Some(S.AtOpening(r.value)) && end.considered == st.considered + 1 && end.refused == st.refused)
         && (r.Err? ==>
               && end.considered == st.considered
               && end.refused == st.refused[r.error := (if r.error in st.refused then st.refused[r.error] else 0) + 1])
  }

  lemma AskingAsks(setup: Setup, m15: seq<Candle>, h1: seq<Candle>, st: RunState, index: nat)
    requires setup.step >= 1 && index < |m15| && st.open.None?
    ensures AsksOn(setup, m15, h1, st, AfterAsking(st, Asked(setup, m15, h1, index, st.balance, st.peak, st.losses)), index)
  {
    SortingKeepsCount(ClosedBy(h1, m15[index].CloseTime()));
    hide Proposed, ClosedBy, SortedByTime, IsForexWeekend, VisibleM15, S.AtOpening;
  }

  /**
   What one bar does to a run. An open trade meets the bar; if it closes its result is
   booked. Then, with nothing open, a bar that is one to ask on opens a trade exactly when
   the windows it may see propose one, and otherwise counts the reason.
   */
  lemma BarOpensExactlyWhen(setup: Setup, m15: seq<Candle>, h1: seq<Candle>, index: nat)
    requires setup.step >= 1 && setup.warmup <= index < |m15|
    ensures
      var st, end := RunTo(setup, m15, h1, index), RunTo(setup, m15, h1, index + 1);
      var counted := st.(bars := st.bars + 1);
      if st.open.None? then AsksOn(setup, m15, h1, counted, end, index)
      else
        var t := S.Resolved(setup.Rules(), st.open.value, m15[index], index);
        if st.open.value.exit.Some? || t.exit.None? then end == counted.(open := Some(t))
        else
          var balance := st.balance + t.exit.value.pnl;
          var peak := if balance > st.peak then balance else st.peak;
          var losses := if t.exit.value.pnl < 0.0 then st.losses + 1 else 0;
          var booked := RunState(
            st.bars + 1, balance, peak, losses, None, st.done + [t], st.curve + [Round2(balance)], st.considered, st.refused);
          AsksOn(setup, m15, h1, booked, end, index)
  {
    hide *;
    BarUnfolds(setup, m15, h1, index);
    MaxMeans();
    var st := RunTo(setup, m15, h1, index);
    if st.open.None? {
      AskingAsks(setup, m15, h1, st.(bars := st.bars + 1), index);
    } else {
      var t := S.Resolved(setup.Rules(), st.open.value, m15[index], index);
      if st.open.value.exit.None? && t.exit.Some? {
        var balance := st.balance + t.exit.value.pnl;
        var peak, losses := Max(st.peak, balance), if t.exit.value.pnl < 0.0 then st.losses + 1 else 0;
        AskingAsks(
          setup, m15, h1,
          RunState(st.bars + 1, balance, peak, losses, None, st.done + [t], st.curve + [Round2(balance)], st.considered, st.refused),
          index);
      }
    }
  }

  lemma MaxMeans()
    ensures forall x, y :: Max(x, y) == if y > x then y else x
  {
  }
}
