/** What every backtest keeps: no bar is seen early, the ledger adds up, and losses stay within the sized risk. */
module BacktestSafety {
  import opened Wrappers
  import opened Prices
  import opened Rounding
  import opened Sizing
  import opened Indicators
  import opened Sessions
  import opened Windows
  import opened Backtest
  import L = Levels
  import M = Management
  import R = RiskEngine
  import S = SimulatedTrade
  import T = TradeSafety

  // ---------------------------------------------------------------- causality

  /** A bar's decision depends on the bars up to it and on the H1 bars closed by its close. */
  lemma BarSeesOnlyThePast(
    setup: Setup, m15a: seq<Candle>, m15b: seq<Candle>, h1a: seq<Candle>, h1b: seq<Candle>, st: RunState, index: nat)
    requires setup.step >= 1 && index < |m15a| && index < |m15b| && m15a[..index + 1] == m15b[..index + 1]
    requires ClosedBy(h1a, m15a[index].CloseTime()) == ClosedBy(h1b, m15a[index].CloseTime())
    ensures AfterBar(setup, m15a, h1a, st, index) == AfterBar(setup, m15b, h1b, st, index)
  {
    hide AfterManaging, Proposed, AfterAsking, ClosedBy, IsForexWeekend, SortedByTime;
    assert m15a[index] == m15a[..index + 1][index] == m15b[..index + 1][index] == m15b[index];
  }

  lemma {:induction false} RunsAgreeWhileInputsAgree(
    setup: Setup, m15a: seq<Candle>, m15b: seq<Candle>, h1a: seq<Candle>, h1b: seq<Candle>, cutoff: int, k: nat)
    requires setup.step >= 1 && k <= |m15a| && k <= |m15b| && m15a[..k] == m15b[..k]
    requires forall c :: c in m15a[..k] ==> c.CloseTime() <= cutoff
    requires ClosedBy(h1a, cutoff) == ClosedBy(h1b, cutoff)
    ensures RunTo(setup, m15a, h1a, k) == RunTo(setup, m15b, h1b, k)
  {
    if k > setup.warmup {
      hide ClosedBy, AfterBar;
      var i := k - 1;
      assert m15a[..i] == m15a[..k][..i] && m15b[..i] == m15b[..k][..i];
      assert m15a[i] == m15a[..k][i];
      RunsAgreeWhileInputsAgree(setup, m15a, m15b, h1a, h1b, cutoff, i);
      ClosingTwice(h1a, m15a[i].CloseTime(), cutoff);
      ClosingTwice(h1b, m15a[i].CloseTime(), cutoff);
      BarSeesOnlyThePast(setup, m15a, m15b, h1a, h1b, RunTo(setup, m15a, h1a, i), i);
    }
  }

  /**
   The backtester is causal: two histories that agree on every bar closed by a moment give
   the same trades, balance and open position at that moment, whatever the strategy is and
   whatever follows. The H1 series may come in any order.
   */
  lemma BacktestIsCausal(
    setup: Setup, m15a: seq<Candle>, m15b: seq<Candle>, h1a: seq<Candle>, h1b: seq<Candle>, cutoff: int)
    requires setup.step >= 1
    requires InTimeOrder(m15a) && Uniform(m15a) && InTimeOrder(m15b) && Uniform(m15b)
    requires ClosedBy(m15a, cutoff) == ClosedBy(m15b, cutoff) && ClosedBy(h1a, cutoff) == ClosedBy(h1b, cutoff)
    ensures
      var k := |ClosedBy(m15a, cutoff)|;
      k <= |m15a| && k <= |m15b| && RunTo(setup, m15a, h1a, k) == RunTo(setup, m15b, h1b, k)
  {
    hide ClosedBy, RunTo;
    ClosedByIsAPrefix(m15a, cutoff);
    ClosedByIsAPrefix(m15b, cutoff);
    RunsAgreeWhileInputsAgree(setup, m15a, m15b, h1a, h1b, cutoff, |ClosedBy(m15a, cutoff)|);
  }

  // ---------------------------------------------------------------- what a proposal is worth

  /** Costs that cost, lot bounds that are bounds, and a strategy whose candidates are ordered. */
  ghost predicate Sane(setup: Setup) {
    && setup.Valid() && setup.Rules().Valid() && T.NoDeepPartials(setup.execution)
    && setup.Spread() >= 0.0
    && setup.spec.minLot >= 0.0 && setup.spec.maxLot >= 0.0
    && (forall a, b, c :: setup.strategy(a, b, c).Ok? ==> setup.strategy(a, b, c).value.Ordered())
  }

  /** What the structure engine prices levels from. */
  datatype Question = Question(
    direction: Direction, price: real, atr: real, sweep: Option<L.Sweep>, zone: L.EntryZone, pools: seq<L.Pool>, index: int,
    spread: Option<real>)
  {
    function Priced(config: L.LevelConfig): Result<L.Priced, L.LevelRefusal>
      requires atr > 0.0
    {
      L.PriceSetup(config, direction, price, atr, sweep, zone, pools, index, spread)
    }
  }

  /** The offer made of priced levels. */
  function OfferOn(q: Question, priced: L.Priced, tier: R.Tier, score: real): Offer {
    Offer(q.direction, priced.plan.entry, priced.plan.stopLoss, priced.plan.takeProfit, priced.riskReward, q.atr, tier, score)
  }

  /** Every offer of this strategy stands on levels the structure engine priced. */
  ghost predicate StandsOnLevels(config: L.LevelConfig, strategy: Strategy) {
    forall a, b, c :: strategy(a, b, c).Ok? ==>
      exists q: Question, tier, score ::
        q.atr > 0.0 && q.Priced(config).Ok? && strategy(a, b, c).value == OfferOn(q, q.Priced(config).value, tier, score)
  }

  /** Offers that stand on priced levels are ordered, which is all that is asked of a strategy. */
  lemma PricedOffersAreOrdered(config: L.LevelConfig, strategy: Strategy)
    requires config.Valid() && StandsOnLevels(config, strategy)
    ensures forall a, b, c :: strategy(a, b, c).Ok? ==> strategy(a, b, c).value.Ordered()
  {
    hide L.PriceSetup, L.StopFor;
    forall a, b, c | strategy(a, b, c).Ok? ensures strategy(a, b, c).value.Ordered() {
      var q: Question, tier, score :|
        q.atr > 0.0 && q.Priced(config).Ok? && strategy(a, b, c).value == OfferOn(q, q.Priced(config).value, tier, score);
      L.RatioRefusalIsUnreachable(config, q.direction, q.price, q.atr, q.sweep, q.zone, q.pools, q.index, q.spread);
    }
  }

  /** A trade opened at terms that are in order and whose recorded risk is the loss at the stop. */
  ghost predicate Opened(setup: Setup, terms: S.Terms) {
    terms.Valid() && terms.riskAmount == T.SizedRisk(setup.Rules(), terms)
  }

  lemma SizeFacts(spec: InstrumentSpec, budget: real, entry: real, stop: real, lookup: Option<RateLookup>)
    requires spec.minLot >= 0.0 && spec.maxLot >= 0.0 && SizeOf(spec, budget, entry, stop, lookup, None, None).Ok?
    ensures
      var size := SizeOf(spec, budget, entry, stop, lookup, None, None).value;
      && entry > 0.0 && stop > 0.0 && size.conversionRate > 0.0 && size.lots >= 0.0
      && size.actualRisk == MoneyAtRisk(size.lots, LossPerLot(spec, entry, stop, size.conversionRate))
  {
    hide InstrumentSpec.RoundLot, MoneyAtRisk, LossPerLot;
    WhatASizeIs(spec, budget, entry, stop, lookup, None, None);
    SizesAreNotNegative(spec, budget, entry, stop, lookup);
  }

  /** The target guard: under a fraction up to two an entry the spread pushed past its target is refused for the spread. */
  lemma TargetStaysAhead(direction: Direction, entry: real, target: real, spread: real, fraction: real)
    requires Gain(direction, entry, target) > 0.0 && spread >= 0.0
    requires !Exceeds(spread, Abs(target - Ahead(direction, entry, spread / 2.0)), fraction)
    ensures fraction <= 2.0 ==> Gain(direction, Ahead(direction, entry, spread / 2.0), target) >= 0.0
  {
    hide Exceeds;
    var distance := Abs(target - Ahead(direction, entry, spread / 2.0));
    if fraction <= 2.0 && distance > 0.0 && distance * 2.0 < spread {
      WideSpreadsExceed(spread, distance, fraction);
    }
  }

  lemma WideSpreadsExceed(spread: real, distance: real, fraction: real)
    requires distance > 0.0 && distance * 2.0 < spread && fraction <= 2.0
    ensures Exceeds(spread, distance, fraction)
  {
    assert distance * fraction <= distance * 2.0;
  }

  lemma RiskIsTheLossAtTheStop(spec: InstrumentSpec, rules: S.Rules, terms: S.Terms)
    requires rules.contractSize == spec.contractSize && terms.StopDistance() > 0.0
    ensures MoneyAtRisk(terms.lots, LossPerLot(spec, terms.entry, terms.initialStop, terms.conversionRate))
            == T.SizedRisk(rules, terms)
  {
  }

  lemma ProposalsAreInOrder(
    setup: Setup, m15: seq<Candle>, h1: seq<Candle>, index: nat, cutoff: int, balance: real, peak: real, losses: nat)
    requires Sane(setup) && Proposed(setup, m15, h1, index, cutoff, balance, peak, losses).Ok?
    ensures
      var terms := Proposed(setup, m15, h1, index, cutoff, balance, peak, losses).value;
      && Opened(setup, terms) && terms.entryIndex == index
      && (setup.maxSpreadTpFraction <= 2.0 ==> Gain(terms.direction, terms.entry, terms.takeProfit) >= 0.0)
  {
    hide SizeOf, R.RiskPct, LossPerLot, MoneyAtRisk, T.SizedRisk, Exceeds, Stake, R.DrawdownOf, R.FallFromPeak;
    var offer := setup.strategy(m15, h1, cutoff).value;
    assert offer.Ordered();
    var pct := R.RiskPct(setup.limits, offer.tier, R.DrawdownOf(balance, peak), losses);
    var entry := Filled(offer, setup.Spread());
    SizeFacts(setup.spec, Stake(balance, pct), entry, offer.stopLoss, setup.lookup);
    TargetStaysAhead(offer.direction, offer.entry, offer.takeProfit, setup.Spread(), setup.maxSpreadTpFraction);
    RiskIsTheLossAtTheStop(
      setup.spec, setup.Rules(), Proposed(setup, m15, h1, index, cutoff, balance, peak, losses).value);
  }

  // ---------------------------------------------------------------- what every run keeps

  /** The losing closed trades since the last that did not lose. */
  function Streak(trades: seq<S.Trade>): nat
    requires forall t :: t in trades ==> t.exit.Some?
  {
    if trades == [] || trades[|trades| - 1].exit.value.pnl >= 0.0 then 0 else Streak(trades[..|trades| - 1]) + 1
  }

  ghost predicate Closed(setup: Setup, t: S.Trade, before: nat) {
    && t.exit.Some? && t.exit.value.index < before
    && T.Sound(setup.Rules(), t) && Opened(setup, t.terms)
  }

  function ExitBar(t: S.Trade): nat { if t.exit.Some? then t.exit.value.index else 0 }

  /** One position at a time: each trade opens on or after the bar the one before it closed on. */
  ghost predicate Disjoint(done: seq<S.Trade>) {
    forall i :: 0 < i < |done| ==> ExitBar(done[i - 1]) <= done[i].terms.entryIndex
  }

  /** A trade opened no earlier than the last of these closed. */
  ghost predicate Follows(t: S.Trade, done: seq<S.Trade>) {
    done != [] ==> ExitBar(done[|done| - 1]) <= t.terms.entryIndex
  }

  /** The money adds up. */
  ghost predicate Balanced(start: real, balance: real, peak: real, losses: nat, done: seq<S.Trade>)
    requires forall t :: t in done ==> t.exit.Some?
  {
    balance == start + S.Pnl(done) && balance <= peak && start <= peak && losses == Streak(done)
  }

  ghost predicate Consistent(setup: Setup, st: RunState, k: nat) {
    && (forall t :: t in st.done ==> Closed(setup, t, k))
    && Disjoint(st.done)
    && (st.open.Some? ==>
          && st.open.value.exit.None? && st.open.value.terms.entryIndex < k && Follows(st.open.value, st.done)
          && T.Sound(setup.Rules(), st.open.value) && Opened(setup, st.open.value.terms))
    && Balanced(setup.startingBalance, st.balance, st.peak, st.losses, st.done)
    && |st.curve| == |st.done| + 1 && st.considered == |Trades(st)|
  }

  lemma SettlingKeepsConsistent(setup: Setup, st: RunState, t: S.Trade, k: nat)
    requires Consistent(setup, st, k) && st.open.Some? && Closed(setup, t, k + 1) && t.terms == st.open.value.terms
    ensures Consistent(setup, Settled(st, t), k + 1)
  {
  }

  lemma WaitingKeepsConsistent(setup: Setup, st: RunState, k: nat)
    requires Consistent(setup, st, k)
    ensures Consistent(setup, st.(bars := st.bars + 1), k + 1)
    ensures Consistent(setup, st.(bars := st.bars + 1), k)
  {
  }

  lemma ManagingKeepsConsistent(setup: Setup, st: RunState, bar: Candle, k: nat)
    requires Sane(setup) && Consistent(setup, st, k) && bar.Valid()
    ensures Consistent(setup, AfterManaging(setup, st, bar, k), k + 1)
  {
    var counted := st.(bars := st.bars + 1);
    WaitingKeepsConsistent(setup, st, k);
    if st.open.Some? {
      hide S.Resolved, Settled, Sane, Consistent;
      var t := S.Resolved(setup.Rules(), st.open.value, bar, k);
      OpenUnfolds(setup, st, k);
      SaneUnfolds(setup);
      T.NoDeepPartialsStayWithinRisk(setup.Rules(), st.open.value.terms);
      T.BarKeepsSound(setup.Rules(), st.open.value, bar, k);
      ResolvedClosesNow(setup.Rules(), st.open.value, bar, k);
      if t.exit.Some? {
        SettlingKeepsConsistent(setup, counted, t, k);
      } else {
        ReplacingKeepsConsistent(setup, counted, t, k + 1);
      }
    }
  }

  lemma OpenUnfolds(setup: Setup, st: RunState, k: nat)
    requires Consistent(setup, st, k) && st.open.Some?
    ensures st.open.value.exit.None? && T.Sound(setup.Rules(), st.open.value) && Opened(setup, st.open.value.terms)
    ensures st.open.value.terms.Valid()
  {
  }

  lemma ReplacingKeepsConsistent(setup: Setup, st: RunState, t: S.Trade, k: nat)
    requires Consistent(setup, st, k) && st.open.Some? && t.terms == st.open.value.terms
    requires t.exit.None? && T.Sound(setup.Rules(), t)
    ensures Consistent(setup, st.(open := Some(t)), k)
  {
  }

  lemma SaneUnfolds(setup: Setup)
    requires Sane(setup)
    ensures setup.Rules().Valid() && T.NoDeepPartials(setup.Rules().config) && setup.step >= 1
  {
  }

  /** A bar that closes a trade stamps its own index on the exit. */
  lemma ResolvedClosesNow(rules: S.Rules, t: S.Trade, bar: Candle, index: nat)
    requires t.exit.None?
    ensures S.Resolved(rules, t, bar, index).exit.Some? ==> S.Resolved(rules, t, bar, index).exit.value.index == index
  {
    hide S.PlanFor, S.ActedAll, S.Booked;
    var u := S.Excursed(t, bar);
    ActingClosesNow(rules, u, bar, index, S.PlanFor(rules, u, bar));
  }

  lemma {:induction false} ActingClosesNow(rules: S.Rules, t: S.Trade, bar: Candle, index: nat, actions: seq<M.Action>)
    requires t.exit.Some? ==> t.exit.value.index == index
    ensures S.ActedAll(rules, t, bar, index, actions).exit.Some? ==> S.ActedAll(rules, t, bar, index, actions).exit.value.index == index
    decreases |actions|
  {
    if actions != [] && t.exit.None? {
      hide S.Booked, S.PartialMove, Round6;
      ActingClosesNow(rules, S.Acted(rules, t, bar, index, actions[0]), bar, index, actions[1..]);
    }
  }

  lemma AskingKeepsConsistent(setup: Setup, m15: seq<Candle>, h1: seq<Candle>, st: RunState, k: nat)
    requires Sane(setup) && k < |m15| && Consistent(setup, st, k + 1) && st.open.None?
    ensures Consistent(setup, AfterAsking(st, Asked(setup, m15, h1, k, st.balance, st.peak, st.losses)), k + 1)
  {
    hide T.Sound, Opened, Proposed, Sane, IsForexWeekend, S.Pnl, Streak, VisibleH1, VisibleM15;
    SaneUnfolds(setup);
    var asked := Asked(setup, m15, h1, k, st.balance, st.peak, st.losses);
    if asked.Some? && asked.value.Ok? {
      var cutoff := m15[k].CloseTime();
      ProposalsAreInOrder(setup, VisibleM15(m15, k), VisibleH1(h1, cutoff), k, cutoff, st.balance, st.peak, st.losses);
      OpenedIsValid(setup, asked.value.value);
      T.OpeningIsSound(setup.Rules(), asked.value.value);
      if st.done != [] {
        assert st.done[|st.done| - 1] in st.done;
      }
    }
  }

  lemma OpenedIsValid(setup: Setup, terms: S.Terms)
    requires Opened(setup, terms)
    ensures terms.Valid()
  {
  }

  /**
   In every run every trade is sound and opened at the risk it records, positions never
   overlap, the balance is the starting balance plus the results of the closed trades, the
   peak is never below it, and the losing streak is the streak of the closed trades.
   */
  lemma {:induction false} EveryRunIsConsistent(setup: Setup, m15: seq<Candle>, h1: seq<Candle>, k: nat)
    requires Sane(setup) && k <= |m15| && forall b :: b in m15 ==> b.Valid()
    ensures Consistent(setup, RunTo(setup, m15, h1, k), k)
  {
    if k > setup.warmup {
      hide Consistent, AfterManaging, AfterAsking, Asked, Sane;
      SaneUnfolds(setup);
      EveryRunIsConsistent(setup, m15, h1, k - 1);
      var st := RunTo(setup, m15, h1, k - 1);
      ManagingKeepsConsistent(setup, st, m15[k - 1], k - 1);
      var managed := AfterManaging(setup, st, m15[k - 1], k - 1);
      if managed.open.None? {
        AskingKeepsConsistent(setup, m15, h1, managed, k - 1);
      }
    }
  }

  /**
   The last figure of every run is the starting balance plus the closed results, and no
   closed trade on the six-decimal lot grid has lost more than the risk it was sized for
   plus slippage and commission on its lots.
   */
  lemma EveryRunIsBounded(setup: Setup, m15: seq<Candle>, h1: seq<Candle>, k: nat)
    requires Sane(setup) && k <= |m15| && forall b :: b in m15 ==> b.Valid()
    ensures
      var st := RunTo(setup, m15, h1, k);
      && (forall t :: t in st.done ==> t.exit.Some?)
      && st.balance == setup.startingBalance + S.Pnl(st.done)
      && (forall t :: t in st.done && OnGrid6(t.terms.lots) ==>
            t.exit.value.pnl >= -(t.terms.riskAmount + T.Frictions(setup.Rules(), t.terms, t.terms.lots)))
  {
    hide RunTo, Sane, T.Sound, T.Frictions, S.Pnl, OnGrid6;
    SaneUnfolds(setup);
    EveryRunIsConsistent(setup, m15, h1, k);
    var st := RunTo(setup, m15, h1, k);
    forall t | t in st.done && OnGrid6(t.terms.lots)
      ensures t.exit.value.pnl >= -(t.terms.riskAmount + T.Frictions(setup.Rules(), t.terms, t.terms.lots))
    {
      assert Closed(setup, t, k);
      SoundLossIsBounded(setup.Rules(), t);
    }
  }

  lemma SoundLossIsBounded(rules: S.Rules, t: S.Trade)
    requires T.Sound(rules, t) && t.exit.Some? && OnGrid6(t.terms.lots)
    ensures t.exit.value.pnl >= -(T.SizedRisk(rules, t.terms) + T.Frictions(rules, t.terms, t.terms.lots))
  {
    T.LotsAreConservedExactlyWhen(rules, t);
    T.WorstIsRiskAndFrictions(rules, t.terms);
    hide T.Worst, T.SizedRisk, T.Frictions, OnGrid6, Round6;
  }
}
