/** What every portfolio run keeps: its slots, its ledger, the soundness of each trade, and the order of time. */
module PortfolioSafety {
  import opened Wrappers
  import opened Prices
  import opened Rounding
  import opened Indicators
  import opened Sessions
  import opened Windows
  import opened Portfolio
  import B = Backtest
  import L = BacktestSafety
  import M = Management
  import R = RiskEngine
  import S = SimulatedTrade
  import T = TradeSafety

  // ---------------------------------------------------------------- what every run keeps

  ghost predicate OnePerSymbol(open: seq<S.Trade>) {
    forall i, j :: 0 <= i < j < |open| ==> open[i].terms.symbol != open[j].terms.symbol
  }

  ghost predicate Consistent(start: real, st: State) {
    && (forall t :: t in st.done ==> t.exit.Some?)
    && (forall t :: t in st.open ==> t.exit.None?)
    && OnePerSymbol(st.open)
    && st.balance == start + S.Pnl(st.done) && st.balance <= st.peak
  }

  lemma KeepingKeepsConsistent(start: real, st: State, t: S.Trade)
    requires Consistent(start, st) && (forall d :: d in st.open ==> d.terms.symbol != t.terms.symbol)
    ensures Consistent(start, Kept(st, t))
    ensures |Kept(st, t).open| <= |st.open| + 1
    ensures forall d :: d in Kept(st, t).open ==> d in st.open || d == t
  {
  }

  lemma TradesKeepTheirSymbol(markets: seq<Market>, t: S.Trade, cutoff: int)
    ensures TradeAt(markets, t, cutoff).terms == t.terms
  {
    hide ClosedBy, S.Resolved;
    var market := MarketOf(markets, t.terms.symbol);
    if market.Some? && |ClosedBy(market.value.m15, cutoff)| > 0 {
      var closed := ClosedBy(market.value.m15, cutoff);
      ResolvingKeepsTerms(market.value.setup.Rules(), t, closed[|closed| - 1], |closed| - 1);
    }
  }

  lemma ResolvingKeepsTerms(rules: S.Rules, t: S.Trade, bar: Candle, index: nat)
    ensures S.Resolved(rules, t, bar, index).terms == t.terms
  {
    hide S.PlanFor, S.ActedAll, S.Booked;
    var u := S.Excursed(t, bar);
    ActingKeepsTerms(rules, u, bar, index, S.PlanFor(rules, u, bar));
  }

  lemma {:induction false} ActingKeepsTerms(rules: S.Rules, t: S.Trade, bar: Candle, index: nat, actions: seq<M.Action>)
    ensures S.ActedAll(rules, t, bar, index, actions).terms == t.terms
    decreases |actions|
  {
    if actions != [] && t.exit.None? {
      hide S.Booked, S.PartialMove, Round6;
      ActingKeepsTerms(rules, S.Acted(rules, t, bar, index, actions[0]), bar, index, actions[1..]);
    }
  }

  lemma {:induction false} ManagingKeepsConsistent(
    markets: seq<Market>, start: real, st: State, trades: seq<S.Trade>, cutoff: int, k: nat)
    requires k <= |trades| && Consistent(start, st) && st.open == [] && OnePerSymbol(trades)
    ensures Consistent(start, ManagedTo(markets, st, trades, cutoff, k))
    ensures |ManagedTo(markets, st, trades, cutoff, k).open| <= k
    ensures forall d :: d in ManagedTo(markets, st, trades, cutoff, k).open ==>
              exists i :: 0 <= i < k && d.terms.symbol == trades[i].terms.symbol
  {
    if k > 0 {
      hide Kept, TradeAt, Consistent;
      ManagingKeepsConsistent(markets, start, st, trades, cutoff, k - 1);
      TradesKeepTheirSymbol(markets, trades[k - 1], cutoff);
      KeepingKeepsConsistent(start, ManagedTo(markets, st, trades, cutoff, k - 1), TradeAt(markets, trades[k - 1], cutoff));
    }
  }

  /** Offers come only from symbols that hold no position, under their own names. */
  lemma {:induction false} OffersAreForFreeSymbols(markets: seq<Market>, st: State, cutoff: int, warmup: nat, k: nat)
    requires k <= |markets|
    ensures forall o :: o in OffersTo(markets, st, cutoff, warmup, k).0 ==> !Holds(st.open, o.symbol)
  {
    if k > 0 {
      hide B.Proposed, ClosedBy;
      OffersAreForFreeSymbols(markets, st, cutoff, warmup, k - 1);
      var m := markets[k - 1];
      var closed := ClosedBy(m.m15, cutoff);
      if OfferOf(m, st, cutoff, warmup).Some? {
        ProposalsCarryTheSymbol(m.setup, closed, ClosedBy(m.h1, cutoff), |closed| - 1, cutoff, st.balance, st.peak, st.losses);
      }
    }
  }

  lemma ProposalsCarryTheSymbol(
    setup: B.Setup, m15: seq<Candle>, h1: seq<Candle>, index: nat, cutoff: int, balance: real, peak: real, losses: nat)
    ensures
      var r := B.Proposed(setup, m15, h1, index, cutoff, balance, peak, losses);
      r.Ok? ==> r.value.symbol == setup.spec.symbol
  {
  }

  lemma TakingKeepsConsistent(start: real, st: State, offers: seq<S.Terms>, refused: map<Refusal, nat>)
    requires Consistent(start, st) && forall o :: o in offers ==> !Holds(st.open, o.symbol)
    ensures Consistent(start, Taken(st, offers, refused))
    ensures |Taken(st, offers, refused).open| <= |st.open| + 1
  {
  }

  /**
   At every moment of every portfolio run there are at most as many open positions as
   slots, never two on one symbol, and the balance is the starting balance plus the results
   of the closed trades.
   */
  lemma {:induction false} SlotsAreNeverExceeded(a: Account, timeline: seq<int>, k: nat)
    requires a.Valid() && k <= |timeline|
    ensures Consistent(a.startingBalance, RunTo(a, timeline, k)) && |RunTo(a, timeline, k).open| <= a.maxOpen
  {
    hide Consistent, AfterMoment, Begin;
    if k <= a.warmup {
      BeginIsConsistent(a.startingBalance);
    } else {
      SlotsAreNeverExceeded(a, timeline, k - 1);
      MomentKeepsConsistent(a, RunTo(a, timeline, k - 1), k - 1, timeline[k - 1]);
    }
  }

  lemma BeginIsConsistent(balance: real)
    ensures Consistent(balance, Begin(balance)) && Begin(balance).open == []
  {
  }

  lemma MomentKeepsConsistent(a: Account, st: State, position: nat, cutoff: int)
    requires a.step >= 1 && Consistent(a.startingBalance, st) && |st.open| <= a.maxOpen
    ensures Consistent(a.startingBalance, AfterMoment(a, st, position, cutoff))
    ensures |AfterMoment(a, st, position, cutoff).open| <= a.maxOpen
  {
    hide ManagedTo, OffersTo, Taken, IsForexWeekend, Holds, S.Pnl;
    var counted := st.(bars := st.bars + 1, open := []);
    ManagingKeepsConsistent(a.markets, a.startingBalance, counted, st.open, cutoff, |st.open|);
    var managed := ManagedTo(a.markets, counted, st.open, cutoff, |st.open|);
    OffersAreForFreeSymbols(a.markets, managed, cutoff, a.warmup, |a.markets|);
    var (offers, refused) := OffersTo(a.markets, managed, cutoff, a.warmup, |a.markets|);
    TakingKeepsConsistent(a.startingBalance, managed, offers, refused);
  }

  // ---------------------------------------------------------------- every trade of every market

  /** Every market is sane and every bar is a bar. */
  ghost predicate Healthy(markets: seq<Market>) {
    && (forall m :: m in markets ==> L.Sane(m.setup) && forall b :: b in m.m15 ==> b.Valid())
    && (forall i, j :: 0 <= i < j < |markets| ==> markets[i].Symbol() != markets[j].Symbol())
  }

  /** The trade is sound under its own market's rules, and was opened at the risk it records. */
  ghost predicate InOrder(markets: seq<Market>, t: S.Trade) {
    var market := MarketOf(markets, t.terms.symbol);
    market.Some? && T.Sound(market.value.setup.Rules(), t) && L.Opened(market.value.setup, t.terms)
  }

  ghost predicate AllInOrder(markets: seq<Market>, trades: seq<S.Trade>) { forall t :: t in trades ==> InOrder(markets, t) }

  lemma HealthyMarket(markets: seq<Market>, symbol: string)
    requires Healthy(markets) && MarketOf(markets, symbol).Some?
    ensures
      var m := MarketOf(markets, symbol).value;
      && L.Sane(m.setup) && m.setup.Rules().Valid() && T.NoDeepPartials(m.setup.Rules().config)
      && forall b :: b in m.m15 ==> b.Valid()
  {
    hide L.Sane;
    var m := MarketOf(markets, symbol).value;
    L.SaneUnfolds(m.setup);
  }

  /** What a moment does to a trade keeps it in order: the bar it sees is one of its own market's. */
  lemma TradesStayInOrder(markets: seq<Market>, t: S.Trade, cutoff: int)
    requires Healthy(markets) && InOrder(markets, t)
    ensures InOrder(markets, TradeAt(markets, t, cutoff))
  {
    hide Healthy, T.Sound, S.Resolved, ClosedBy, T.NoDeepPartials, MarketOf;
    var market := MarketOf(markets, t.terms.symbol).value;
    var closed := ClosedBy(market.m15, cutoff);
    HealthyMarket(markets, t.terms.symbol);
    if |closed| > 0 {
      ClosedByKeepsTheClosed(market.m15, cutoff);
      assert closed[|closed| - 1] in closed;
      T.NoDeepPartialsStayWithinRisk(market.setup.Rules(), t.terms);
      T.BarKeepsSound(market.setup.Rules(), t, closed[|closed| - 1], |closed| - 1);
    }
  }

  lemma KeepingKeepsOrder(markets: seq<Market>, st: State, t: S.Trade)
    requires AllInOrder(markets, st.open) && AllInOrder(markets, st.done) && InOrder(markets, t)
    ensures AllInOrder(markets, Kept(st, t).open) && AllInOrder(markets, Kept(st, t).done)
  {
    hide InOrder;
  }

  lemma {:induction false} ManagingKeepsOrder(markets: seq<Market>, st: State, trades: seq<S.Trade>, cutoff: int, k: nat)
    requires Healthy(markets) && k <= |trades| && AllInOrder(markets, trades)
    requires AllInOrder(markets, st.open) && AllInOrder(markets, st.done)
    ensures
      var managed := ManagedTo(markets, st, trades, cutoff, k);
      AllInOrder(markets, managed.open) && AllInOrder(markets, managed.done)
  {
    hide InOrder, Healthy, Kept, TradeAt;
    ManagedToUnfolds(markets, st, trades, cutoff, k);
    if k > 0 {
      ManagingKeepsOrder(markets, st, trades, cutoff, k - 1);
      assert trades[k - 1] in trades;
      TradesStayInOrder(markets, trades[k - 1], cutoff);
      KeepingKeepsOrder(markets, ManagedTo(markets, st, trades, cutoff, k - 1), TradeAt(markets, trades[k - 1], cutoff));
    }
  }

  lemma {:induction false} MarketsAnswerForThemselves(markets: seq<Market>, i: nat)
    requires i < |markets| && forall i, j :: 0 <= i < j < |markets| ==> markets[i].Symbol() != markets[j].Symbol()
    ensures MarketOf(markets, markets[i].Symbol()) == Some(markets[i])
  {
    if i > 0 {
      MarketsAnswerForThemselves(markets[1..], i - 1);
    }
  }

  /** Whatever a market offers would open in order. */
  lemma OfferOpensInOrder(markets: seq<Market>, i: nat, st: State, cutoff: int, warmup: nat)
    requires Healthy(markets) && i < |markets|
    ensures
      var offer := OfferOf(markets[i], st, cutoff, warmup);
      offer.Some? && offer.value.Ok? ==> InOrder(markets, S.AtOpening(offer.value.value))
  {
    var m := markets[i];
    var closed := ClosedBy(m.m15, cutoff);
    MarketsAnswerForThemselves(markets, i);
    HealthyMarket(markets, m.Symbol());
    hide B.Proposed, ClosedBy, T.Sound, L.Sane, Healthy, S.AtOpening;
    var offer := OfferOf(m, st, cutoff, warmup);
    if offer.Some? && offer.value.Ok? {
      ProposalsCarryTheSymbol(m.setup, closed, ClosedBy(m.h1, cutoff), |closed| - 1, cutoff, st.balance, st.peak, st.losses);
      L.ProposalsAreInOrder(m.setup, closed, ClosedBy(m.h1, cutoff), |closed| - 1, cutoff, st.balance, st.peak, st.losses);
      L.OpenedIsValid(m.setup, offer.value.value);
      T.OpeningIsSound(m.setup.Rules(), offer.value.value);
      T.OpeningKeepsTerms(offer.value.value);
    }
  }

  lemma {:induction false} OffersOpenInOrder(markets: seq<Market>, st: State, cutoff: int, warmup: nat, k: nat)
    requires Healthy(markets) && k <= |markets|
    ensures forall o :: o in OffersTo(markets, st, cutoff, warmup, k).0 ==> InOrder(markets, S.AtOpening(o))
  {
    if k > 0 {
      hide InOrder, Healthy, OfferOf, S.AtOpening, Added;
      OffersOpenInOrder(markets, st, cutoff, warmup, k - 1);
      OfferOpensInOrder(markets, k - 1, st, cutoff, warmup);
    }
  }

  lemma MomentKeepsOrder(a: Account, st: State, position: nat, cutoff: int)
    requires a.step >= 1 && Healthy(a.markets) && AllInOrder(a.markets, st.open) && AllInOrder(a.markets, st.done)
    ensures
      var after := AfterMoment(a, st, position, cutoff);
      AllInOrder(a.markets, after.open) && AllInOrder(a.markets, after.done)
  {
    hide ManagedTo, OffersTo, IsForexWeekend, InOrder, Healthy, Added, Taken;
    var counted := st.(bars := st.bars + 1, open := []);
    ManagingKeepsOrder(a.markets, counted, st.open, cutoff, |st.open|);
    var managed := ManagedTo(a.markets, counted, st.open, cutoff, |st.open|);
    OffersOpenInOrder(a.markets, managed, cutoff, a.warmup, |a.markets|);
    var (offers, refused) := OffersTo(a.markets, managed, cutoff, a.warmup, |a.markets|);
    TakingKeepsOrder(a.markets, managed, offers, refused);
  }

  lemma TakingKeepsOrder(markets: seq<Market>, st: State, offers: seq<S.Terms>, refused: map<Refusal, nat>)
    requires AllInOrder(markets, st.open) && AllInOrder(markets, st.done)
    requires forall o :: o in offers ==> InOrder(markets, S.AtOpening(o))
    ensures AllInOrder(markets, Taken(st, offers, refused).open) && AllInOrder(markets, Taken(st, offers, refused).done)
  {
    hide InOrder, S.AtOpening, Added;
    if offers != [] {
      assert offers[Best(offers)] in offers;
    }
  }

  /** At every moment of every portfolio run, each trade is sound under its own market's rules. */
  lemma {:induction false} EveryTradeIsInOrder(a: Account, timeline: seq<int>, k: nat)
    requires a.step >= 1 && Healthy(a.markets) && k <= |timeline|
    ensures AllInOrder(a.markets, RunTo(a, timeline, k).open) && AllInOrder(a.markets, RunTo(a, timeline, k).done)
  {
    hide InOrder, Healthy, AfterMoment;
    RunToUnfolds(a, timeline, k);
    if k > a.warmup {
      EveryTradeIsInOrder(a, timeline, k - 1);
      MomentKeepsOrder(a, RunTo(a, timeline, k - 1), k - 1, timeline[k - 1]);
    }
  }

  /**
   No closed trade of any portfolio run, on the six-decimal lot grid, has lost more than the
   risk it was sized for on its own market plus that market's slippage and commission.
   */
  lemma EveryPortfolioLossIsBounded(a: Account, timeline: seq<int>, k: nat)
    requires a.Valid() && Healthy(a.markets) && k <= |timeline|
    ensures forall t :: t in RunTo(a, timeline, k).done && OnGrid6(t.terms.lots) ==>
              && t.exit.Some? && MarketOf(a.markets, t.terms.symbol).Some?
              && var rules := MarketOf(a.markets, t.terms.symbol).value.setup.Rules();
                 t.exit.value.pnl >= -(t.terms.riskAmount + T.Frictions(rules, t.terms, t.terms.lots))
  {
    hide RunTo, Healthy, T.Sound, T.Frictions, T.SizedRisk, OnGrid6;
    SlotsAreNeverExceeded(a, timeline, k);
    EveryTradeIsInOrder(a, timeline, k);
    forall t | t in RunTo(a, timeline, k).done && OnGrid6(t.terms.lots)
      ensures t.exit.Some? && InOrder(a.markets, t)
      ensures t.exit.value.pnl >= -(t.terms.riskAmount
                + T.Frictions(MarketOf(a.markets, t.terms.symbol).value.setup.Rules(), t.terms, t.terms.lots))
    {
      L.SoundLossIsBounded(MarketOf(a.markets, t.terms.symbol).value.setup.Rules(), t);
    }
  }

  // ---------------------------------------------------------------- no look-ahead

  /** The same engines over data that agree on every bar closed by a moment. */
  ghost predicate AgreeBy(a: seq<Market>, b: seq<Market>, cutoff: int) {
    && |a| == |b|
    && (forall i :: 0 <= i < |a| ==>
          && a[i].setup == b[i].setup
          && ClosedBy(a[i].m15, cutoff) == ClosedBy(b[i].m15, cutoff)
          && ClosedBy(a[i].h1, cutoff) == ClosedBy(b[i].h1, cutoff))
  }

  lemma AgreeEarlier(a: seq<Market>, b: seq<Market>, early: int, late: int)
    requires early <= late && AgreeBy(a, b, late)
    ensures AgreeBy(a, b, early)
  {
    hide ClosedBy;
    forall i | 0 <= i < |a|
      ensures ClosedBy(a[i].m15, early) == ClosedBy(b[i].m15, early) && ClosedBy(a[i].h1, early) == ClosedBy(b[i].h1, early)
    {
      ClosingTwice(a[i].m15, early, late);
      ClosingTwice(b[i].m15, early, late);
      ClosingTwice(a[i].h1, early, late);
      ClosingTwice(b[i].h1, early, late);
    }
  }

  lemma {:induction false} TradesSeeOnlyThePast(a: seq<Market>, b: seq<Market>, t: S.Trade, cutoff: int)
    requires AgreeBy(a, b, cutoff)
    ensures TradeAt(a, t, cutoff) == TradeAt(b, t, cutoff)
  {
    hide ClosedBy, S.Resolved;
    if a != [] && a[0].Symbol() != t.terms.symbol {
      TradesSeeOnlyThePast(a[1..], b[1..], t, cutoff);
    }
  }

  lemma ManagedToUnfolds(markets: seq<Market>, st: State, trades: seq<S.Trade>, cutoff: int, k: nat)
    requires k <= |trades|
    ensures k == 0 ==> ManagedTo(markets, st, trades, cutoff, k) == st
    ensures k > 0 ==>
              ManagedTo(markets, st, trades, cutoff, k)
              == Kept(ManagedTo(markets, st, trades, cutoff, k - 1), TradeAt(markets, trades[k - 1], cutoff))
  {
  }

  lemma {:induction false} ManagingSeesOnlyThePast(
    a: seq<Market>, b: seq<Market>, st: State, trades: seq<S.Trade>, cutoff: int, k: nat)
    requires AgreeBy(a, b, cutoff) && k <= |trades|
    ensures ManagedTo(a, st, trades, cutoff, k) == ManagedTo(b, st, trades, cutoff, k)
  {
    hide *;
    ManagedToUnfolds(a, st, trades, cutoff, k);
    ManagedToUnfolds(b, st, trades, cutoff, k);
    if k > 0 {
      ManagingSeesOnlyThePast(a, b, st, trades, cutoff, k - 1);
      TradesSeeOnlyThePast(a, b, trades[k - 1], cutoff);
    }
  }

  lemma OfferSeesOnlyThePast(m: Market, n: Market, st: State, cutoff: int, warmup: nat)
    requires m.setup == n.setup
    requires ClosedBy(m.m15, cutoff) == ClosedBy(n.m15, cutoff) && ClosedBy(m.h1, cutoff) == ClosedBy(n.h1, cutoff)
    ensures OfferOf(m, st, cutoff, warmup) == OfferOf(n, st, cutoff, warmup)
  {
    hide ClosedBy, B.Proposed, Holds;
  }

  lemma {:induction false} OffersSeeOnlyThePast(a: seq<Market>, b: seq<Market>, st: State, cutoff: int, warmup: nat, k: nat)
    requires AgreeBy(a, b, cutoff) && k <= |a|
    ensures OffersTo(a, st, cutoff, warmup, k) == OffersTo(b, st, cutoff, warmup, k)
  {
    if k > 0 {
      hide OfferOf, ClosedBy, Added;
      OffersSeeOnlyThePast(a, b, st, cutoff, warmup, k - 1);
      OfferSeesOnlyThePast(a[k - 1], b[k - 1], st, cutoff, warmup);
    }
  }

  lemma MomentSeesOnlyThePast(a: Account, b: Account, st: State, position: nat, cutoff: int)
    requires a.step >= 1 && b == a.(markets := b.markets) && AgreeBy(a.markets, b.markets, cutoff)
    ensures AfterMoment(a, st, position, cutoff) == AfterMoment(b, st, position, cutoff)
  {
    hide ManagedTo, OffersTo, Taken, IsForexWeekend, AgreeBy, Added;
    AgreeingIsOneToOne(a.markets, b.markets, cutoff);
    var counted := st.(bars := st.bars + 1, open := []);
    ManagingSeesOnlyThePast(a.markets, b.markets, counted, st.open, cutoff, |st.open|);
    OffersSeeOnlyThePast(
      a.markets, b.markets, ManagedTo(a.markets, counted, st.open, cutoff, |st.open|), cutoff, a.warmup, |a.markets|);
  }

  /**
   Given the clock, the portfolio run is causal: data that agree on every bar closed by a
   moment give the same state at every tick up to that moment.
   */
  lemma {:induction false} PortfolioIsCausal(a: Account, b: Account, timeline: seq<int>, cutoff: int, k: nat)
    requires a.step >= 1 && b == a.(markets := b.markets) && AgreeBy(a.markets, b.markets, cutoff)
    requires k <= |timeline| && forall i :: 0 <= i < k ==> timeline[i] <= cutoff
    ensures RunTo(a, timeline, k) == RunTo(b, timeline, k)
  {
    hide *;
    RunToUnfolds(a, timeline, k);
    RunToUnfolds(b, timeline, k);
    if k > a.warmup {
      RunToUnfolds(a, timeline, k - 1);
      RunToUnfolds(b, timeline, k - 1);
      PortfolioIsCausal(a, b, timeline, cutoff, k - 1);
      AgreeEarlier(a.markets, b.markets, timeline[k - 1], cutoff);
      MomentSeesOnlyThePast(a, b, RunTo(a, timeline, k - 1), k - 1, timeline[k - 1]);
    }
  }

  lemma AgreeingIsOneToOne(a: seq<Market>, b: seq<Market>, cutoff: int)
    requires AgreeBy(a, b, cutoff)
    ensures |a| == |b|
  {
  }

  /** The clock a run sets itself. */
  function Clock(a: Account): seq<int>
    requires a.markets != []
  {
    CloseTimes(a.markets[Longest(a.markets)].m15)
  }

  /** The ticks of that clock by a moment. */
  function TicksBy(a: Account, cutoff: int): nat
    requires a.markets != []
  {
    |ClosedBy(a.markets[Longest(a.markets)].m15, cutoff)|
  }

  lemma TicksAreAPrefix(a: Account, cutoff: int)
    requires a.Valid()
    ensures TicksBy(a, cutoff) <= |Clock(a)| && forall i :: 0 <= i < TicksBy(a, cutoff) ==> Clock(a)[i] <= cutoff
    ensures Clock(a)[..TicksBy(a, cutoff)] == CloseTimes(ClosedBy(a.markets[Longest(a.markets)].m15, cutoff))
  {
    hide ClosedBy;
    var m15 := a.markets[Longest(a.markets)].m15;
    assert a.markets[Longest(a.markets)].Valid();
    ClosedByIsAPrefix(m15, cutoff);
    forall i | 0 <= i < TicksBy(a, cutoff) ensures Clock(a)[i] <= cutoff {
      assert ClosedBy(m15, cutoff)[i] in ClosedBy(m15, cutoff);
    }
  }

  lemma {:induction false} OnlyTheTicksSoFar(a: Account, long: seq<int>, other: seq<int>, k: nat)
    requires a.step >= 1 && k <= |long| && k <= |other| && forall i :: a.warmup <= i < k ==> long[i] == other[i]
    ensures RunTo(a, long, k) == RunTo(a, other, k)
  {
    hide AfterMoment;
    if k > a.warmup {
      OnlyTheTicksSoFar(a, long, other, k - 1);
    }
  }

  /** The ticks by a moment at which the run did anything: those past the warmup. */
  function LiveTicks(a: Account, cutoff: int): (ticks: seq<int>)
    requires a.Valid()
    ensures |ticks| == if TicksBy(a, cutoff) <= a.warmup then 0 else TicksBy(a, cutoff) - a.warmup
  {
    TicksAreAPrefix(a, cutoff);
    Between(Clock(a), a.warmup, TicksBy(a, cutoff))
  }

  /** The state of a run on its own clock at a moment. */
  function StateBy(a: Account, cutoff: int): State
    requires a.Valid()
  {
    TicksAreAPrefix(a, cutoff);
    RunTo(a, Clock(a), TicksBy(a, cutoff))
  }

  /**
   On their own clocks two runs whose data agree up to a moment have the same state at it,
   whatever follows, if what follows leaves their clocks the same ticks up to the moment and
   past the warmup.
   */
  lemma PortfolioIsCausalOnItsOwnClock(a: Account, b: Account, cutoff: int)
    requires a.Valid() && b.Valid() && b == a.(markets := b.markets) && AgreeBy(a.markets, b.markets, cutoff)
    requires LiveTicks(a, cutoff) == LiveTicks(b, cutoff)
    ensures StateBy(a, cutoff) == StateBy(b, cutoff)
  {
    ValidSteps(a);
    ValidSteps(b);
    hide *;
    OwnClockUnfolds(a, cutoff);
    OwnClockUnfolds(b, cutoff);
    SameTicksSameState(a, b, Clock(a), Clock(b), cutoff, TicksBy(a, cutoff), TicksBy(b, cutoff));
  }

  /** The ticks from `from` up to k, or none. */
  function Between(ticks: seq<int>, from: nat, k: nat): (r: seq<int>)
    requires k <= |ticks|
    ensures |r| == if k <= from then 0 else k - from
  {
    if k <= from then [] else ticks[from..k]
  }

  lemma OwnClockUnfolds(a: Account, cutoff: int)
    requires a.Valid()
    ensures TicksBy(a, cutoff) <= |Clock(a)| && forall i :: 0 <= i < TicksBy(a, cutoff) ==> Clock(a)[i] <= cutoff
    ensures StateBy(a, cutoff) == RunTo(a, Clock(a), TicksBy(a, cutoff))
    ensures LiveTicks(a, cutoff) == Between(Clock(a), a.warmup, TicksBy(a, cutoff))
  {
    hide RunTo, Clock, TicksBy, Account.Valid;
    TicksAreAPrefix(a, cutoff);
  }

  lemma SameTicksSameState(a: Account, b: Account, s: seq<int>, t: seq<int>, cutoff: int, k: nat, l: nat)
    requires a.step >= 1 && b == a.(markets := b.markets) && AgreeBy(a.markets, b.markets, cutoff)
    requires k <= |s| && l <= |t| && Between(s, a.warmup, k) == Between(t, a.warmup, l)
    requires forall i :: 0 <= i < k ==> s[i] <= cutoff
    ensures RunTo(a, s, k) == RunTo(b, t, l)
  {
    hide RunTo, AgreeBy;
    if k <= a.warmup {
      RunToUnfolds(a, s, k);
      RunToUnfolds(b, t, l);
    } else {
      PortfolioIsCausal(a, b, s, cutoff, k);
      SlicesAgree(s, t, a.warmup, k);
      OnlyTheTicksSoFar(b, s, t, k);
    }
  }

  lemma SlicesAgree(s: seq<int>, t: seq<int>, lo: nat, hi: nat)
    requires lo <= hi <= |s| && hi <= |t| && s[lo..hi] == t[lo..hi]
    ensures forall i :: lo <= i < hi ==> s[i] == t[i]
  {
    forall i | lo <= i < hi ensures s[i] == t[i] {
      assert s[i] == s[lo..hi][i - lo] == t[lo..hi][i - lo] == t[i];
    }
  }

  /** In particular, as long as the same market's series stays the longest. */
  lemma TheSameLongestSetsTheSameTicks(a: Account, b: Account, cutoff: int)
    requires a.Valid() && b.Valid() && b == a.(markets := b.markets) && AgreeBy(a.markets, b.markets, cutoff)
    requires Longest(a.markets) == Longest(b.markets)
    ensures LiveTicks(a, cutoff) == LiveTicks(b, cutoff)
  {
    hide ClosedBy;
    TicksAreAPrefix(a, cutoff);
    TicksAreAPrefix(b, cutoff);
    var k := TicksBy(a, cutoff);
    if k > a.warmup {
      assert Clock(a)[a.warmup..k] == Clock(a)[..k][a.warmup..];
      assert Clock(b)[a.warmup..k] == Clock(b)[..k][a.warmup..];
    }
  }

  lemma ValidSteps(a: Account)
    requires a.Valid()
    ensures a.step >= 1 && a.markets != []
  {
  }

  lemma {:induction false} ManagingKeepsTheCount(markets: seq<Market>, st: State, trades: seq<S.Trade>, cutoff: int, k: nat)
    requires k <= |trades|
    ensures ManagedTo(markets, st, trades, cutoff, k).bars == st.bars
  {
    hide TradeAt;
    if k > 0 {
      ManagingKeepsTheCount(markets, st, trades, cutoff, k - 1);
    }
  }

  lemma {:induction false} BarsCountTicks(a: Account, timeline: seq<int>, k: nat)
    requires a.step >= 1 && k <= |timeline|
    ensures RunTo(a, timeline, k).bars == if k <= a.warmup then 0 else k - a.warmup
  {
    hide AfterMoment;
    RunToUnfolds(a, timeline, k);
    if k > a.warmup {
      BarsCountTicks(a, timeline, k - 1);
      MomentCountsOnce(a, RunTo(a, timeline, k - 1), k - 1, timeline[k - 1]);
    }
  }

  lemma MomentCountsOnce(a: Account, st: State, position: nat, cutoff: int)
    requires a.step >= 1
    ensures AfterMoment(a, st, position, cutoff).bars == st.bars + 1
  {
    hide ManagedTo, OffersTo, IsForexWeekend, Added, S.AtOpening, Best;
    ManagingKeepsTheCount(a.markets, st.(bars := st.bars + 1, open := []), st.open, cutoff, |st.open|);
  }

  /**
   And only so far: when what follows hands the clock to a market with another number of
   ticks up to the moment and past the warmup, the two states at it differ.
   */
  lemma ALongerFutureMovesTheClock(a: Account, b: Account, cutoff: int)
    requires a.Valid() && b.Valid() && b == a.(markets := b.markets) && AgreeBy(a.markets, b.markets, cutoff)
    requires |LiveTicks(a, cutoff)| != |LiveTicks(b, cutoff)|
    ensures StateBy(a, cutoff) != StateBy(b, cutoff)
  {
    ValidSteps(a);
    ValidSteps(b);
    hide *;
    OwnClockUnfolds(a, cutoff);
    OwnClockUnfolds(b, cutoff);
    BarsCountTicks(a, Clock(a), TicksBy(a, cutoff));
    BarsCountTicks(b, Clock(b), TicksBy(b, cutoff));
  }

  // ---------------------------------------------------------------- where the clock moves

  function Bar(time: int): Candle { Candle(time, 15, 1.0, 1.0, 1.0, 1.0) }

  function HourBar(): Candle { Candle(-60, 60, 1.0, 1.0, 1.0, 1.0) }

  function MarketIn(symbol: string, strategy: B.Strategy, m15: seq<Candle>, h1: seq<Candle>): Market {
    Market(
      B.Setup(R.EURUSD.(symbol := symbol), M.SLICING, R.DEFAULTS, None, strategy, 0.0, 0.0, 0.0, 1.0, 1.0, false, 10000.0, 0, 1),
      m15, h1)
  }

  /** Two markets without a warmup. */
  function TwoMarkets(strategy: B.Strategy, x: seq<Candle>, y: seq<Candle>): Account {
    Account(
      [MarketIn("EURUSD", strategy, x, seq(40, _ => HourBar())), MarketIn("AUDNZD", strategy, y, [])], 10000.0, 1, 0, 1)
  }

  lemma TwoMarketsAreValid(strategy: B.Strategy, x: seq<Candle>, y: seq<Candle>)
    requires InTimeOrder(x) && Uniform(x) && InTimeOrder(y) && Uniform(y)
    ensures TwoMarkets(strategy, x, y).Valid()
  {
    assert "EURUSD"[0] != "AUDNZD"[0];
    assert R.DEFAULTS.Validated();
  }

  lemma ClosedSoFar(closed: seq<Candle>, later: seq<Candle>, cutoff: int)
    requires (forall c :: c in closed ==> c.CloseTime() <= cutoff) && (forall c :: c in later ==> cutoff < c.CloseTime())
    ensures ClosedBy(closed + later, cutoff) == closed
  {
    ClosedBySplits(closed, later, cutoff);
    AllClosed(closed, cutoff);
    NoneClosed(later, cutoff);
  }

  /** The first market sets the clock, or the second does once bars to come have made it the longer. */
  lemma TicksOfTheLonger(strategy: B.Strategy, x: seq<Candle>, y: seq<Candle>, cutoff: int)
    requires TwoMarkets(strategy, x, y).Valid()
    ensures LiveTicks(TwoMarkets(strategy, x, y), cutoff) == CloseTimes(ClosedBy(if |y| > |x| then y else x, cutoff))
  {
    var a := TwoMarkets(strategy, x, y);
    LongestOfTwo(strategy, x, y);
    hide ClosedBy, Longest, Account.Valid, LiveTicks, Clock, TicksBy;
    TicksAreAPrefix(a, cutoff);
    OwnClockUnfolds(a, cutoff);
    assert Clock(a)[0..TicksBy(a, cutoff)] == Clock(a)[..TicksBy(a, cutoff)];
  }

  lemma LongestOfTwo(strategy: B.Strategy, x: seq<Candle>, y: seq<Candle>)
    ensures Longest(TwoMarkets(strategy, x, y).markets) == if |y| > |x| then 1 else 0
  {
    var markets := TwoMarkets(strategy, x, y).markets;
    assert markets[..1] == [markets[0]];
  }

  /** Bars of the second market alone follow, and make it the longer. */
  lemma TwoFutures(strategy: B.Strategy, x: seq<Candle>, y: seq<Candle>, later: seq<Candle>, cutoff: int)
    requires InTimeOrder(x) && Uniform(x) && InTimeOrder(y) && Uniform(y) && InTimeOrder(y + later) && Uniform(y + later)
    requires (forall c :: c in x ==> c.CloseTime() <= cutoff) && (forall c :: c in y ==> c.CloseTime() <= cutoff)
    requires forall c :: c in later ==> cutoff < c.CloseTime()
    requires |y| <= |x| < |y| + |later|
    ensures TwoMarkets(strategy, x, y).Valid() && TwoMarkets(strategy, x, y + later).Valid()
    ensures AgreeBy(TwoMarkets(strategy, x, y).markets, TwoMarkets(strategy, x, y + later).markets, cutoff)
    ensures LiveTicks(TwoMarkets(strategy, x, y), cutoff) == CloseTimes(x)
    ensures LiveTicks(TwoMarkets(strategy, x, y + later), cutoff) == CloseTimes(y)
  {
    TwoMarketsAreValid(strategy, x, y);
    TwoMarketsAreValid(strategy, x, y + later);
    hide *;
    AllClosed(x, cutoff);
    AllClosed(y, cutoff);
    ClosedSoFar(y, later, cutoff);
    TwoMarketsAgree(strategy, x, y, y + later, cutoff);
    TicksOfTheLonger(strategy, x, y, cutoff);
    TicksOfTheLonger(strategy, x, y + later, cutoff);
  }

  lemma TwoMarketsAgree(strategy: B.Strategy, x: seq<Candle>, y: seq<Candle>, z: seq<Candle>, cutoff: int)
    requires ClosedBy(y, cutoff) == ClosedBy(z, cutoff)
    ensures AgreeBy(TwoMarkets(strategy, x, y).markets, TwoMarkets(strategy, x, z).markets, cutoff)
  {
    hide ClosedBy;
  }

  /** Three bars against two, and two more bars of the second market still to come. */
  lemma TwoBarsMoveTheClock(strategy: B.Strategy)
    ensures exists a: Account, b: Account, cutoff: int ::
              && a.Valid() && b.Valid() && b == a.(markets := b.markets) && AgreeBy(a.markets, b.markets, cutoff)
              && |LiveTicks(a, cutoff)| == 3 && |LiveTicks(b, cutoff)| == 2
              && StateBy(a, cutoff) != StateBy(b, cutoff)
  {
    var x, y, later := [Bar(0), Bar(15), Bar(30)], [Bar(0), Bar(15)], [Bar(45), Bar(60)];
    assert y + later == [Bar(0), Bar(15), Bar(45), Bar(60)];
    TwoFutures(strategy, x, y, later, 45);
    hide *;
    ALongerFutureMovesTheClock(TwoMarkets(strategy, x, y), TwoMarkets(strategy, x, y + later), 45);
  }

  /** One bar each, at different times, and two more bars of the second market still to come. */
  function Before(strategy: B.Strategy): Account { TwoMarkets(strategy, [Bar(0)], [Bar(15)]) }

  function Afterwards(strategy: B.Strategy): Account { TwoMarkets(strategy, [Bar(0)], [Bar(15), Bar(30), Bar(45)]) }

  /** What the strategy is asked about the first market at a tick. */
  function Answer(strategy: B.Strategy, tick: int): Result<B.Offer, string> {
    strategy([Bar(0)], seq(40, _ => HourBar()), tick)
  }

  lemma BeforeAndAfterwards(strategy: B.Strategy)
    ensures Before(strategy).Valid() && Afterwards(strategy).Valid()
    ensures AgreeBy(Before(strategy).markets, Afterwards(strategy).markets, 30)
    ensures LiveTicks(Before(strategy), 30) == [15] && LiveTicks(Afterwards(strategy), 30) == [30]
  {
    var x, y, later := [Bar(0)], [Bar(15)], [Bar(30), Bar(45)];
    assert y + later == [Bar(15), Bar(30), Bar(45)];
    TheseBarsAreInOrder();
    assert CloseTimes(x) == [15] && CloseTimes(y) == [30];
    hide Account.Valid, AgreeBy, LiveTicks, TwoMarkets, InTimeOrder, Uniform;
    TwoFutures(strategy, x, y, later, 30);
  }

  lemma TheseBarsAreInOrder()
    ensures InTimeOrder([Bar(0)]) && InTimeOrder([Bar(15)]) && InTimeOrder([Bar(15), Bar(30), Bar(45)])
    ensures Uniform([Bar(0)]) && Uniform([Bar(15)]) && Uniform([Bar(15), Bar(30), Bar(45)])
  {
  }

  /**
   With as many ticks at different times, the data decide nothing: on these the states agree
   exactly if the strategy, asked at 15 and at 30 minutes about the same closed bars, refuses
   for the same reason.
   */
  lemma EqualCountsLeaveItToTheStrategy(strategy: B.Strategy)
    requires Answer(strategy, 15).Err? && Answer(strategy, 30).Err?
    ensures Before(strategy).Valid() && Afterwards(strategy).Valid()
    ensures AgreeBy(Before(strategy).markets, Afterwards(strategy).markets, 30)
    ensures LiveTicks(Before(strategy), 30) == [15] && LiveTicks(Afterwards(strategy), 30) == [30]
    ensures StateBy(Before(strategy), 30) == StateBy(Afterwards(strategy), 30) <==> Answer(strategy, 15) == Answer(strategy, 30)
  {
    BeforeAndAfterwards(strategy);
    hide Account.Valid, AgreeBy, StateBy, LiveTicks, Answer, TwoMarkets, OneRefusal;
    OneTick(strategy, Before(strategy), [Bar(15)], 15);
    OneTick(strategy, Afterwards(strategy), [Bar(15), Bar(30), Bar(45)], 30);
    RefusedOnce(Answer(strategy, 15).error, Answer(strategy, 30).error);
  }

  /** What a run looks like after a single tick that was refused. */
  function OneRefusal(why: string): State { Begin(10000.0).(bars := 1, refused := map[Own(B.NoSetup(why)) := 1]) }

  lemma RefusedOnce(a: string, b: string)
    ensures OneRefusal(a) == OneRefusal(b) <==> a == b
  {
    assert Own(B.NoSetup(a)) in OneRefusal(a).refused;
    assert Own(B.NoSetup(a)) in OneRefusal(b).refused <==> a == b;
  }

  lemma OneTick(strategy: B.Strategy, a: Account, y: seq<Candle>, tick: int)
    requires a == TwoMarkets(strategy, [Bar(0)], y) && a.Valid() && (tick == 15 || tick == 30)
    requires LiveTicks(a, 30) == [tick] && Answer(strategy, tick).Err?
    ensures StateBy(a, 30) == OneRefusal(Answer(strategy, tick).error)
  {
    OwnClockUnfolds(a, 30);
    hide Account.Valid, TicksBy, Clock, LiveTicks, StateBy, AfterMoment, OneRefusal, Answer;
    var k := TicksBy(a, 30);
    assert k == 1 && Clock(a)[0] == Clock(a)[0..1][0] == tick;
    RunToUnfolds(a, Clock(a), 0);
    TickAsks(strategy, a, y, tick);
  }

  lemma TickAsks(strategy: B.Strategy, a: Account, y: seq<Candle>, tick: int)
    requires a == TwoMarkets(strategy, [Bar(0)], y) && (tick == 15 || tick == 30) && Answer(strategy, tick).Err?
    ensures AfterMoment(a, Begin(10000.0), 0, tick) == OneRefusal(Answer(strategy, tick).error)
  {
    AllClosed([Bar(0)], tick);
    AllClosed(seq(40, _ => HourBar()), tick);
    assert !IsForexWeekend(tick);
    hide ClosedBy, IsForexWeekend;
    var st := Begin(10000.0).(bars := 1);
    var m, n := a.markets[0], a.markets[1];
    assert OfferOf(m, st, tick, 0) == Some(Err(B.NoSetup(Answer(strategy, tick).error)));
    assert ClosedBy([], tick) == [] by { AllClosed([], tick); }
    assert OfferOf(n, st, tick, 0) == None;
    hide OfferOf;
    TwoOffers(a.markets, st, tick, B.NoSetup(Answer(strategy, tick).error));
  }

  lemma TwoOffers(markets: seq<Market>, st: State, cutoff: int, why: B.Refusal)
    requires |markets| == 2 && st.refused == map[]
    requires OfferOf(markets[0], st, cutoff, 0) == Some(Err(why)) && OfferOf(markets[1], st, cutoff, 0) == None
    ensures OffersTo(markets, st, cutoff, 0, 2) == ([], map[Own(why) := 1])
  {
    hide OfferOf;
    assert OffersTo(markets, st, cutoff, 0, 0) == ([], map[]);
    assert OffersTo(markets, st, cutoff, 0, 1) == ([], map[Own(why) := 1]);
  }
}
