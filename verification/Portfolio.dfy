/** The portfolio backtester: one account, many symbols, the best proposal per bar, a cap on open positions. */
module Portfolio {
  import opened Wrappers
  import opened Prices
  import opened Rounding
  import opened Indicators
  import opened Sessions
  import opened Windows
  import B = Backtest
  import M = Management
  import S = SimulatedTrade

  // ---------------------------------------------------------------- the clock

  /** The last candle that had closed at the cutoff, if any had. */
  method IndexAt(candles: seq<Candle>, cutoff: int) returns (r: Option<nat>)
    requires InTimeOrder(candles) && Uniform(candles)
    ensures r == LastClosed(candles, cutoff)
    ensures r.Some? ==> r.value < |candles|
    ensures r.Some? ==> forall i :: 0 <= i < |candles| ==> (candles[i].CloseTime() <= cutoff <==> i <= r.value)
    ensures r.None? ==> forall i :: 0 <= i < |candles| ==> cutoff < candles[i].CloseTime()
  {
    var low, high := 0, |candles| - 1;
    if high < 0 || candles[0].CloseTime() > cutoff {
      CutAt(candles, cutoff, 0);
      return None;
    }
    while low < high
      invariant 0 <= low <= high < |candles|
      invariant candles[low].CloseTime() <= cutoff
      invariant forall i :: high < i < |candles| ==> cutoff < candles[i].CloseTime()
    {
      var middle := (low + high + 1) / 2;
      if candles[middle].CloseTime() <= cutoff {
        low := middle;
      } else {
        high := middle - 1;
      }
    }
    CutAt(candles, cutoff, low + 1);
    return Some(low);
  }

  function LastClosed(candles: seq<Candle>, cutoff: int): Option<nat> {
    var n := |ClosedBy(candles, cutoff)|;
    if n == 0 then None else Some(n - 1)
  }

  // ---------------------------------------------------------------- the state

  /** One symbol's engine and data; the H1 series is kept sorted. */
  datatype Market = Market(setup: B.Setup, m15: seq<Candle>, h1: seq<Candle>) {
    function Symbol(): string { setup.spec.symbol }

    ghost predicate Valid() { setup.Valid() && InTimeOrder(m15) && Uniform(m15) }
  }

  datatype Refusal = SlotsFull | PassedOver | Own(why: B.Refusal)

  /** `open` lists the open trades in the order they were opened. */
  datatype State = State(
    bars: nat, balance: real, peak: real, losses: nat, open: seq<S.Trade>, done: seq<S.Trade>,
    curve: seq<real>, considered: nat, refused: map<Refusal, nat>)

  function Begin(balance: real): State { State(0, balance, balance, 0, [], [], [balance], 0, map[]) }

  function Added(refused: map<Refusal, nat>, why: Refusal, n: nat): map<Refusal, nat> {
    refused[why := (if why in refused then refused[why] else 0) + n]
  }

  function MarketOf(markets: seq<Market>, symbol: string): (m: Option<Market>)
    ensures m.Some? ==> m.value in markets && m.value.Symbol() == symbol
  {
    if markets == [] then None
    else if markets[0].Symbol() == symbol then Some(markets[0])
    else MarketOf(markets[1..], symbol)
  }

  /** What this moment does to one open trade: nothing, when its symbol has no bar closed yet. */
  function TradeAt(markets: seq<Market>, t: S.Trade, cutoff: int): S.Trade {
    var market := MarketOf(markets, t.terms.symbol);
    if market.None? || |ClosedBy(market.value.m15, cutoff)| == 0 then t
    else
      var closed := ClosedBy(market.value.m15, cutoff);
      S.Resolved(market.value.setup.Rules(), t, closed[|closed| - 1], |closed| - 1)
  }

  /** Keeps a trade that is still open, books one that closed. */
  function Kept(st: State, t: S.Trade): State {
    match t.exit
    case None => st.(open := st.open + [t])
    case Some(exit) =>
      var balance := st.balance + exit.pnl;
      st.(balance := balance, peak := Max(st.peak, balance), losses := if exit.pnl < 0.0 then st.losses + 1 else 0,
          done := st.done + [t], curve := st.curve + [Round2(balance)])
  }

  /** The state with the first k of some trades managed; `st` holds none of them. */
  function ManagedTo(markets: seq<Market>, st: State, trades: seq<S.Trade>, cutoff: int, k: nat): State
    requires k <= |trades|
  {
    if k == 0 then st
    else Kept(ManagedTo(markets, st, trades, cutoff, k - 1), TradeAt(markets, trades[k - 1], cutoff))
  }

  predicate Holds(open: seq<S.Trade>, symbol: string) { exists t :: t in open && t.terms.symbol == symbol }

  /** One symbol's offer at a moment; None when it is not asked. */
  function OfferOf(m: Market, st: State, cutoff: int, warmup: nat): Option<Result<S.Terms, B.Refusal>> {
    var closed := ClosedBy(m.m15, cutoff);
    if Holds(st.open, m.Symbol()) || |closed| == 0 || |closed| - 1 < warmup || |ClosedBy(m.h1, cutoff)| < 40 then None
    else
      Some(B.Proposed(m.setup, closed, ClosedBy(m.h1, cutoff), |closed| - 1, cutoff, st.balance, st.peak, st.losses))
  }

  /** The offers of the first k symbols, and the reasons of those that had none. */
  function OffersTo(markets: seq<Market>, st: State, cutoff: int, warmup: nat, k: nat): (seq<S.Terms>, map<Refusal, nat>)
    requires k <= |markets|
  {
    if k == 0 then ([], st.refused)
    else
      var (offers, refused) := OffersTo(markets, st, cutoff, warmup, k - 1);
      match OfferOf(markets[k - 1], st, cutoff, warmup)
      case None => (offers, refused)
      case Some(Err(why)) => (offers, Added(refused, Own(why), 1))
      case Some(Ok(terms)) => (offers + [terms], refused)
  }

  /** Ranks a before b: by grade, then by score. */
  predicate Better(a: S.Terms, b: S.Terms) { a.grade > b.grade || (a.grade == b.grade && a.score > b.score) }

  /** The first of the best. */
  function Best(offers: seq<S.Terms>): (i: nat)
    requires offers != []
    ensures i < |offers|
    ensures forall j :: 0 <= j < |offers| ==> !Better(offers[j], offers[i])
    ensures forall j :: 0 <= j < i ==> Better(offers[i], offers[j])
  {
    var n := |offers| - 1;
    if n == 0 then 0
    else
      var i := Best(offers[..n]);
      if Better(offers[n], offers[i]) then n else i
  }

  function Taken(st: State, offers: seq<S.Terms>, refused: map<Refusal, nat>): State {
    var considered := st.considered + |offers|;
    if offers == [] then st.(refused := refused)
    else
      st.(considered := considered, open := st.open + [S.AtOpening(offers[Best(offers)])],
          refused := Added(refused, PassedOver, |offers| - 1))
  }

  datatype Account = Account(markets: seq<Market>, startingBalance: real, maxOpen: nat, warmup: nat, step: nat) {
    ghost predicate Valid() {
      && markets != [] && step >= 1
      && (forall m :: m in markets ==> m.Valid())
      && (forall i, j :: 0 <= i < j < |markets| ==> markets[i].Symbol() != markets[j].Symbol())
    }
  }

  /** One moment: manage what is open, then, if a slot is free, take the best offer. */
  function AfterMoment(a: Account, st: State, position: nat, cutoff: int): State
    requires a.step >= 1
  {
    var counted := st.(bars := st.bars + 1, open := []);
    var managed := ManagedTo(a.markets, counted, st.open, cutoff, |st.open|);
    if position % a.step != 0 || IsForexWeekend(cutoff) then managed
    else if |managed.open| >= a.maxOpen then managed.(refused := Added(managed.refused, SlotsFull, 1))
    else
      var (offers, refused) := OffersTo(a.markets, managed, cutoff, a.warmup, |a.markets|);
      Taken(managed, offers, refused)
  }

  function RunTo(a: Account, timeline: seq<int>, k: nat): State
    requires a.step >= 1 && k <= |timeline|
  {
    if k <= a.warmup then Begin(a.startingBalance)
    else AfterMoment(a, RunTo(a, timeline, k - 1), k - 1, timeline[k - 1])
  }

  /** The first of the longest series sets the clock. */
  function Longest(markets: seq<Market>): (i: nat)
    requires markets != []
    ensures i < |markets|
    ensures forall j :: 0 <= j < |markets| ==> |markets[j].m15| <= |markets[i].m15|
    ensures forall j :: 0 <= j < i ==> |markets[j].m15| < |markets[i].m15|
  {
    var n := |markets| - 1;
    if n == 0 then 0
    else
      var i := Longest(markets[..n]);
      if |markets[n].m15| > |markets[i].m15| then n else i
  }

  function CloseTimes(candles: seq<Candle>): (times: seq<int>)
    ensures |times| == |candles| && forall i :: 0 <= i < |candles| ==> times[i] == candles[i].CloseTime()
  {
    seq(|candles|, i requires 0 <= i < |candles| => candles[i].CloseTime())
  }

  // ---------------------------------------------------------------- the engine

  class PortfolioBacktester {
    var markets: seq<Market>
    const startingBalance: real
    const maxOpen: nat

    constructor (startingBalance: real, maxOpen: nat)
      ensures markets == [] && this.startingBalance == startingBalance && this.maxOpen == maxOpen
    {
      markets := [];
      this.startingBalance, this.maxOpen := startingBalance, maxOpen;
    }

    function AccountFor(warmup: nat, step: nat): Account
      reads this
    {
      Account(markets, startingBalance, maxOpen, warmup, step)
    }

    /** Adds a symbol, or replaces its data in place; the H1 series is sorted by time. */
    method Add(setup: B.Setup, m15: seq<Candle>, h1: seq<Candle>)
      modifies this
      ensures
        var m := Market(setup, m15, SortedByTime(h1));
        markets == if MarketOf(old(markets), m.Symbol()).None? then old(markets) + [m] else Replaced(old(markets), m)
    {
      var m := Market(setup, m15, SortedByTime(h1));
      if MarketOf(markets, m.Symbol()).None? {
        markets := markets + [m];
      } else {
        markets := Replaced(markets, m);
      }
    }

    method ManageOpen(st: State, cutoff: int) returns (r: State)
      requires forall m :: m in markets ==> m.Valid()
      ensures r == ManagedTo(markets, st.(open := []), st.open, cutoff, |st.open|)
    {
      hide ClosedBy, Kept, S.Resolved;
      r := st.(open := []);
      for k := 0 to |st.open|
        invariant r == ManagedTo(markets, st.(open := []), st.open, cutoff, k)
      {
        var t := st.open[k];
        var market := MarketOf(markets, t.terms.symbol);
        if market.Some? {
          assert market.value.Valid();
          var index := IndexAt(market.value.m15, cutoff);
          ClosedByIsAPrefix(market.value.m15, cutoff);
          if index.Some? {
            t := S.Resolved(market.value.setup.Rules(), t, market.value.m15[index.value], index.value);
          }
        }
        r := Kept(r, t);
      }
    }

    /** Every symbol without a position proposes on its own closed bars. */
    method Proposals(st: State, cutoff: int, warmup: nat) returns (offers: seq<S.Terms>, refused: map<Refusal, nat>)
      requires forall m :: m in markets ==> m.Valid()
      ensures (offers, refused) == OffersTo(markets, st, cutoff, warmup, |markets|)
    {
      hide ClosedBy, B.Proposed, Holds;
      offers, refused := [], st.refused;
      for k := 0 to |markets|
        invariant (offers, refused) == OffersTo(markets, st, cutoff, warmup, k)
      {
        var m := markets[k];
        assert m.Valid();
        if Holds(st.open, m.Symbol()) { continue; }
        var index := IndexAt(m.m15, cutoff);
        ClosedByIsAPrefix(m.m15, cutoff);
        if index.None? || index.value < warmup { continue; }
        var visibleH1 := ClosedBy(m.h1, cutoff);
        if |visibleH1| < 40 { continue; }
        var engine := new B.Backtester(m.setup);
        var proposal := engine.Propose(m.m15[..index.value + 1], visibleH1, index.value, cutoff, st.balance, st.peak, st.losses);
        match proposal {
          case Err(why) => refused := Added(refused, Own(why), 1);
          case Ok(terms) => offers := offers + [terms];
        }
      }
    }

    /** Manages what is open, then, if it is time and a slot is free, takes the best offer. */
    method AtMoment(before: State, position: nat, cutoff: int, warmup: nat, step: nat) returns (st: State)
      requires AccountFor(warmup, step).Valid() && step >= 1
      ensures st == AfterMoment(AccountFor(warmup, step), before, position, cutoff)
    {
      hide ManagedTo, OffersTo, Taken, IsForexWeekend, Added;
      st := ManageOpen(before.(bars := before.bars + 1), cutoff);
      if position % step != 0 || IsForexWeekend(cutoff) {
        return;
      }
      if |st.open| >= maxOpen {
        st := st.(refused := Added(st.refused, SlotsFull, 1));
        return;
      }
      var offers, refused := Proposals(st, cutoff, warmup);
      st := Taken(st, offers, refused);
    }

    lemma AccountForUnfolds(warmup: nat, step: nat)
      ensures AccountFor(warmup, step) == Account(markets, startingBalance, maxOpen, warmup, step)
    {
    }

    method Run(warmup: nat, step: nat) returns (r: Result<State, string>)
      requires step >= 1
      requires markets != [] ==> AccountFor(warmup, step).Valid()
      ensures r.Ok? <==> markets != []
      ensures r.Ok? ==>
                var timeline := CloseTimes(markets[Longest(markets)].m15);
                r.value == RunTo(AccountFor(warmup, step), timeline, |timeline|)
    {
      hide *;
      if markets == [] {
        return Err("no symbols added");
      }
      AccountForUnfolds(warmup, step);
      var a := AccountFor(warmup, step);
      var timeline := CloseTimes(markets[Longest(markets)].m15);
      RunToUnfolds(a, timeline, 0);
      var st := Begin(startingBalance);
      for position := 0 to |timeline|
        invariant st == RunTo(a, timeline, position)
      {
        RunToUnfolds(a, timeline, position);
        if position < warmup { continue; }
        st := AtMoment(st, position, timeline[position], warmup, step);
      }
      return Ok(st);
    }
  }

  /** The run before the warmup ends, and one moment of it after. */
  lemma RunToUnfolds(a: Account, timeline: seq<int>, k: nat)
    requires a.step >= 1 && k <= |timeline|
    ensures k <= a.warmup ==> RunTo(a, timeline, k) == Begin(a.startingBalance)
    ensures k < a.warmup && k < |timeline| ==> RunTo(a, timeline, k + 1) == Begin(a.startingBalance)
    ensures a.warmup <= k < |timeline| ==> RunTo(a, timeline, k + 1) == AfterMoment(a, RunTo(a, timeline, k), k, timeline[k])
  {
  }

  function Replaced(markets: seq<Market>, m: Market): (r: seq<Market>)
    ensures |r| == |markets|
    ensures forall i :: 0 <= i < |r| ==> r[i] == if markets[i].Symbol() == m.Symbol() then m else markets[i]
  {
    if markets == [] then []
    else [if markets[0].Symbol() == m.Symbol() then m else markets[0]] + Replaced(markets[1..], m)
  }
}
