/** What one moment of a portfolio run does, told symbol by symbol. */
module PortfolioLaws {
  import opened Wrappers
  import opened Prices
  import opened Rounding
  import opened Indicators
  import opened Sessions
  import opened Windows
  import opened Portfolio
  import B = Backtest
  import S = SimulatedTrade

  /** The market proposes these terms at the moment: it holds nothing, has enough bars, and its own engine says so. */
  ghost predicate Proposes(m: Market, st: State, cutoff: int, warmup: nat, terms: S.Terms) {
    var n := |ClosedBy(m.m15, cutoff)|;
    && (forall t :: t in st.open ==> t.terms.symbol != m.Symbol())
    && n > warmup && |ClosedBy(m.h1, cutoff)| >= 40
    && B.Proposed(m.setup, ClosedBy(m.m15, cutoff), ClosedBy(m.h1, cutoff), n - 1, cutoff, st.balance, st.peak, st.losses) == Ok(terms)
  }

  /** One of the first k markets proposes these terms. */
  ghost predicate Offered(markets: seq<Market>, st: State, cutoff: int, warmup: nat, k: nat, terms: S.Terms) {
    exists j :: 0 <= j < k <= |markets| && Proposes(markets[j], st, cutoff, warmup, terms)
  }

  /** The first k markets offer exactly what they propose. */
  lemma {:induction false} OffersAreTheProposals(markets: seq<Market>, st: State, cutoff: int, warmup: nat, k: nat, terms: S.Terms)
    requires k <= |markets|
    ensures terms in OffersTo(markets, st, cutoff, warmup, k).0 <==> Offered(markets, st, cutoff, warmup, k, terms)
  {
    hide *;
    if k == 0 {
      NoMarketsYet(markets, st, cutoff, warmup, terms);
    } else {
      OffersAreTheProposals(markets, st, cutoff, warmup, k - 1, terms);
      OffersProposed(markets[k - 1], st, cutoff, warmup, terms);
      OneMarketMore(markets, st, cutoff, warmup, k - 1, terms);
    }
  }

  lemma NoMarketsYet(markets: seq<Market>, st: State, cutoff: int, warmup: nat, terms: S.Terms)
    ensures OffersTo(markets, st, cutoff, warmup, 0).0 == [] && !Offered(markets, st, cutoff, warmup, 0, terms)
  {
  }

  lemma OneMarketMore(markets: seq<Market>, st: State, cutoff: int, warmup: nat, k: nat, terms: S.Terms)
    requires k < |markets|
    ensures Offered(markets, st, cutoff, warmup, k + 1, terms)
            <==> Offered(markets, st, cutoff, warmup, k, terms) || Proposes(markets[k], st, cutoff, warmup, terms)
    ensures
      var offer := OfferOf(markets[k], st, cutoff, warmup);
      OffersTo(markets, st, cutoff, warmup, k + 1).0
      == OffersTo(markets, st, cutoff, warmup, k).0 + (if offer.Some? && offer.value.Ok? then [offer.value.value] else [])
  {
    hide Proposes, OfferOf, Added;
  }

  lemma OffersProposed(m: Market, st: State, cutoff: int, warmup: nat, terms: S.Terms)
    ensures OfferOf(m, st, cutoff, warmup) == Some(Ok(terms)) <==> Proposes(m, st, cutoff, warmup, terms)
  {
    hide ClosedBy, B.Proposed;
  }

  /** Ranked below by grade, or by score within a grade. */
  predicate NoBetter(a: S.Terms, b: S.Terms) { a.grade < b.grade || (a.grade == b.grade && a.score <= b.score) }

  /** What a trade is after the moment: it meets its symbol's last closed bar, if its symbol has one. */
  ghost predicate Meets(markets: seq<Market>, t: S.Trade, cutoff: int, after: S.Trade) {
    if exists m :: m in markets && m.Symbol() == t.terms.symbol && ClosedBy(m.m15, cutoff) != [] then
      exists m ::
        && m in markets && m.Symbol() == t.terms.symbol && ClosedBy(m.m15, cutoff) != []
        && var closed := ClosedBy(m.m15, cutoff);
           after == S.Resolved(m.setup.Rules(), t, closed[|closed| - 1], |closed| - 1)
    else after == t
  }

  /** With one market a symbol, the market looked up is the only one there is. */
  lemma {:induction false} MarketIsTheOne(markets: seq<Market>, symbol: string)
    ensures MarketOf(markets, symbol).None? ==> forall m :: m in markets ==> m.Symbol() != symbol
  {
    if markets != [] {
      MarketIsTheOne(markets[1..], symbol);
      assert markets == [markets[0]] + markets[1..];
    }
  }

  lemma TradesMeetTheirBar(a: Account, t: S.Trade, cutoff: int)
    requires a.Valid()
    ensures Meets(a.markets, t, cutoff, TradeAt(a.markets, t, cutoff))
  {
    hide ClosedBy, S.Resolved;
    MarketIsTheOne(a.markets, t.terms.symbol);
    var market := MarketOf(a.markets, t.terms.symbol);
    if market.Some? {
      forall m | m in a.markets && m.Symbol() == t.terms.symbol ensures m == market.value {
        var i :| 0 <= i < |a.markets| && a.markets[i] == m;
        var j :| 0 <= j < |a.markets| && a.markets[j] == market.value;
        assert a.markets[i].Symbol() == a.markets[j].Symbol();
        assert i == j;
      }
    }
  }

  function StillOpen(trades: seq<S.Trade>): seq<S.Trade> {
    if trades == [] then []
    else
      var n := |trades| - 1;
      StillOpen(trades[..n]) + (if trades[n].exit.None? then [trades[n]] else [])
  }

  function NowClosed(trades: seq<S.Trade>): seq<S.Trade> {
    if trades == [] then []
    else
      var n := |trades| - 1;
      NowClosed(trades[..n]) + (if trades[n].exit.Some? then [trades[n]] else [])
  }

  function AllMet(markets: seq<Market>, trades: seq<S.Trade>, cutoff: int): seq<S.Trade> {
    seq(|trades|, i requires 0 <= i < |trades| => TradeAt(markets, trades[i], cutoff))
  }

  /** The open trades meet their bars: those still open stay, in order, and those that closed are booked, in order. */
  lemma {:induction false} ManagingSplitsTheTrades(markets: seq<Market>, st: State, trades: seq<S.Trade>, cutoff: int, k: nat)
    requires k <= |trades| && st.open == []
    ensures
      var end, met := ManagedTo(markets, st, trades, cutoff, k), AllMet(markets, trades[..k], cutoff);
      && end.open == StillOpen(met) && end.done == st.done + NowClosed(met)
      && end.bars == st.bars && end.considered == st.considered && end.refused == st.refused
  {
    hide *;
    if k == 0 {
      NothingMetYet(markets, st, trades, cutoff);
    } else {
      ManagingSplitsTheTrades(markets, st, trades, cutoff, k - 1);
      OneTradeMore(markets, st, trades, cutoff, k - 1);
      SplitOneMore(AllMet(markets, trades[..k - 1], cutoff), TradeAt(markets, trades[k - 1], cutoff));
    }
  }

  lemma NothingMetYet(markets: seq<Market>, st: State, trades: seq<S.Trade>, cutoff: int)
    ensures ManagedTo(markets, st, trades, cutoff, 0) == st
    ensures StillOpen(AllMet(markets, trades[..0], cutoff)) == NowClosed(AllMet(markets, trades[..0], cutoff)) == []
  {
  }

  lemma OneTradeMore(markets: seq<Market>, st: State, trades: seq<S.Trade>, cutoff: int, k: nat)
    requires k < |trades|
    ensures AllMet(markets, trades[..k + 1], cutoff) == AllMet(markets, trades[..k], cutoff) + [TradeAt(markets, trades[k], cutoff)]
    ensures
      var before, end := ManagedTo(markets, st, trades, cutoff, k), ManagedTo(markets, st, trades, cutoff, k + 1);
      var t := TradeAt(markets, trades[k], cutoff);
      && end.open == before.open + (if t.exit.None? then [t] else [])
      && end.done == before.done + (if t.exit.Some? then [t] else [])
      && end.bars == before.bars && end.considered == before.considered && end.refused == before.refused
      && (t.exit.None? ==> end.balance == before.balance && end.peak == before.peak && end.losses == before.losses)
      && (t.exit.Some? ==>
            && end.balance == before.balance + t.exit.value.pnl
            && end.peak == (if end.balance > before.peak then end.balance else before.peak)
            && end.losses == (if t.exit.value.pnl < 0.0 then before.losses + 1 else 0))
  {
    hide TradeAt, Round2;
  }

  lemma SplitOneMore(trades: seq<S.Trade>, t: S.Trade)
    ensures StillOpen(trades + [t]) == StillOpen(trades) + (if t.exit.None? then [t] else [])
    ensures NowClosed(trades + [t]) == NowClosed(trades) + (if t.exit.Some? then [t] else [])
  {
    assert (trades + [t])[..|trades|] == trades;
  }

  /**
   One moment of the run. On a moment to ask on, with a slot free once the open trades have
   met their bars, the best proposal is opened if any symbol has one: of the highest grade,
   and of the highest score in it. Otherwise nothing is opened.
   */
  lemma MomentOpensTheBest(a: Account, st: State, position: nat, cutoff: int)
    requires a.step >= 1
    ensures
      var managed := ManagedTo(a.markets, st.(bars := st.bars + 1, open := []), st.open, cutoff, |st.open|);
      var end := AfterMoment(a, st, position, cutoff);
      var asks := position % a.step == 0 && !IsForexWeekend(cutoff) && |managed.open| < a.maxOpen;
      && end.balance == managed.balance && end.peak == managed.peak && end.losses == managed.losses && end.done == managed.done
      && if asks && exists terms :: Offered(a.markets, managed, cutoff, a.warmup, |a.markets|, terms) then
           OpensTheBest(a, managed, cutoff, end.open)
         else end.open == managed.open
  {
    hide ManagedTo, OffersTo, Offered, IsForexWeekend, Added, OpensTheBest;
    var managed := ManagedTo(a.markets, st.(bars := st.bars + 1, open := []), st.open, cutoff, |st.open|);
    TakingTakesTheBest(a, managed, cutoff);
  }

  /** One trade more is open, at terms that were offered and that no offer betters. */
  ghost predicate OpensTheBest(a: Account, managed: State, cutoff: int, open: seq<S.Trade>) {
    exists best ::
      && Offered(a.markets, managed, cutoff, a.warmup, |a.markets|, best)
      && open == managed.open + [S.AtOpening(best)]
      && forall terms :: Offered(a.markets, managed, cutoff, a.warmup, |a.markets|, terms) ==> NoBetter(terms, best)
  }

  lemma TakingTakesTheBest(a: Account, managed: State, cutoff: int)
    ensures
      var (offers, refused) := OffersTo(a.markets, managed, cutoff, a.warmup, |a.markets|);
      var end := Taken(managed, offers, refused);
      && end.balance == managed.balance && end.peak == managed.peak && end.losses == managed.losses && end.done == managed.done
      && if exists terms :: Offered(a.markets, managed, cutoff, a.warmup, |a.markets|, terms) then
           OpensTheBest(a, managed, cutoff, end.open)
         else end.open == managed.open
  {
    var (offers, refused) := OffersTo(a.markets, managed, cutoff, a.warmup, |a.markets|);
    forall terms ensures terms in offers <==> Offered(a.markets, managed, cutoff, a.warmup, |a.markets|, terms) {
      OffersAreTheProposals(a.markets, managed, cutoff, a.warmup, |a.markets|, terms);
    }
    hide OffersTo, Offered, Added, S.AtOpening;
    if offers != [] {
      var best := offers[Best(offers)];
      assert best in offers;
      forall terms | terms in offers ensures NoBetter(terms, best) {
        var j :| 0 <= j < |offers| && offers[j] == terms;
      }
    }
  }
}
