/** The sequential backtester: one symbol, one position at a time, decisions on closed bars only. */
module Backtest {
  import opened Wrappers
  import opened Prices
  import opened Rounding
  import opened Sizing
  import opened Indicators
  import opened Sessions
  import opened Windows
  import M = Management
  import R = RiskEngine
  import S = SimulatedTrade

  /** What the strategy and the scorer offer on a window: an ordered, scored candidate. */
  datatype Offer = Offer(
    direction: Direction, entry: real, stopLoss: real, takeProfit: real, riskReward: real, atr: real, tier: R.Tier, score: real)
  {
    /** Stop, entry and target in their order for the direction. */
    predicate Ordered() {
      Gain(direction, stopLoss, entry) > 0.0 && Gain(direction, entry, takeProfit) > 0.0
    }
  }

  datatype Refusal = NoSetup(why: string) | MaxDrawdown | NoSize | RewardObjective | SpreadGuard

  /** An arbitrary function of the visible M15 window, the visible H1 window and the moment. */
  type Strategy = (seq<Candle>, seq<Candle>, int) -> Result<Offer, string>

  datatype Setup = Setup(
    spec: InstrumentSpec, execution: M.ExecutionConfig, limits: R.Limits, lookup: Option<RateLookup>, strategy: Strategy,
    spreadPoints: real, slippagePoints: real, commissionPerLot: real,
    maxSpreadAtrFraction: real, maxSpreadTpFraction: real,
    haltOnMaxDrawdown: bool, startingBalance: real, warmup: nat, step: nat)
  {
    function Rules(): S.Rules {
      S.Rules(execution, spec.contractSize, spec.tickSize, spreadPoints, slippagePoints, commissionPerLot)
    }

    function Spread(): real { spreadPoints * spec.tickSize }

    ghost predicate Valid() { limits.Validated() && step >= 1 }
  }

  // ---------------------------------------------------------------- one proposal

  function Exceeds(spread: real, distance: real, fraction: real): bool { distance > 0.0 && spread > distance * fraction }

  /** The spread is small against the volatility, the stop and the target. */
  predicate SpreadOk(spread: real, atr: real, stopDistance: real, targetDistance: real, atrFraction: real, tpFraction: real) {
    && spread >= 0.0
    && !Exceeds(spread, atr, atrFraction) && !Exceeds(spread, stopDistance, 0.25) && !Exceeds(spread, targetDistance, tpFraction)
  }

  /** The money a proposal may risk: unlike the live engine's, not rounded to cents. */
  function Stake(balance: real, pct: real): real { balance * pct }

  /** The offer's entry, paying half the spread. */
  function Filled(offer: Offer, spread: real): real { Ahead(offer.direction, offer.entry, spread / 2.0) }

  /** Higher is better. */
  function TierRank(tier: R.Tier): nat {
    match tier
    case TierAPlus => 3
    case TierA => 2
    case TierB => 1
    case NoTier => 0
  }

  function TermsOf(symbol: string, offer: Offer, index: nat, cutoff: int, entry: real, size: PositionSize): S.Terms {
    S.Terms(symbol, offer.direction, index, cutoff, entry, offer.stopLoss, offer.takeProfit,
            size.lots, size.actualRisk, size.conversionRate, TierRank(offer.tier), Round2(offer.score))
  }

  /** The proposal on two windows: sized by the live risk engine's percentage, costed, and filtered as live. */
  function Proposed(
    setup: Setup, m15: seq<Candle>, h1: seq<Candle>, index: nat, cutoff: int, balance: real, peak: real, losses: nat)
    : Result<S.Terms, Refusal>
  {
    var found := setup.strategy(m15, h1, cutoff);
    if found.Err? then Err(NoSetup(found.error))
    else if setup.haltOnMaxDrawdown && R.FallFromPeak(balance, peak) >= setup.limits.maxDrawdownPct then Err(MaxDrawdown)
    else
      var offer := found.value;
      var pct := R.RiskPct(setup.limits, offer.tier, R.DrawdownOf(balance, peak), losses);
      var entry := Filled(offer, setup.Spread());
      var size := SizeOf(setup.spec, Stake(balance, pct), entry, offer.stopLoss, setup.lookup, None, None);
      if size.Err? then Err(NoSize)
      else if setup.limits.rewardEnabled && offer.riskReward < setup.limits.minRewardR - R_EPSILON then Err(RewardObjective)
      else if !SpreadOk(setup.Spread(), offer.atr, Abs(entry - offer.stopLoss), Abs(offer.takeProfit - entry),
                        setup.maxSpreadAtrFraction, setup.maxSpreadTpFraction) then Err(SpreadGuard)
      else Ok(TermsOf(setup.spec.symbol, offer, index, cutoff, entry, size.value))
  }

  // ---------------------------------------------------------------- the run

  datatype RunState = RunState(
    bars: nat, balance: real, peak: real, losses: nat, open: Option<S.Trade>, done: seq<S.Trade>,
    curve: seq<real>, considered: nat, refused: map<Refusal, nat>)

  function Begin(setup: Setup): RunState {
    RunState(0, setup.startingBalance, setup.startingBalance, 0, None, [], [setup.startingBalance], 0, map[])
  }

  function Counted(refused: map<Refusal, nat>, why: Refusal): map<Refusal, nat> {
    refused[why := (if why in refused then refused[why] else 0) + 1]
  }

  /** Books a closed trade. */
  function Settled(st: RunState, t: S.Trade): RunState
    requires t.exit.Some?
  {
    var balance := st.balance + t.exit.value.pnl;
    st.(balance := balance, peak := Max(st.peak, balance), losses := if t.exit.value.pnl < 0.0 then st.losses + 1 else 0,
        open := None, done := st.done + [t], curve := st.curve + [Round2(balance)])
  }

  /** Manages the open position on a bar; with one still open there is nothing else to do on it. */
  function AfterManaging(setup: Setup, st: RunState, bar: Candle, index: nat): RunState {
    var counted := st.(bars := st.bars + 1);
    if st.open.None? then counted
    else
      var t := S.Resolved(setup.Rules(), st.open.value, bar, index);
      if st.open.value.exit.None? && t.exit.Some? then Settled(counted, t) else counted.(open := Some(t))
  }

  /** The proposal a bar gives, if it is a bar to ask on. */
  function Asked(
    setup: Setup, m15: seq<Candle>, h1: seq<Candle>, index: nat, balance: real, peak: real, losses: nat)
    : Option<Result<S.Terms, Refusal>>
    requires index < |m15| && setup.step >= 1
  {
    var cutoff := m15[index].CloseTime();
    if index % setup.step != 0 || IsForexWeekend(cutoff) || |VisibleH1(h1, cutoff)| < 40 then None
    else Some(Proposed(setup, VisibleM15(m15, index), VisibleH1(h1, cutoff), index, cutoff, balance, peak, losses))
  }

  function AfterAsking(st: RunState, asked: Option<Result<S.Terms, Refusal>>): RunState {
    match asked
    case None => st
    case Some(Err(why)) => st.(refused := Counted(st.refused, why))
    case Some(Ok(terms)) => st.(considered := st.considered + 1, open := Some(S.AtOpening(terms)))
  }

  function AfterBar(setup: Setup, m15: seq<Candle>, h1: seq<Candle>, st: RunState, index: nat): RunState
    requires index < |m15| && setup.step >= 1
  {
    var managed := AfterManaging(setup, st, m15[index], index);
    if managed.open.Some? then managed
    else AfterAsking(managed, Asked(setup, m15, h1, index, managed.balance, managed.peak, managed.losses))
  }

  /** The run's state before bar k. */
  function RunTo(setup: Setup, m15: seq<Candle>, h1: seq<Candle>, k: nat): RunState
    requires k <= |m15| && setup.step >= 1
  {
    if k <= setup.warmup then Begin(setup)
    else AfterBar(setup, m15, h1, RunTo(setup, m15, h1, k - 1), k - 1)
  }

  /** Every trade of a run, the open one last. */
  function Trades(st: RunState): seq<S.Trade> { st.done + (if st.open.Some? then [st.open.value] else []) }

  lemma RunToBegins(setup: Setup, m15: seq<Candle>, h1: seq<Candle>, k: nat)
    requires k <= |m15| && setup.step >= 1 && k <= setup.warmup
    ensures RunTo(setup, m15, h1, k)
            == RunState(0, setup.startingBalance, setup.startingBalance, 0, None, [], [setup.startingBalance], 0, map[])
  {
  }

  // ---------------------------------------------------------------- the engine

  class Backtester {
    const setup: Setup

    constructor (setup: Setup)
      requires setup.Valid()
      ensures this.setup == setup
    {
      this.setup := setup;
    }

    /** One proposal at one moment, sized and costed; refused for the first reason that applies. */
    method Propose(m15: seq<Candle>, h1: seq<Candle>, index: nat, cutoff: int, balance: real, peak: real, losses: nat)
      returns (r: Result<S.Terms, Refusal>)
      requires setup.Valid()
      ensures r == Proposed(setup, m15, h1, index, cutoff, balance, peak, losses)
    {
      hide R.RiskPct, SizeOf, Abs;
      var found := setup.strategy(m15, h1, cutoff);
      if found.Err? {
        return Err(NoSetup(found.error));
      }
      var offer := found.value;
      if setup.haltOnMaxDrawdown && R.FallFromPeak(balance, peak) >= setup.limits.maxDrawdownPct {
        return Err(MaxDrawdown);
      }
      var account := R.Account(balance, balance, balance, peak, 0.0, 0.0, 0, 0, losses, [], None, None, {}, map[]);
      var pct := R.RiskPercentage(setup.limits, offer.tier, account);
      var spread := setup.Spread();
      var entry := Filled(offer, spread);
      var size := CalculatePositionSize(setup.spec, Stake(balance, pct), entry, offer.stopLoss, setup.lookup, None, None);
      if size.Err? {
        return Err(NoSize);
      }
      if setup.limits.rewardEnabled && offer.riskReward < setup.limits.minRewardR - R_EPSILON {
        return Err(RewardObjective);
      }
      if !SpreadOk(spread, offer.atr, Abs(entry - offer.stopLoss), Abs(offer.takeProfit - entry),
                   setup.maxSpreadAtrFraction, setup.maxSpreadTpFraction) {
        return Err(SpreadGuard);
      }
      return Ok(TermsOf(setup.spec.symbol, offer, index, cutoff, entry, size.value));
    }

    /** Manages the open position on this bar and, if the bar closed it, books the result. */
    method ManageOpen(trade: S.SimTrade, bar: Candle, index: nat, balance: real, peak: real, losses: nat)
      returns (closed: bool, newBalance: real, newPeak: real, newLosses: nat)
      modifies trade
      ensures trade.State() == S.Resolved(setup.Rules(), old(trade.State()), bar, index)
      ensures closed <==> old(trade.exit).None? && trade.exit.Some?
      ensures closed ==>
                && newBalance == balance + trade.exit.value.pnl && newPeak == Max(peak, newBalance)
                && newLosses == if trade.exit.value.pnl < 0.0 then losses + 1 else 0
      ensures !closed ==> newBalance == balance && newPeak == peak && newLosses == losses
    {
      hide S.Resolved;
      newBalance, newPeak, newLosses := balance, peak, losses;
      closed := trade.ResolveExit(setup.Rules(), bar, index);
      if closed {
        newBalance := balance + trade.exit.value.pnl;
        newPeak := Max(peak, newBalance);
        newLosses := if trade.exit.value.pnl < 0.0 then losses + 1 else 0;
      }
    }

    /** Asks for a proposal on this bar, if it is a bar to ask on; None when it is not. */
    method ScanBar(
      m15: seq<Candle>, byTime: seq<Candle>, closeTimes: seq<int>, index: nat, balance: real, peak: real, losses: nat,
      ghost h1: seq<Candle>)
      returns (asked: Option<Result<S.Terms, Refusal>>)
      requires setup.Valid() && index < |m15| && Uniform(h1) && byTime == SortedByTime(h1)
      requires |closeTimes| == |byTime| && forall i :: 0 <= i < |byTime| ==> closeTimes[i] == byTime[i].CloseTime()
      ensures asked == Asked(setup, m15, h1, index, balance, peak, losses)
    {
      hide Proposed, VisibleH1, SortedByTime, IsForexWeekend;
      var cutoff := m15[index].CloseTime();
      if index % setup.step != 0 || IsForexWeekend(cutoff) {
        return None;
      }
      var visibleM15 := m15[(if index + 1 >= M15_LOOKBACK then index + 1 - M15_LOOKBACK else 0)..index + 1];
      var visibleH1 := SliceH1(byTime, closeTimes, cutoff, h1);
      if |visibleH1| < 40 {
        return None;
      }
      assert visibleM15 == VisibleM15(m15, index);
      var proposal := Propose(visibleM15, visibleH1, index, cutoff, balance, peak, losses);
      return Some(proposal);
    }

    /** Opens the trade this bar proposes, if it proposes one; counts it, or the reason there is none. */
    method OpenNext(
      m15: seq<Candle>, byTime: seq<Candle>, closeTimes: seq<int>, index: nat, balance: real, peak: real, losses: nat,
      considered: nat, refused: map<Refusal, nat>, ghost h1: seq<Candle>)
      returns (next: S.SimTrade?, newConsidered: nat, newRefused: map<Refusal, nat>)
      requires setup.Valid() && index < |m15| && Uniform(h1) && byTime == SortedByTime(h1)
      requires |closeTimes| == |byTime| && forall i :: 0 <= i < |byTime| ==> closeTimes[i] == byTime[i].CloseTime()
      ensures next != null ==> fresh(next)
      ensures
        var asked := Asked(setup, m15, h1, index, balance, peak, losses);
        && (next != null <==> asked.Some? && asked.value.Ok?)
        && (next != null ==> next.State() == S.AtOpening(asked.value.value))
        && newConsidered == (if next != null then considered + 1 else considered)
        && newRefused == (if asked.Some? && asked.value.Err? then Counted(refused, asked.value.error) else refused)
    {
      hide Asked, Counted, SortedByTime, Uniform, S.AtOpening;
      next, newConsidered, newRefused := null, considered, refused;
      var asked := ScanBar(m15, byTime, closeTimes, index, balance, peak, losses, h1);
      match asked {
        case None =>
        case Some(Err(why)) =>
          newRefused := Counted(refused, why);
        case Some(Ok(terms)) =>
          newConsidered := considered + 1;
          next := new S.SimTrade(terms);
      }
    }

    /** Runs the whole history. The H1 series may come in any order. */
    method Run(m15: seq<Candle>, h1: seq<Candle>)
      returns (trades: seq<S.SimTrade>, balance: real, curve: seq<real>, bars: nat, considered: nat, refused: map<Refusal, nat>)
      requires setup.Valid() && Uniform(h1)
      ensures
        var end := RunTo(setup, m15, h1, |m15|);
        && balance == end.balance && curve == end.curve && bars == end.bars
        && considered == end.considered && refused == end.refused
        && |trades| == |Trades(end)|
        && (forall i :: 0 <= i < |trades| ==> fresh(trades[i]) && trades[i].State() == Trades(end)[i])
    {
      hide RunTo, Asked, AfterAsking, Counted, Trades, Begin, StateOf, SortedByTime, Uniform, S.Resolved, S.AtOpening, Round2, Max;
      balance, curve, bars, considered, refused, trades := setup.startingBalance, [setup.startingBalance], 0, 0, map[], [];
      var peak, losses := balance, 0;
      var open: S.SimTrade? := null;
      ghost var done: seq<S.Trade> := [];
      var byTime := SortedByTime(h1);
      var closeTimes := seq(|byTime|, i requires 0 <= i < |byTime| => byTime[i].CloseTime());
      var index := setup.warmup;
      RunToBegins(setup, m15, h1, if |m15| <= index then |m15| else index);
      StateOfUnfolds(open);
      while index < |m15|
        invariant setup.warmup <= index && (index <= |m15| || index == setup.warmup)
        invariant |trades| == |done| + (if open == null then 0 else 1)
        invariant open != null ==> trades[|done|] == open
        invariant forall i :: 0 <= i < |trades| ==> fresh(trades[i])
        invariant forall i :: 0 <= i < |done| ==> trades[i] != open && trades[i].State() == done[i]
        invariant RunState(bars, balance, peak, losses, StateOf(open), done, curve, considered, refused)
                  == RunTo(setup, m15, h1, if index <= |m15| then index else |m15|)
      {
        var bar := m15[index];
        BarUnfolds(setup, m15, h1, index);
        StateOfUnfolds(open);
        index := index + 1;
        bars := bars + 1;
        if open != null {
          var closed;
          closed, balance, peak, losses := ManageOpen(open, bar, index - 1, balance, peak, losses);
          StateOfUnfolds(open);
          if closed {
            curve := curve + [Round2(balance)];
            done := done + [open.State()];
            open := null;
          } else {
            continue;
          }
        }
        AskingUnfolds(RunState(bars, balance, peak, losses, None, done, curve, considered, refused),
                      Asked(setup, m15, h1, index - 1, balance, peak, losses));
        open, considered, refused := OpenNext(m15, byTime, closeTimes, index - 1, balance, peak, losses, considered, refused, h1);
        if open != null {
          trades := trades + [open];
        }
        StateOfUnfolds(open);
      }
      StateOfUnfolds(open);
      TradesUnfold(RunTo(setup, m15, h1, |m15|));
    }
  }

  lemma AskingUnfolds(st: RunState, asked: Option<Result<S.Terms, Refusal>>)
    ensures asked.None? ==> AfterAsking(st, asked) == st
    ensures asked.Some? && asked.value.Err? ==> AfterAsking(st, asked) == st.(refused := Counted(st.refused, asked.value.error))
    ensures asked.Some? && asked.value.Ok? ==>
              AfterAsking(st, asked) == st.(considered := st.considered + 1, open := Some(S.AtOpening(asked.value.value)))
  {
  }

  lemma StateOfUnfolds(open: S.SimTrade?)
    ensures StateOf(open) == if open == null then None else Some(open.State())
    ensures open != null ==> open.State().exit == open.exit
  {
  }

  lemma TradesUnfold(st: RunState)
    ensures Trades(st) == st.done + (if st.open.Some? then [st.open.value] else [])
  {
  }

  /** One bar of the run, branch by branch. */
  lemma BarUnfolds(setup: Setup, m15: seq<Candle>, h1: seq<Candle>, index: nat)
    requires index < |m15| && setup.step >= 1 && setup.warmup <= index
    ensures
      var st, end := RunTo(setup, m15, h1, index), RunTo(setup, m15, h1, index + 1);
      var counted := st.(bars := st.bars + 1);
      if st.open.None? then end == AfterAsking(counted, Asked(setup, m15, h1, index, st.balance, st.peak, st.losses))
      else
        var t := S.Resolved(setup.Rules(), st.open.value, m15[index], index);
        if st.open.value.exit.None? && t.exit.Some? then
          var balance := st.balance + t.exit.value.pnl;
          var peak, losses := Max(st.peak, balance), if t.exit.value.pnl < 0.0 then st.losses + 1 else 0;
          end == AfterAsking(
                   RunState(st.bars + 1, balance, peak, losses, None, st.done + [t], st.curve + [Round2(balance)],
                            st.considered, st.refused),
                   Asked(setup, m15, h1, index, balance, peak, losses))
        else end == counted.(open := Some(t))
  {
    hide S.Resolved, Asked, AfterAsking, Round2;
  }

  ghost function StateOf(open: S.SimTrade?): Option<S.Trade>
    reads if open == null then {} else {open}
  {
    if open == null then None else Some(open.State())
  }
}
