/** One simulated trade from fill to exit: pessimistic fills, management one poll behind, and its ledger. */
module SimulatedTrade {
  import opened Wrappers
  import opened Prices
  import opened Rounding
  import opened Management
  import I = Indicators

  /** Everything the fill model needs besides the trade and the bar. */
  datatype Rules = Rules(
    config: ExecutionConfig, contractSize: real, tickSize: real,
    spreadPoints: real, slippagePoints: real, commissionPerLot: real)
  {
    function Slippage(): real { slippagePoints * tickSize }

    /** Costs that cost, and a contract that is worth something. */
    ghost predicate Valid() { contractSize > 0.0 && Slippage() >= 0.0 && commissionPerLot >= 0.0 }
  }

  /** What is fixed when the trade is opened. */
  datatype Terms = Terms(
    symbol: string, direction: Direction, entryIndex: nat, entryTime: int, entry: real, initialStop: real, takeProfit: real,
    lots: real, riskAmount: real, conversionRate: real, grade: nat, score: real)
  {
    /** The price distance from entry to the opening stop. */
    function StopDistance(): real { Gain(direction, initialStop, entry) }

    /** The stop is on the losing side, the target is ahead of it, and prices, lots and the rate are sensible. */
    ghost predicate Valid() {
      && entry > 0.0 && initialStop > 0.0 && conversionRate > 0.0 && lots >= 0.0
      && StopDistance() > 0.0 && Gain(direction, initialStop, takeProfit) > 0.0
    }
  }

  datatype ExitReason = StopHit | StopAndTargetSameBar | TargetHit | Voluntary(reason: CloseReason)

  /** How the trade ended; `lots` is what was still open then. */
  datatype Exit = Exit(
    index: nat, time: int, price: real, lots: real, pnl: real, rMultiple: real, reason: ExitReason)

  /** A trade at a moment. `bankedLots` is the size of the partial close behind `bankedPnl`. */
  datatype Trade = Trade(
    terms: Terms, stopLoss: real, openLots: real, bankedPnl: real, bankedLots: real, partialTaken: bool,
    mfe: real, mae: real, exit: Option<Exit>)

  function AtOpening(terms: Terms): Trade {
    Trade(terms, terms.initialStop, terms.lots, 0.0, 0.0, false, 0.0, 0.0, None)
  }

  // ---------------------------------------------------------------- the ledger's arithmetic

  /** Account-currency result of a price move on some lots, before commission. */
  function Gross(move: real, contract: real, lots: real, rate: real): real { move * contract * lots * rate }

  function Booked(rules: Rules, rate: real, move: real, lots: real): real {
    Gross(move, rules.contractSize, lots, rate) - rules.commissionPerLot * lots
  }

  function InR(pnl: real, risk: real): real { if risk > 0.0 then pnl / risk else 0.0 }

  /** Books the remaining lots and finishes the trade. */
  function ClosedAt(rules: Rules, t: Trade, bar: I.Candle, index: nat, price: real, reason: ExitReason): Trade {
    var pnl := t.bankedPnl + Booked(rules, t.terms.conversionRate, Gain(t.terms.direction, t.terms.entry, price), t.openLots);
    t.(openLots := 0.0,
       exit := Some(Exit(index, bar.CloseTime(), price, t.openLots, pnl, InR(pnl, t.terms.riskAmount), reason)))
  }

  /** The price a partial fills at: the trigger level, less slippage. */
  function PartialFill(rules: Rules, terms: Terms): real {
    Ahead(terms.direction, terms.entry, terms.StopDistance() * rules.config.partialAtR - rules.Slippage())
  }

  function PartialMove(rules: Rules, terms: Terms): real {
    Gain(terms.direction, terms.entry, PartialFill(rules, terms))
  }

  function Banked(rules: Rules, t: Trade, closing: real): Trade {
    t.(bankedPnl := t.bankedPnl + Booked(rules, t.terms.conversionRate, PartialMove(rules, t.terms), closing),
       bankedLots := t.bankedLots + closing, openLots := Round6(t.openLots - closing), partialTaken := true)
  }

  function Acted(rules: Rules, t: Trade, bar: I.Candle, index: nat, action: Action): Trade {
    match action
    case MoveStop(stop) => t.(stopLoss := stop)
    case PartialClose(quantity) =>
      var closing := Min(t.openLots, quantity);
      if t.partialTaken || closing <= 0.0 then t else Banked(rules, t, closing)
    case Close(reason) => ClosedAt(rules, t, bar, index, bar.close, Voluntary(reason))
  }

  /** The actions in order, up to the one that closes the trade. */
  function ActedAll(rules: Rules, t: Trade, bar: I.Candle, index: nat, actions: seq<Action>): Trade
    decreases actions
  {
    if actions == [] || t.exit.Some? then t
    else ActedAll(rules, Acted(rules, t, bar, index, actions[0]), bar, index, actions[1..])
  }

  /** What the closed trades have made. */
  function Pnl(trades: seq<Trade>): real
    requires forall t :: t in trades ==> t.exit.Some?
  {
    if trades == [] then 0.0 else Pnl(trades[..|trades| - 1]) + trades[|trades| - 1].exit.value.pnl
  }

  function Hours(minutes: int): real { minutes as real / 60.0 }

  /** The plan for this bar: measured from its favourable extreme, against the opening stop. */
  function PlanFor(rules: Rules, t: Trade, bar: I.Candle): seq<Action> {
    PlanActions(
      Position(t.terms.direction, t.openLots, t.terms.entry, Some(t.stopLoss), Some(Hours(t.terms.entryTime))),
      Some(TradeRow(Some(t.terms.entry), None, Some(t.terms.initialStop), t.partialTaken)),
      if t.terms.direction == Buy then bar.high else bar.low, rules.config, false, Hours(bar.CloseTime()))
  }

  function Managed(rules: Rules, t: Trade, bar: I.Candle, index: nat): Trade {
    if t.openLots <= 0.0 || t.exit.Some? then t
    else ActedAll(rules, t, bar, index, PlanFor(rules, t, bar))
  }

  predicate HitsStop(t: Trade, bar: I.Candle) {
    if t.terms.direction == Buy then bar.low <= t.stopLoss else bar.high >= t.stopLoss
  }

  predicate HitsTarget(t: Trade, bar: I.Candle) {
    if t.terms.direction == Buy then bar.high >= t.terms.takeProfit else bar.low <= t.terms.takeProfit
  }

  function Excursed(t: Trade, bar: I.Candle): Trade {
    var up, down := bar.high - t.terms.entry, bar.low - t.terms.entry;
    if t.terms.direction == Buy then t.(mfe := Max(t.mfe, up), mae := Min(t.mae, down))
    else t.(mfe := Max(t.mfe, -down), mae := Min(t.mae, -up))
  }

  /** What one bar does to the trade. A bar that touches both levels is resolved as the stop. */
  function Resolved(rules: Rules, t: Trade, bar: I.Candle, index: nat): Trade {
    if index <= t.terms.entryIndex || t.exit.Some? then t
    else
      var u := Excursed(t, bar);
      if HitsStop(t, bar) then
        ClosedAt(rules, u, bar, index, Ahead(t.terms.direction, t.stopLoss, -rules.Slippage()),
                 if HitsTarget(t, bar) then StopAndTargetSameBar else StopHit)
      else if HitsTarget(t, bar) then ClosedAt(rules, u, bar, index, t.terms.takeProfit, TargetHit)
      else Managed(rules, u, bar, index)
  }

  // ---------------------------------------------------------------- the object

  class SimTrade {
    const terms: Terms
    var stopLoss: real
    var openLots: real
    var bankedPnl: real
    ghost var bankedLots: real
    var partialTaken: bool
    var mfe: real
    var mae: real
    var exit: Option<Exit>

    ghost function State(): Trade
      reads this
    {
      Trade(terms, stopLoss, openLots, bankedPnl, bankedLots, partialTaken, mfe, mae, exit)
    }

    constructor (terms: Terms)
      ensures State() == AtOpening(terms) && this.terms == terms
    {
      this.terms := terms;
      stopLoss, openLots, bankedPnl, bankedLots, partialTaken := terms.initialStop, terms.lots, 0.0, 0.0, false;
      mfe, mae, exit := 0.0, 0.0, None;
    }

    method Close(rules: Rules, bar: I.Candle, index: nat, price: real, reason: ExitReason)
      modifies this
      ensures State() == ClosedAt(rules, old(State()), bar, index, price, reason)
    {
      hide Gross, InR;
      var move := Gain(terms.direction, terms.entry, price);
      var gross := Gross(move, rules.contractSize, openLots, terms.conversionRate);
      var commission := rules.commissionPerLot * openLots;
      var pnl := bankedPnl + gross - commission;
      exit := Some(Exit(index, bar.CloseTime(), price, openLots, pnl, InR(pnl, terms.riskAmount), reason));
      openLots := 0.0;
      assert pnl == old(bankedPnl) + Booked(rules, terms.conversionRate, Gain(terms.direction, terms.entry, price), old(openLots));
      assert ClosedAt(rules, old(State()), bar, index, price, reason).exit == exit;
    }

    method Bank(rules: Rules, closing: real)
      modifies this
      ensures State() == Banked(rules, old(State()), closing)
    {
      bankedPnl := bankedPnl + Booked(rules, terms.conversionRate, PartialMove(rules, terms), closing);
      bankedLots := bankedLots + closing;
      openLots := Round6(openLots - closing);
      partialTaken := true;
    }

    /** Applies management for this bar, after the exit check. */
    method Manage(rules: Rules, bar: I.Candle, index: nat)
      modifies this
      ensures State() == Managed(rules, old(State()), bar, index)
    {
      hide PlanActions, Booked, PartialMove, Round6, InR;
      if openLots <= 0.0 || exit.Some? {
        return;
      }
      var position := Position(terms.direction, openLots, terms.entry, Some(stopLoss), Some(Hours(terms.entryTime)));
      var row := TradeRow(Some(terms.entry), None, Some(terms.initialStop), partialTaken);
      var price := if terms.direction == Buy then bar.high else bar.low;
      var actions := PlanActions(position, Some(row), price, rules.config, false, Hours(bar.CloseTime()));
      var i := 0;
      while i < |actions|
        invariant 0 <= i <= |actions|
        invariant exit.None?
        invariant ActedAll(rules, State(), bar, index, actions[i..]) == ActedAll(rules, old(State()), bar, index, actions)
      {
        assert actions[i..][1..] == actions[i + 1..];
        match actions[i] {
          case MoveStop(stop) =>
            stopLoss := stop;
          case PartialClose(quantity) =>
            var closing := Min(openLots, quantity);
            if !partialTaken && closing > 0.0 {
              Bank(rules, closing);
            }
          case Close(reason) =>
            Close(rules, bar, index, bar.close, Voluntary(reason));
            return;
        }
        i := i + 1;
      }
    }

    /** Did this bar close the trade? */
    method ResolveExit(rules: Rules, bar: I.Candle, index: nat) returns (closed: bool)
      modifies this
      ensures State() == Resolved(rules, old(State()), bar, index)
      ensures closed <==> old(exit).None? && exit.Some?
    {
      hide Managed, Booked, Gross;
      if index <= terms.entryIndex || exit.Some? {
        return false;
      }
      var up, down := bar.high - terms.entry, bar.low - terms.entry;
      var hitStop, hitTarget;
      if terms.direction == Buy {
        mfe, mae := Max(mfe, up), Min(mae, down);
        hitStop, hitTarget := bar.low <= stopLoss, bar.high >= terms.takeProfit;
      } else {
        mfe, mae := Max(mfe, -down), Min(mae, -up);
        hitStop, hitTarget := bar.high >= stopLoss, bar.low <= terms.takeProfit;
      }
      if !hitStop && !hitTarget {
        Manage(rules, bar, index);
        return exit.Some?;
      }
      if hitStop {
        var price := if terms.direction == Buy then stopLoss - rules.Slippage() else stopLoss + rules.Slippage();
        Close(rules, bar, index, price, if hitTarget then StopAndTargetSameBar else StopHit);
      } else {
        Close(rules, bar, index, terms.takeProfit, TargetHit);
      }
      return true;
    }
  }
}
