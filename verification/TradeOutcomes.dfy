/** What one bar does to a simulated trade, told from its prices and times alone. */
module TradeOutcomes {
  import opened Wrappers
  import opened Prices
  import opened Rounding
  import opened Management
  import opened SimulatedTrade
  import I = Indicators

  /** The furthest the bar has gone for the trade, and against it. */
  function Best(t: Trade, bar: I.Candle): real { if t.terms.direction == Buy then bar.high else bar.low }

  function Gained(t: Trade, price: real): real {
    if t.terms.direction == Buy then price - t.terms.entry else t.terms.entry - price
  }

  /** The bar is in the trade's excursions. */
  ghost predicate SawTheBar(t: Trade, after: Trade, bar: I.Candle) {
    var up, down := bar.high - t.terms.entry, bar.low - t.terms.entry;
    var gain, loss := if t.terms.direction == Buy then up else -down, if t.terms.direction == Buy then down else -up;
    && after.terms == t.terms
    && after.mfe >= t.mfe && after.mfe >= gain && after.mfe in {t.mfe, gain}
    && after.mae <= t.mae && after.mae <= loss && after.mae in {t.mae, loss}
  }

  /** What some lots of the trade make of a price move, in account currency, after commission. */
  function Makes(rules: Rules, t: Trade, move: real, lots: real): real {
    move * rules.contractSize * lots * t.terms.conversionRate - rules.commissionPerLot * lots
  }

  /** All the lots still open are closed at this price, and the trade's result is what was banked and what they make. */
  ghost predicate EndsAt(rules: Rules, t: Trade, after: Trade, bar: I.Candle, index: nat, price: real, reason: ExitReason) {
    && after.exit.Some? && after.openLots == 0.0
    && var exit := after.exit.value;
       && exit.index == index && exit.time == bar.CloseTime() && exit.price == price && exit.reason == reason
       && exit.lots == t.openLots
       && exit.pnl == t.bankedPnl + Makes(rules, t, Gained(t, price), t.openLots)
       && (t.terms.riskAmount > 0.0 ==> exit.rMultiple == exit.pnl / t.terms.riskAmount)
       && (t.terms.riskAmount <= 0.0 ==> exit.rMultiple == 0.0)
  }

  /**
   After its entry bar, a live trade is closed at its stop, less slippage, exactly when the
   bar's adverse extreme reaches the stop; otherwise at its target exactly when the favourable
   extreme reaches that; otherwise only its management can close it, and then at the bar's close.
   */
  lemma BarClosesExactlyWhen(rules: Rules, t: Trade, bar: I.Candle, index: nat)
    requires t.terms.entryIndex < index && t.exit.None?
    ensures
      var after, buy := Resolved(rules, t, bar, index), t.terms.direction == Buy;
      var slippage := rules.slippagePoints * rules.tickSize;
      var stopped := if buy then bar.low <= t.stopLoss else bar.high >= t.stopLoss;
      var paid := if buy then bar.high >= t.terms.takeProfit else bar.low <= t.terms.takeProfit;
      && SawTheBar(t, after, bar)
      && (stopped <==> after.exit.Some? && after.exit.value.reason in {StopHit, StopAndTargetSameBar})
      && (stopped ==>
            && EndsAt(rules, t, after, bar, index, if buy then t.stopLoss - slippage else t.stopLoss + slippage,
                      if paid then StopAndTargetSameBar else StopHit)
            && after.stopLoss == t.stopLoss && after.bankedPnl == t.bankedPnl)
      && (!stopped && paid <==> after.exit.Some? && after.exit.value.reason == TargetHit)
      && (!stopped && paid ==>
            && EndsAt(rules, t, after, bar, index, t.terms.takeProfit, TargetHit)
            && after.stopLoss == t.stopLoss && after.bankedPnl == t.bankedPnl)
      && (!stopped && !paid && after.exit.Some? ==> after.exit.value.reason.Voluntary? && after.exit.value.price == bar.close)
  {
    var u, stop, slippage := Excursed(t, bar), t.stopLoss, rules.slippagePoints * rules.tickSize;
    var price := if t.terms.direction == Buy then stop - slippage else stop + slippage;
    ClosesInTheBar(rules, t, bar, index, price, if HitsTarget(t, bar) then StopAndTargetSameBar else StopHit);
    ClosesInTheBar(rules, t, bar, index, t.terms.takeProfit, TargetHit);
    ManagesInTheBar(rules, t, bar, index);
    assert Ahead(t.terms.direction, stop, -rules.Slippage()) == price;
    hide Excursed, ClosedAt, EndsAt, SawTheBar, Managed, Rules.Slippage, Ahead;
  }

  /** Closing at a price, in the bar. */
  lemma ClosesInTheBar(rules: Rules, t: Trade, bar: I.Candle, index: nat, price: real, reason: ExitReason)
    requires t.exit.None?
    ensures
      var after := ClosedAt(rules, Excursed(t, bar), bar, index, price, reason);
      && SawTheBar(t, after, bar) && EndsAt(rules, t, after, bar, index, price, reason)
      && after.stopLoss == t.stopLoss && after.bankedPnl == t.bankedPnl
      && after.exit.Some? && after.exit.value.reason == reason
  {
    ClosingEnds(rules, Excursed(t, bar), bar, index, price, reason);
    hide InR, Booked, EndsAt;
    EndsAlike(rules, t, Excursed(t, bar), ClosedAt(rules, Excursed(t, bar), bar, index, price, reason), bar, index, price, reason);
  }

  lemma ManagesInTheBar(rules: Rules, t: Trade, bar: I.Candle, index: nat)
    requires t.exit.None?
    ensures
      var after := Managed(rules, Excursed(t, bar), bar, index);
      && SawTheBar(t, after, bar)
      && (after.exit.Some? ==> after.exit.value.reason.Voluntary? && after.exit.value.price == bar.close)
  {
    var u := Excursed(t, bar);
    ActingEndsVoluntarily(rules, u, bar, index, PlanFor(rules, u, bar));
    hide PlanFor, ActedAll;
  }

  lemma ClosingEnds(rules: Rules, t: Trade, bar: I.Candle, index: nat, price: real, reason: ExitReason)
    ensures
      var after := ClosedAt(rules, t, bar, index, price, reason);
      && EndsAt(rules, t, after, bar, index, price, reason)
      && after.stopLoss == t.stopLoss && after.bankedPnl == t.bankedPnl && after.partialTaken == t.partialTaken
  {
  }

  /** How a trade ends depends on nothing but its terms, its open lots and what was banked. */
  lemma EndsAlike(rules: Rules, t: Trade, u: Trade, after: Trade, bar: I.Candle, index: nat, price: real, reason: ExitReason)
    requires u.terms == t.terms && u.bankedPnl == t.bankedPnl && u.openLots == t.openLots
    ensures EndsAt(rules, u, after, bar, index, price, reason) == EndsAt(rules, t, after, bar, index, price, reason)
  {
  }

  /** Up to the entry bar, and once it is closed, nothing happens to a trade. */
  lemma NothingHappensOutside(rules: Rules, t: Trade, bar: I.Candle, index: nat)
    requires index <= t.terms.entryIndex || t.exit.Some?
    ensures Resolved(rules, t, bar, index) == t
  {
  }

  lemma {:induction false} ActingEndsVoluntarily(rules: Rules, t: Trade, bar: I.Candle, index: nat, actions: seq<Action>)
    requires t.exit.None?
    ensures
      var after := ActedAll(rules, t, bar, index, actions);
      && after.terms == t.terms && after.mfe == t.mfe && after.mae == t.mae
      && (after.exit.Some? ==> after.exit.value.reason.Voluntary? && after.exit.value.price == bar.close)
    decreases |actions|
  {
    if actions != [] {
      hide Booked, PartialMove, Round6, InR;
      var next := Acted(rules, t, bar, index, actions[0]);
      if next.exit.None? {
        ActingEndsVoluntarily(rules, next, bar, index, actions[1..]);
      }
    }
  }

  /** One action of a plan, or none, and then the rest. */
  lemma ActedInTurn(rules: Rules, t: Trade, bar: I.Candle, index: nat, due: bool, action: Action, rest: seq<Action>)
    requires t.exit.None?
    ensures ActedAll(rules, t, bar, index, (if due then [action] else []) + rest)
            == ActedAll(rules, if due then Acted(rules, t, bar, index, action) else t, bar, index, rest)
  {
    hide Acted;
    var actions := (if due then [action] else []) + rest;
    if due {
      assert actions[0] == action && actions[1..] == rest;
    } else {
      assert actions == rest;
    }
  }

  /** The lots a partial would close now. */
  function Closing(rules: Rules, t: Trade): real { Min(t.openLots, PartialLots(rules.config, t.openLots)) }

  /** What a partial gains per unit: its trigger's distance from entry, less slippage. */
  function PartialGain(rules: Rules, t: Trade): real {
    t.terms.StopDistance() * rules.config.partialAtR - rules.slippagePoints * rules.tickSize
  }

  /** The plan's stops and triggers for this bar, from prices and times. D is the opening stop distance. */
  predicate MovesToBreakeven(rules: Rules, t: Trade, bar: I.Candle) {
    var d, gain := t.terms.StopDistance(), Gained(t, Best(t, bar));
    && rules.config.enableBreakeven && gain >= (rules.config.breakevenAtR - 0.000001) * d
    && (if t.terms.direction == Buy then t.stopLoss < t.terms.entry else t.stopLoss > t.terms.entry)
    && gain - d / 20.0 > d * 0.02
  }

  predicate TakesPartial(rules: Rules, t: Trade, bar: I.Candle) {
    && rules.config.enablePartial && Gained(t, Best(t, bar)) >= (rules.config.partialAtR - 0.000001) * t.terms.StopDistance()
    && !t.partialTaken && Closing(rules, t) > 0.0
  }

  predicate Trails(rules: Rules, t: Trade, bar: I.Candle) {
    var d := t.terms.StopDistance();
    && rules.config.enableTrailing && Gained(t, Best(t, bar)) >= (rules.config.trailAfterR - 0.000001) * d
    && (if t.terms.direction == Buy then bar.high - d > t.stopLoss else bar.low + d < t.stopLoss)
  }

  predicate Expires(rules: Rules, t: Trade, bar: I.Candle) {
    && (bar.CloseTime() - t.terms.entryTime) as real / 60.0 >= rules.config.maxPositionHours
    && Gained(t, Best(t, bar)) < t.terms.StopDistance() / 2.0
  }

  function BreakevenAt(t: Trade): real { Ahead(t.terms.direction, t.terms.entry, t.terms.StopDistance() / 20.0) }

  function TrailAt(t: Trade, bar: I.Candle): real { Ahead(t.terms.direction, Best(t, bar), -t.terms.StopDistance()) }

  /** The trigger of a partial, before it is known how many lots it closes. */
  predicate PartialIsDue(rules: Rules, t: Trade, bar: I.Candle) {
    && rules.config.enablePartial && Gained(t, Best(t, bar)) >= (rules.config.partialAtR - 0.000001) * t.terms.StopDistance()
    && !t.partialTaken
  }

  lemma PlanForIsExactly(rules: Rules, t: Trade, bar: I.Candle)
    requires t.terms.entry != 0.0 && t.terms.initialStop != 0.0 && t.terms.StopDistance() > 0.0
    ensures
      PlanFor(rules, t, bar)
      == (if MovesToBreakeven(rules, t, bar) then [MoveStop(BreakevenAt(t))] else [])
         + (if PartialIsDue(rules, t, bar) then [PartialClose(PartialLots(rules.config, t.openLots))] else [])
         + (if Trails(rules, t, bar) then [MoveStop(TrailAt(t, bar))] else [])
         + (if Expires(rules, t, bar) then [Close(TimeStop)] else [])
  {
    var terms, price := t.terms, Best(t, bar);
    var position := Position(terms.direction, t.openLots, terms.entry, Some(t.stopLoss), Some(Hours(terms.entryTime)));
    var row := Some(TradeRow(Some(terms.entry), None, Some(terms.initialStop), t.partialTaken));
    assert PlanFor(rules, t, bar) == PlanActions(position, row, price, rules.config, false, Hours(bar.CloseTime()));
    assert PartialQuantity(position, rules.config) == PartialLots(rules.config, t.openLots);
    assert MeasuredFrom(position, row, terms.entry, terms.initialStop);
    TriggersForABar(rules, t, bar, position);
    hide *;
    PlanIsExactly(position, row, price, rules.config, false, Hours(bar.CloseTime()), terms.entry, terms.initialStop);
  }

  lemma TriggersForABar(rules: Rules, t: Trade, bar: I.Candle, position: Position)
    requires t.terms.StopDistance() > 0.0
    requires position.direction == t.terms.direction && position.stopLoss == Some(t.stopLoss)
    ensures
      var terms, price, config := t.terms, Best(t, bar), rules.config;
      var entry, stop := terms.entry, terms.initialStop;
      var distance := if entry > stop then entry - stop else stop - entry;
      && distance != 0.0
      && Ahead(position.direction, entry, distance / 20.0) == BreakevenAt(t)
      && Ahead(position.direction, price, -distance) == TrailAt(t, bar)
      && (MovesToBreakeven(rules, t, bar)
          <==> config.enableBreakeven && Reached(position.direction, entry, stop, price, config.breakevenAtR - 0.000001)
               && BreaksEvenAt(position, entry, stop, price, BreakevenAt(t)))
      && (PartialIsDue(rules, t, bar)
          <==> config.enablePartial && Reached(position.direction, entry, stop, price, config.partialAtR - 0.000001)
               && !t.partialTaken)
      && (Trails(rules, t, bar)
          <==> config.enableTrailing && Reached(position.direction, entry, stop, price, config.trailAfterR - 0.000001)
               && TrailsTo(position, entry, stop, price, TrailAt(t, bar)))
      && (Expires(rules, t, bar)
          <==> Hours(bar.CloseTime()) - Hours(terms.entryTime) >= config.maxPositionHours
               && !Reached(position.direction, entry, stop, price, 0.5))
  {
    HoursBetween(t.terms.entryTime, bar.CloseTime());
  }

  lemma HoursBetween(from: int, to: int)
    ensures Hours(to) - Hours(from) == (to - from) as real / 60.0
  {
  }

  /** The plan's actions in turn: break-even, partial, trail, expiry. */
  lemma ManagedStepByStep(rules: Rules, t: Trade, bar: I.Candle, index: nat, stopped: Trade, cut: Trade, trailed: Trade)
    requires t.exit.None? && t.openLots > 0.0
    requires t.terms.entry != 0.0 && t.terms.initialStop != 0.0 && t.terms.StopDistance() > 0.0
    requires stopped == if MovesToBreakeven(rules, t, bar) then t.(stopLoss := BreakevenAt(t)) else t
    requires cut == if TakesPartial(rules, t, bar) then Banked(rules, stopped, Closing(rules, t)) else stopped
    requires trailed == if Trails(rules, t, bar) then cut.(stopLoss := TrailAt(t, bar)) else cut
    ensures Managed(rules, t, bar, index)
            == if Expires(rules, t, bar) then ClosedAt(rules, trailed, bar, index, bar.close, Voluntary(TimeStop)) else trailed
  {
    PlanForIsExactly(rules, t, bar);
    PartialOnce(rules, t, stopped, bar, index);
    var steps := [
      (MovesToBreakeven(rules, t, bar), MoveStop(BreakevenAt(t))),
      (PartialIsDue(rules, t, bar), PartialClose(PartialLots(rules.config, t.openLots))),
      (Trails(rules, t, bar), MoveStop(TrailAt(t, bar))),
      (Expires(rules, t, bar), Close(TimeStop))];
    hide Closing, PlanFor, ActedAll, PartialIsDue, MovesToBreakeven, Trails, Expires, BreakevenAt, TrailAt, ClosedAt, TakesPartial, Booked,
         PartialLots, Round6, PartialMove;
    FourInTurn(rules, t, stopped, cut, trailed, bar, index, steps);
  }

  /** One step of a plan: the trade as it is, or with the action carried out. */
  function Stepped(rules: Rules, t: Trade, bar: I.Candle, index: nat, step: (bool, Action)): Trade {
    if step.0 then Acted(rules, t, bar, index, step.1) else t
  }

  lemma FourInTurn(
    rules: Rules, t: Trade, first: Trade, second: Trade, third: Trade, bar: I.Candle, index: nat, steps: seq<(bool, Action)>)
    requires |steps| == 4 && t.exit.None? && first.exit.None? && second.exit.None? && third.exit.None?
    requires first == Stepped(rules, t, bar, index, steps[0]) && second == Stepped(rules, first, bar, index, steps[1])
    requires third == Stepped(rules, second, bar, index, steps[2])
    ensures
      var plan := (if steps[0].0 then [steps[0].1] else []) + (if steps[1].0 then [steps[1].1] else [])
                  + (if steps[2].0 then [steps[2].1] else []) + (if steps[3].0 then [steps[3].1] else []);
      ActedAll(rules, t, bar, index, plan) == Stepped(rules, third, bar, index, steps[3])
  {
    hide ActedAll, Acted;
    var last := (if steps[3].0 then [steps[3].1] else []) + [];
    var fromThird := (if steps[2].0 then [steps[2].1] else []) + last;
    var fromSecond := (if steps[1].0 then [steps[1].1] else []) + fromThird;
    assert (if steps[0].0 then [steps[0].1] else []) + (if steps[1].0 then [steps[1].1] else [])
           + (if steps[2].0 then [steps[2].1] else []) + (if steps[3].0 then [steps[3].1] else [])
           == (if steps[0].0 then [steps[0].1] else []) + fromSecond;
    ActedInTurn(rules, t, bar, index, steps[0].0, steps[0].1, fromSecond);
    ActedInTurn(rules, first, bar, index, steps[1].0, steps[1].1, fromThird);
    ActedInTurn(rules, second, bar, index, steps[2].0, steps[2].1, last);
    ActedInTurn(rules, third, bar, index, steps[3].0, steps[3].1, []);
    NothingMoreToDo(rules, Stepped(rules, third, bar, index, steps[3]), bar, index);
  }

  lemma NothingMoreToDo(rules: Rules, t: Trade, bar: I.Candle, index: nat)
    ensures ActedAll(rules, t, bar, index, []) == t
  {
  }

  /** A partial that is due is taken if it comes to some lots. */
  lemma PartialOnce(rules: Rules, t: Trade, stopped: Trade, bar: I.Candle, index: nat)
    requires stopped == t.(stopLoss := stopped.stopLoss)
    ensures
      var after :=
        if PartialIsDue(rules, t, bar) then Acted(rules, stopped, bar, index, PartialClose(PartialLots(rules.config, t.openLots)))
        else stopped;
      after == if TakesPartial(rules, t, bar) then Banked(rules, stopped, Closing(rules, t)) else stopped
  {
    hide Banked, PartialLots;
  }

  lemma BankedExactly(rules: Rules, t: Trade, stopped: Trade, closing: real)
    requires stopped == t.(stopLoss := stopped.stopLoss)
    ensures
      var after := Banked(rules, stopped, closing);
      && after.bankedPnl == t.bankedPnl + Makes(rules, t, PartialGain(rules, t), closing)
      && after == stopped.(bankedPnl := after.bankedPnl, bankedLots := after.bankedLots, openLots := Round6(t.openLots - closing),
                     partialTaken := true)
  {
    hide Round6;
  }

  /**
   What management makes of a bar that reached neither the stop nor the target. The stop
   moves to the trailing one, else to the break-even one, else not at all; a partial is
   booked at its trigger less slippage; and an expired trade is closed with what is left.
   */
  lemma ManagesExactly(rules: Rules, t: Trade, bar: I.Candle, index: nat)
    requires t.exit.None? && t.openLots > 0.0
    requires t.terms.entry != 0.0 && t.terms.initialStop != 0.0 && t.terms.StopDistance() > 0.0
    ensures
      var after, partial, closing := Managed(rules, t, bar, index), TakesPartial(rules, t, bar), Closing(rules, t);
      var left := if partial then Round6(t.openLots - closing) else t.openLots;
      && after.stopLoss == (if Trails(rules, t, bar) then TrailAt(t, bar)
                            else if MovesToBreakeven(rules, t, bar) then BreakevenAt(t) else t.stopLoss)
      && after.partialTaken == (t.partialTaken || partial)
      && after.bankedPnl == t.bankedPnl
           + (if partial then Makes(rules, t, PartialGain(rules, t), closing) else 0.0)
      && (Expires(rules, t, bar) ==>
            EndsAt(rules, t.(bankedPnl := after.bankedPnl, openLots := left), after, bar, index, bar.close, Voluntary(TimeStop)))
      && (!Expires(rules, t, bar) ==> after.exit.None? && after.openLots == left)
  {
    var after, closing := Managed(rules, t, bar, index), Closing(rules, t);
    ghost var stopped := if MovesToBreakeven(rules, t, bar) then t.(stopLoss := BreakevenAt(t)) else t;
    ghost var cut := if TakesPartial(rules, t, bar) then Banked(rules, stopped, closing) else stopped;
    ghost var trailed := if Trails(rules, t, bar) then cut.(stopLoss := TrailAt(t, bar)) else cut;
    hide *;
    ManagedStepByStep(rules, t, bar, index, stopped, cut, trailed);
    BankedExactly(rules, t, stopped, closing);
    ClosingEnds(rules, trailed, bar, index, bar.close, Voluntary(TimeStop));
    if Expires(rules, t, bar) {
      EndsAlike(rules, trailed, t.(bankedPnl := after.bankedPnl, openLots := trailed.openLots), after, bar, index, bar.close,
                Voluntary(TimeStop));
    }
  }
}
