/**
 Managing open positions: the decision function the live manager and the backtester share,
 and the live manager that carries its decisions out against a broker that may not answer.
 Times are in hours.
 */
module Management {
  import opened Wrappers
  import opened Prices
  import opened Rounding
  import T = Transport

  datatype ExecutionConfig = ExecutionConfig(
    breakevenAtR: real, partialAtR: real, partialFraction: real, trailAfterR: real,
    enableBreakeven: bool, enablePartial: bool, enableTrailing: bool, enableStructureExit: bool,
    maxPositionHours: real)

  /** What the decision reads off an open position. */
  datatype Position = Position(
    direction: Direction, quantity: real, entryPrice: real, stopLoss: Option<real>, openedAt: Option<real>)

  /** The columns of our own record of the trade that management reads. */
  datatype TradeRow = TradeRow(
    actualEntry: Option<real>, plannedEntry: Option<real>, stopLoss: Option<real>, partialTaken: bool)

  datatype CloseReason = StructureInvalidated | TimeStop

  datatype Action = MoveStop(stop: real) | PartialClose(quantity: real) | Close(reason: CloseReason)

  // ---------------------------------------------------------------- the decision

  /** Present and not zero, as a test for truth sees it. */
  predicate Usable(x: Option<real>) { x.Some? && x.value != 0.0 }

  function EntryOf(position: Position, trade: Option<TradeRow>): real {
    if trade.Some? && Usable(trade.value.actualEntry) then trade.value.actualEntry.value
    else if trade.Some? && Usable(trade.value.plannedEntry) then trade.value.plannedEntry.value
    else position.entryPrice
  }

  function PlannedStop(position: Position, trade: Option<TradeRow>): Option<real> {
    if trade.Some? && Usable(trade.value.stopLoss) then trade.value.stopLoss else position.stopLoss
  }

  /** How many R the position is up, or down. */
  function RMultiple(direction: Direction, entry: real, stop: real, price: real): real {
    var risk := Abs(entry - stop);
    if risk <= 0.0 then 0.0 else Gain(direction, entry, price) / risk
  }

  /** The stop is on the protective side of the price by more than the buffer. */
  predicate BehindMarket(direction: Direction, stop: real, price: real, buffer: real) {
    Gain(direction, stop, price) > buffer
  }

  /** Stop b protects strictly more than stop a. */
  predicate Tighter(direction: Direction, a: real, b: real) { Gain(direction, a, b) > 0.0 }

  function When(b: bool, a: Action): seq<Action> { if b then [a] else [] }

  function BreakevenStop(direction: Direction, entry: real, risk: real): real { Ahead(direction, entry, risk * 0.05) }

  predicate BreakevenDue(position: Position, config: ExecutionConfig, entry: real, risk: real, r: real, price: real) {
    && config.enableBreakeven && r >= config.breakevenAtR - R_EPSILON
    && !(position.stopLoss.Some? && Gain(position.direction, entry, position.stopLoss.value) >= 0.0)
    && BehindMarket(position.direction, BreakevenStop(position.direction, entry, risk), price, risk * 0.02)
  }

  function TrailStop(direction: Direction, entry: real, risk: real, r: real): real {
    Ahead(direction, entry, risk * (r - 1.0))
  }

  predicate TrailDue(position: Position, config: ExecutionConfig, entry: real, risk: real, r: real, price: real) {
    && config.enableTrailing && r >= config.trailAfterR - R_EPSILON
    && (position.stopLoss.None? || Tighter(position.direction, position.stopLoss.value, TrailStop(position.direction, entry, risk, r)))
    && BehindMarket(position.direction, TrailStop(position.direction, entry, risk, r), price, risk * 0.02)
  }

  predicate PartialDue(trade: Option<TradeRow>, config: ExecutionConfig, r: real) {
    config.enablePartial && r >= config.partialAtR - R_EPSILON && !(trade.Some? && trade.value.partialTaken)
  }

  function Share(quantity: real, fraction: real): real { quantity * fraction }

  /** The size of the partial close proposed on this many lots. */
  function PartialLots(config: ExecutionConfig, lots: real): real { Round2(Share(lots, config.partialFraction)) }

  function PartialQuantity(position: Position, config: ExecutionConfig): real { PartialLots(config, position.quantity) }

  predicate Expired(position: Position, config: ExecutionConfig, r: real, now: real) {
    position.openedAt.Some? && now - position.openedAt.value >= config.maxPositionHours && r < 0.5
  }

  /** What should be done with one open position, in the order it should be done. */
  function PlanActions(
    position: Position, trade: Option<TradeRow>, price: real, config: ExecutionConfig, invalidated: bool, now: real): seq<Action>
  {
    var entry, planned := EntryOf(position, trade), PlannedStop(position, trade);
    if entry == 0.0 || !Usable(planned) then []
    else
      var risk, r := Abs(entry - planned.value), RMultiple(position.direction, entry, planned.value, price);
      When(BreakevenDue(position, config, entry, risk, r, price), MoveStop(BreakevenStop(position.direction, entry, risk)))
      + When(PartialDue(trade, config, r), PartialClose(PartialQuantity(position, config)))
      + When(TrailDue(position, config, entry, risk, r, price), MoveStop(TrailStop(position.direction, entry, risk, r)))
      + When(config.enableStructureExit && invalidated && r < 1.0, Close(StructureInvalidated))
      + When(Expired(position, config, r, now), Close(TimeStop))
  }

  /** The risk the decision measures R against. */
  function MeasuredRisk(position: Position, trade: Option<TradeRow>): real {
    var planned := PlannedStop(position, trade);
    if planned.Some? then Abs(EntryOf(position, trade) - planned.value) else 0.0
  }

  function PartialsIn(actions: seq<Action>): nat {
    if actions == [] then 0 else PartialsIn(actions[1..]) + (if actions[0].PartialClose? then 1 else 0)
  }

  /**
   Whatever the configuration, every stop proposed is strictly tighter than the one in
   place and more than 0.02 of the measured risk behind the price; at most one partial is
   proposed, and none once one has been recorded.
   */
  lemma ProposalsOnlyProtect(
    position: Position, trade: Option<TradeRow>, price: real, config: ExecutionConfig, invalidated: bool, now: real)
    ensures
      var plan := PlanActions(position, trade, price, config, invalidated, now);
      && (forall a :: a in plan && a.MoveStop? ==>
            && (position.stopLoss.Some? ==> Tighter(position.direction, position.stopLoss.value, a.stop))
            && BehindMarket(position.direction, a.stop, price, MeasuredRisk(position, trade) * 0.02))
      && (forall a :: a in plan && a.PartialClose? ==>
            config.enablePartial && !(trade.Some? && trade.value.partialTaken) && a.quantity == PartialQuantity(position, config))
      && PartialsIn(plan) <= (if trade.Some? && trade.value.partialTaken then 0 else 1)
  {
    hide *;
    var entry, planned := EntryOf(position, trade), PlannedStop(position, trade);
    var plan := PlanActions(position, trade, price, config, invalidated, now);
    NothingIsNoPartial();
    PlanIsItsParts(position, trade, price, config, invalidated, now);
    if plan != [] {
      var risk, r := Abs(entry - planned.value), RMultiple(position.direction, entry, planned.value, price);
      var be := When(BreakevenDue(position, config, entry, risk, r, price), MoveStop(BreakevenStop(position.direction, entry, risk)));
      var partial := When(PartialDue(trade, config, r), PartialClose(PartialQuantity(position, config)));
      var trail := When(TrailDue(position, config, entry, risk, r, price), MoveStop(TrailStop(position.direction, entry, risk, r)));
      var structure := When(config.enableStructureExit && invalidated && r < 1.0, Close(StructureInvalidated));
      var time := When(Expired(position, config, r, now), Close(TimeStop));
      PartialsInConcat(be + partial + trail + structure, time);
      PartialsInConcat(be + partial + trail, structure);
      PartialsInConcat(be + partial, trail);
      PartialsInConcat(be, partial);
      forall b: bool, a: Action {
        WhenUnfolds(b, a);
      }
      DueStopsProtect(position, config, entry, risk, r, price);
      PartialDueUnfolds(trade, config, r);
    }
  }

  lemma WhenUnfolds(b: bool, a: Action)
    ensures When(b, a) == if b then [a] else []
    ensures PartialsIn(When(b, a)) == if b && a.PartialClose? then 1 else 0
  {
  }

  lemma PartialDueUnfolds(trade: Option<TradeRow>, config: ExecutionConfig, r: real)
    ensures PartialDue(trade, config, r) ==> config.enablePartial && !(trade.Some? && trade.value.partialTaken)
  {
  }

  lemma PlanIsItsParts(
    position: Position, trade: Option<TradeRow>, price: real, config: ExecutionConfig, invalidated: bool, now: real)
    ensures
      var plan := PlanActions(position, trade, price, config, invalidated, now);
      var entry, planned := EntryOf(position, trade), PlannedStop(position, trade);
      plan != [] || (entry != 0.0 && Usable(planned)) ==>
        planned.Some?
        && var risk := Abs(entry - planned.value); var r := RMultiple(position.direction, entry, planned.value, price);
           && risk >= 0.0 && MeasuredRisk(position, trade) == risk
           && plan
              == When(BreakevenDue(position, config, entry, risk, r, price), MoveStop(BreakevenStop(position.direction, entry, risk)))
                 + When(PartialDue(trade, config, r), PartialClose(PartialQuantity(position, config)))
                 + When(TrailDue(position, config, entry, risk, r, price), MoveStop(TrailStop(position.direction, entry, risk, r)))
                 + When(config.enableStructureExit && invalidated && r < 1.0, Close(StructureInvalidated))
                 + When(Expired(position, config, r, now), Close(TimeStop))
  {
    hide RMultiple, TrailStop, PartialQuantity, BreakevenDue, TrailDue, PartialDue, Expired, When;
  }

  lemma DueStopsProtect(position: Position, config: ExecutionConfig, entry: real, risk: real, r: real, price: real)
    requires risk >= 0.0
    ensures BreakevenDue(position, config, entry, risk, r, price) ==>
              var stop := BreakevenStop(position.direction, entry, risk);
              && (position.stopLoss.Some? ==> Tighter(position.direction, position.stopLoss.value, stop))
              && BehindMarket(position.direction, stop, price, risk * 0.02)
    ensures TrailDue(position, config, entry, risk, r, price) ==>
              var stop := TrailStop(position.direction, entry, risk, r);
              && (position.stopLoss.Some? ==> Tighter(position.direction, position.stopLoss.value, stop))
              && BehindMarket(position.direction, stop, price, risk * 0.02)
  {
    hide TrailStop;
  }

  lemma {:induction false} PartialsInConcat(a: seq<Action>, b: seq<Action>)
    ensures PartialsIn(a + b) == PartialsIn(a) + PartialsIn(b)
  {
    if a == [] {
      assert a + b == b;
    } else {
      assert (a + b)[1..] == a[1..] + b;
      PartialsInConcat(a[1..], b);
    }
  }

  /** A stop proposed is the break-even one or, if trailing is on, the trailing one. */
  lemma StopsProposed(
    position: Position, trade: Option<TradeRow>, price: real, config: ExecutionConfig, invalidated: bool, now: real, a: Action)
    requires a in PlanActions(position, trade, price, config, invalidated, now) && a.MoveStop?
    ensures PlannedStop(position, trade).Some?
    ensures
      var entry, planned, risk := EntryOf(position, trade), PlannedStop(position, trade).value, MeasuredRisk(position, trade);
      || a.stop == BreakevenStop(position.direction, entry, risk)
      || (config.enableTrailing
          && a.stop == TrailStop(position.direction, entry, risk, RMultiple(position.direction, entry, planned, price)))
  {
    hide RMultiple, BreakevenStop, TrailStop, BehindMarket, Tighter, Expired, PartialDue, PartialQuantity;
  }

  /**
   The prices a position is measured from. The entry is our recorded fill, else our planned
   entry, else the broker's; the stop is the recorded one, else the broker's. A price that is
   missing or zero is passed over.
   */
  ghost predicate MeasuredFrom(position: Position, trade: Option<TradeRow>, entry: real, stop: real) {
    && entry != 0.0 && stop != 0.0
    && (if trade.None? then entry == position.entryPrice && position.stopLoss == Some(stop)
        else
          var row := trade.value;
          && (|| row.actualEntry == Some(entry)
              || (row.actualEntry in {None, Some(0.0)}
                  && (row.plannedEntry == Some(entry) || (row.plannedEntry in {None, Some(0.0)} && entry == position.entryPrice))))
          && (row.stopLoss == Some(stop) || (row.stopLoss in {None, Some(0.0)} && position.stopLoss == Some(stop))))
  }

  /** The price has gained x times the distance between entry and stop; over no distance every gain counts as none. */
  predicate Reached(direction: Direction, entry: real, stop: real, price: real, x: real) {
    var gain := if direction == Buy then price - entry else entry - price;
    var distance := if entry > stop then entry - stop else stop - entry;
    if distance == 0.0 then x <= 0.0 else gain >= x * distance
  }

  lemma RIsReached(direction: Direction, entry: real, stop: real, price: real, x: real)
    ensures RMultiple(direction, entry, stop, price) >= x <==> Reached(direction, entry, stop, price, x)
  {
    if entry != stop {
      QuotientReaches(Gain(direction, entry, price), Abs(entry - stop), x);
    }
  }

  /** Without an entry and a stop to measure from, nothing is done. */
  lemma NothingMeasuredNothingDone(
    position: Position, trade: Option<TradeRow>, price: real, config: ExecutionConfig, invalidated: bool, now: real)
    requires forall entry, stop :: !MeasuredFrom(position, trade, entry, stop)
    ensures PlanActions(position, trade, price, config, invalidated, now) == []
  {
    var entry, planned := EntryOf(position, trade), PlannedStop(position, trade);
    assert planned.Some? ==> !MeasuredFrom(position, trade, entry, planned.value);
  }

  /** When a trailing stop is worth moving: it improves on the one in place and is not through the market. */
  ghost predicate TrailsTo(position: Position, entry: real, stop: real, price: real, to: real) {
    var distance := if entry > stop then entry - stop else stop - entry;
    if position.direction == Buy then
      to == (if distance == 0.0 then entry else price - distance)
      && (position.stopLoss.Some? ==> to > position.stopLoss.value) && to < price - distance * 0.02
    else
      to == (if distance == 0.0 then entry else price + distance)
      && (position.stopLoss.Some? ==> to < position.stopLoss.value) && to > price + distance * 0.02
  }

  /** When a break-even stop is worth placing: the one in place is short of entry, and this one is not through the market. */
  ghost predicate BreaksEvenAt(position: Position, entry: real, stop: real, price: real, to: real) {
    var distance := if entry > stop then entry - stop else stop - entry;
    if position.direction == Buy then
      to == entry + distance / 20.0
      && (position.stopLoss.Some? ==> position.stopLoss.value < entry) && to < price - distance * 0.02
    else
      to == entry - distance / 20.0
      && (position.stopLoss.Some? ==> position.stopLoss.value > entry) && to > price + distance * 0.02
  }

  /**
   The whole plan, in prices and times. With D the distance from entry to stop:
   break-even at 1/20 D past entry, a partial, a trailing stop D behind the price, a close
   when the structure is gone before D was gained, and a close when the position has been
   open for the longest time allowed without gaining half of D; each exactly when its
   trigger is met, and in this order.
   */
  lemma PlanIsExactly(
    position: Position, trade: Option<TradeRow>, price: real, config: ExecutionConfig, invalidated: bool, now: real,
    entry: real, stop: real)
    requires MeasuredFrom(position, trade, entry, stop)
    ensures
      var plan := PlanActions(position, trade, price, config, invalidated, now);
      var distance := if entry > stop then entry - stop else stop - entry;
      var breakeven := Ahead(position.direction, entry, distance / 20.0);
      var trail := if distance == 0.0 then entry else Ahead(position.direction, price, -distance);
      plan
      == (if config.enableBreakeven && Reached(position.direction, entry, stop, price, config.breakevenAtR - 0.000001)
             && BreaksEvenAt(position, entry, stop, price, breakeven)
          then [MoveStop(breakeven)] else [])
         + (if config.enablePartial && Reached(position.direction, entry, stop, price, config.partialAtR - 0.000001)
               && (trade.Some? ==> !trade.value.partialTaken)
            then [PartialClose(PartialQuantity(position, config))] else [])
         + (if config.enableTrailing && Reached(position.direction, entry, stop, price, config.trailAfterR - 0.000001)
               && TrailsTo(position, entry, stop, price, trail)
            then [MoveStop(trail)] else [])
         + (if config.enableStructureExit && invalidated && !Reached(position.direction, entry, stop, price, 1.0)
            then [Close(StructureInvalidated)] else [])
         + (if position.openedAt.Some? && now - position.openedAt.value >= config.maxPositionHours
               && !Reached(position.direction, entry, stop, price, 0.5)
            then [Close(TimeStop)] else [])
  {
    hide *;
    PlanIsItsParts(position, trade, price, config, invalidated, now);
    MeasuredFromIsRead(position, trade, entry, stop);
    TriggersAreReached(position, trade, config, entry, stop, price, now);
    forall b: bool, a: Action {
      WhenUnfolds(b, a);
    }
  }

  /** Which exits are proposed, without the rest of the plan. */
  lemma ClosesExactlyWhen(
    position: Position, trade: Option<TradeRow>, price: real, config: ExecutionConfig, invalidated: bool, now: real,
    entry: real, stop: real)
    requires MeasuredFrom(position, trade, entry, stop) && entry != stop
    ensures
      var plan := PlanActions(position, trade, price, config, invalidated, now);
      var distance := if entry > stop then entry - stop else stop - entry;
      var gain := if position.direction == Buy then price - entry else entry - price;
      && (Close(TimeStop) in plan
          <==> position.openedAt.Some? && now - position.openedAt.value >= config.maxPositionHours && gain < distance / 2.0)
      && (Close(StructureInvalidated) in plan <==> config.enableStructureExit && invalidated && gain < distance)
  {
    HalfAndWhole(position.direction, entry, stop, price);
    hide *;
    PlanIsExactly(position, trade, price, config, invalidated, now, entry, stop);
  }

  lemma HalfAndWhole(direction: Direction, entry: real, stop: real, price: real)
    requires entry != stop
    ensures
      var distance := if entry > stop then entry - stop else stop - entry;
      var gain := if direction == Buy then price - entry else entry - price;
      && (Reached(direction, entry, stop, price, 0.5) <==> gain >= distance / 2.0)
      && (Reached(direction, entry, stop, price, 1.0) <==> gain >= distance)
  {
  }

  lemma MeasuredFromIsRead(position: Position, trade: Option<TradeRow>, entry: real, stop: real)
    requires MeasuredFrom(position, trade, entry, stop)
    ensures EntryOf(position, trade) == entry && PlannedStop(position, trade) == Some(stop) && Usable(PlannedStop(position, trade))
    ensures entry != 0.0
  {
  }

  lemma TriggersAreReached(
    position: Position, trade: Option<TradeRow>, config: ExecutionConfig, entry: real, stop: real, price: real, now: real)
    ensures
      var distance := if entry > stop then entry - stop else stop - entry;
      var breakeven := Ahead(position.direction, entry, distance / 20.0);
      var trail := if distance == 0.0 then entry else Ahead(position.direction, price, -distance);
      var risk := Abs(entry - stop); var r := RMultiple(position.direction, entry, stop, price);
      && BreakevenStop(position.direction, entry, risk) == breakeven && TrailStop(position.direction, entry, risk, r) == trail
      && (BreakevenDue(position, config, entry, risk, r, price)
          <==> config.enableBreakeven && Reached(position.direction, entry, stop, price, config.breakevenAtR - 0.000001)
               && BreaksEvenAt(position, entry, stop, price, breakeven))
      && (TrailDue(position, config, entry, risk, r, price)
          <==> config.enableTrailing && Reached(position.direction, entry, stop, price, config.trailAfterR - 0.000001)
               && TrailsTo(position, entry, stop, price, trail))
      && (PartialDue(trade, config, r)
          <==> config.enablePartial && Reached(position.direction, entry, stop, price, config.partialAtR - 0.000001)
               && (trade.Some? ==> !trade.value.partialTaken))
      && (r < 1.0 <==> !Reached(position.direction, entry, stop, price, 1.0))
      && (Expired(position, config, r, now)
          <==> position.openedAt.Some? && now - position.openedAt.value >= config.maxPositionHours
               && !Reached(position.direction, entry, stop, price, 0.5))
  {
    TrailIsBehindThePrice(position.direction, entry, stop, price);
    forall x: real {
      RIsReached(position.direction, entry, stop, price, x);
    }
    hide RMultiple, TrailStop, Reached;
  }

  lemma TrailIsBehindThePrice(direction: Direction, entry: real, stop: real, price: real)
    ensures TrailStop(direction, entry, Abs(entry - stop), RMultiple(direction, entry, stop, price))
            == if entry == stop then entry else Ahead(direction, price, -Abs(entry - stop))
  {
    if entry != stop {
      TrailingStopIsOneRiskBehind(direction, entry, stop, price);
    }
  }

  /** The size of a partial is a whole number of hundredths of a lot, and no other is nearer to its share. */
  lemma PartialsAreNearestHundredths(position: Position, config: ExecutionConfig, n: int)
    ensures
      var quantity, share := PartialQuantity(position, config), position.quantity * config.partialFraction;
      quantity * 100.0 == (quantity * 100.0).Floor as real && Abs(quantity - share) <= Abs(n as real / 100.0 - share)
  {
    NoHundredthIsNearer(Share(position.quantity, config.partialFraction), n);
    hide Round2;
  }

  /** A trailing stop sits exactly one measured risk behind the price, whatever R has been reached. */
  lemma TrailingStopIsOneRiskBehind(direction: Direction, entry: real, stop: real, price: real)
    requires entry != stop
    ensures
      var risk := Abs(entry - stop);
      Gain(direction, TrailStop(direction, entry, risk, RMultiple(direction, entry, stop, price)), price) == risk
  {
    var risk, r := Abs(entry - stop), RMultiple(direction, entry, stop, price);
    QuotientTimesDivisor(Gain(direction, entry, price), risk);
    assert risk * (r - 1.0) == r * risk - risk;
  }

  /**
   The live manager records the moved stop over the planned one, and R is measured against
   the record: once a break-even stop is recorded, the same price reads twenty times the R
   it was. The backtester measures against the opening stop and does not share this.
   */
  lemma RecordedBreakevenMultipliesRByTwenty(direction: Direction, entry: real, stop: real, price: real)
    requires entry != stop
    ensures RMultiple(direction, entry, BreakevenStop(direction, entry, Abs(entry - stop)), price)
            == 20.0 * RMultiple(direction, entry, stop, price)
  {
    var risk := Abs(entry - stop);
    var gain := Gain(direction, entry, price);
    assert Abs(entry - BreakevenStop(direction, entry, risk)) == risk * 0.05;
    QuotientTimesDivisor(gain, risk);
    assert gain == (gain / risk * 20.0) * (risk * 0.05);
  }

  // ---------------------------------------------------------------- carrying it out

  type Id = string

  /** A position at the broker, with the partial closes that have taken effect on it. */
  datatype Live = Live(position: Position, partials: nat)

  /** Broker truth and our records. */
  datatype Book = Book(positions: map<Id, Live>, trades: map<Id, TradeRow>) {
    function Row(id: Id): Option<TradeRow> { if id in trades then Some(trades[id]) else None }
  }

  datatype Task = Task(id: Id, action: Action)

  /** A quote asked for before a voluntary close: its spread, a refusal, or a reply without a handler. */
  datatype Quote = Spread(spread: real) | NoQuote | BrokenQuote

  /** How one broker write went: what the caller saw, whether it took effect, and the quote it would have asked for. */
  datatype Fate = Fate(outcome: T.Outcome, landed: bool, quote: Quote) {
    predicate Plausible() { landed ==> outcome.Accepted? || outcome.Unknown? || outcome.Raised? }
  }

  /** `Escaped` stands for an exception without a handler: it ends the loop over the actions. */
  datatype Report = Applied | Deferred | Ambiguous | Failed | Skipped | Escaped

  const MAX_EXIT_SPREAD: real := 0.5

  /** Whether the spread is sane enough, against the recorded risk, to close voluntarily. */
  predicate Affordable(row: Option<TradeRow>, quote: Quote) {
    if row.None? then true
    else
      var entry := if Usable(row.value.actualEntry) then row.value.actualEntry else row.value.plannedEntry;
      if !Usable(entry) || !Usable(row.value.stopLoss) then true
      else
        var risk := Abs(entry.value - row.value.stopLoss.value);
        risk <= 0.0 || (quote.Spread? && quote.spread <= risk * MAX_EXIT_SPREAD)
  }

  /** Whether a task's write leaves this process at all. */
  predicate Sends(book: Book, task: Task, quote: Quote) {
    && !(task.action.PartialClose? && task.action.quantity == 0.0)
    && (task.action.Close? ==> Affordable(book.Row(task.id), quote))
  }

  /** What a task comes to, as its caller reports it. */
  function ReportOf(book: Book, task: Task, fate: Fate): Report {
    if task.action.PartialClose? && task.action.quantity == 0.0 then Skipped
    else if !Sends(book, task, fate.quote) then (if fate.quote.BrokenQuote? then Escaped else Deferred)
    else if fate.outcome.Accepted? then Applied
    else if fate.outcome.Unknown? then Ambiguous
    else if fate.outcome.Raised? then Escaped
    else Failed
  }

  /** What the broker does with a write that takes effect. */
  function AtBroker(positions: map<Id, Live>, task: Task): map<Id, Live> {
    if task.id !in positions then positions
    else
      var live := positions[task.id];
      match task.action
      case MoveStop(stop) => positions[task.id := live.(position := live.position.(stopLoss := Some(stop)))]
      case PartialClose(quantity) =>
        if quantity >= live.position.quantity then positions - {task.id}
        else positions[task.id := Live(live.position.(quantity := live.position.quantity - quantity), live.partials + 1)]
      case Close(_) => positions - {task.id}
  }

  /** What the manager writes down. An unknown partial is recorded as taken; a moved stop only when confirmed. */
  function Written(trades: map<Id, TradeRow>, task: Task, report: Report): map<Id, TradeRow> {
    if task.id !in trades then trades
    else if task.action.PartialClose? && (report == Applied || report == Ambiguous) then
      trades[task.id := trades[task.id].(partialTaken := true)]
    else if task.action.MoveStop? && report == Applied then
      trades[task.id := trades[task.id].(stopLoss := Some(task.action.stop))]
    else trades
  }

  function ApplyOne(book: Book, task: Task, fate: Fate): Book {
    Book(if Sends(book, task, fate.quote) && fate.landed then AtBroker(book.positions, task) else book.positions,
         Written(book.trades, task, ReportOf(book, task, fate)))
  }

  /** The record holds an entry (the fill, else the planned one) and a stop, apart from each other. */
  ghost predicate Holds(row: TradeRow, entry: real, stop: real) {
    && entry != 0.0 && stop != 0.0 && entry != stop && row.stopLoss == Some(stop)
    && (row.actualEntry == Some(entry) || (row.actualEntry in {None, Some(0.0)} && row.plannedEntry == Some(entry)))
  }

  /**
   A voluntary close is sent unless the record prices its risk and the spread is unreadable
   or more than half of that risk. A stop move always is, and a partial unless it is of nothing.
   */
  lemma SentExactlyWhen(book: Book, task: Task, quote: Quote)
    ensures task.action.MoveStop? ==> Sends(book, task, quote)
    ensures task.action.PartialClose? ==> (Sends(book, task, quote) <==> task.action.quantity != 0.0)
    ensures task.action.Close? ==>
              (Sends(book, task, quote)
               <==> forall entry, stop :: task.id in book.trades && Holds(book.trades[task.id], entry, stop) ==>
                      quote.Spread? && 2.0 * quote.spread <= (if entry > stop then entry - stop else stop - entry))
  {
    if task.action.Close? && task.id in book.trades {
      var row := book.trades[task.id];
      var entry := if Usable(row.actualEntry) then row.actualEntry else row.plannedEntry;
      if Usable(entry) && Usable(row.stopLoss) && entry != row.stopLoss {
        assert Holds(row, entry.value, row.stopLoss.value);
      }
    }
  }

  /** What each report says: whether anything was sent, and what the answer proved. */
  lemma ReportsMean(book: Book, task: Task, fate: Fate)
    ensures
      var report, sent := ReportOf(book, task, fate), Sends(book, task, fate.quote);
      && (report == Applied <==> sent && fate.outcome.Accepted?)
      && (report == Ambiguous <==> sent && fate.outcome == T.Unknown)
      && (report == Skipped <==> !sent && !task.action.Close?)
      && (report == Deferred <==> !sent && task.action.Close? && !fate.quote.BrokenQuote?)
      && (report == Escaped <==> (sent && fate.outcome == T.Raised) || (!sent && task.action.Close? && fate.quote.BrokenQuote?))
  {
    hide Affordable;
  }

  /**
   What one task leaves: at the broker the write if it took effect; in the record a partial
   once it is known or feared to be taken, a stop once it is known to be moved, and nothing else.
   */
  lemma TaskLeaves(book: Book, task: Task, fate: Fate, id: Id)
    ensures
      var after, sent := ApplyOne(book, task, fate), Sends(book, task, fate.quote);
      && after.trades.Keys == book.trades.Keys
      && (id in book.trades ==>
            after.trades[id] ==
            if id == task.id && sent && task.action.MoveStop? && fate.outcome.Accepted?
            then book.trades[id].(stopLoss := Some(task.action.stop))
            else if id == task.id && sent && task.action.PartialClose? && (fate.outcome.Accepted? || fate.outcome == T.Unknown)
            then book.trades[id].(partialTaken := true)
            else book.trades[id])
      && (id != task.id || !sent || !fate.landed ==>
            (id in after.positions <==> id in book.positions)
            && (id in book.positions ==> after.positions[id] == book.positions[id]))
      && (id == task.id && sent && fate.landed && id in book.positions ==>
            var before := book.positions[id];
            match task.action
            case MoveStop(stop) =>
              id in after.positions && after.positions[id] == before.(position := before.position.(stopLoss := Some(stop)))
            case Close(_) => id !in after.positions
            case PartialClose(quantity) =>
              (id in after.positions <==> quantity < before.position.quantity)
              && (id in after.positions ==>
                    after.positions[id].position == before.position.(quantity := before.position.quantity - quantity)))
  {
    hide Affordable;
  }

  function ApplyAll(book: Book, tasks: seq<Task>, fates: seq<Fate>): Book
    requires |tasks| == |fates|
  {
    if tasks == [] then book
    else
      var n := |tasks| - 1;
      ApplyOne(ApplyAll(book, tasks[..n], fates[..n]), tasks[n], fates[n])
  }

  /** The report on the i-th task, in the book that the tasks before it left. */
  function ReportAt(book: Book, tasks: seq<Task>, fates: seq<Fate>, i: nat): Report
    requires i < |fates| <= |tasks|
  {
    ReportOf(ApplyAll(book, tasks[..i], fates[..i]), tasks[i], fates[i])
  }

  ghost predicate NoneEscaped(book: Book, tasks: seq<Task>, fates: seq<Fate>) {
    && |fates| <= |tasks|
    && (forall f :: f in fates ==> f.Plausible())
    && (forall i :: 0 <= i < |fates| ==> ReportAt(book, tasks, fates, i) != Escaped)
  }

  /** Tasks are carried out in order: all of them, or up to and including the first that escapes. */
  ghost predicate CarriedOut(book: Book, tasks: seq<Task>, fates: seq<Fate>) {
    || (NoneEscaped(book, tasks, fates) && |fates| == |tasks|)
    || (&& 0 < |fates| <= |tasks|
        && NoneEscaped(book, tasks, fates[..|fates| - 1]) && fates[|fates| - 1].Plausible()
        && ReportAt(book, tasks, fates, |fates| - 1) == Escaped)
  }

  /** What the tasks carried out leave. */
  function Outcome(book: Book, tasks: seq<Task>, fates: seq<Fate>): Book
    requires |fates| <= |tasks|
  {
    ApplyAll(book, tasks[..|fates|], fates)
  }

  lemma NothingCarriedOut(book: Book, tasks: seq<Task>)
    ensures NoneEscaped(book, tasks, []) && Outcome(book, tasks, []) == book
  {
  }

  /** One more task carried out. */
  lemma OneMoreCarriedOut(book: Book, tasks: seq<Task>, fates: seq<Fate>, fate: Fate)
    requires NoneEscaped(book, tasks, fates) && |fates| < |tasks| && fate.Plausible()
    ensures
      var n, all := |fates|, fates + [fate];
      && Outcome(book, tasks, all) == ApplyOne(Outcome(book, tasks, fates), tasks[n], fate)
      && ReportAt(book, tasks, all, n) == ReportOf(Outcome(book, tasks, fates), tasks[n], fate)
      && (forall i :: 0 <= i < n ==> ReportAt(book, tasks, all, i) == ReportAt(book, tasks, fates, i))
      && (if ReportAt(book, tasks, all, n) == Escaped then CarriedOut(book, tasks, all) else NoneEscaped(book, tasks, all))
  {
    hide ReportOf, ApplyOne;
    var n, all := |fates|, fates + [fate];
    assert tasks[..n + 1][..n] == tasks[..n] && all[..n] == fates;
    assert forall i :: 0 <= i < n ==> all[..i] == fates[..i];
    assert forall i :: 0 <= i < n ==> ReportAt(book, tasks, all, i) == ReportAt(book, tasks, fates, i);
  }

  /** One attempt at a broker write, whether it took effect if it was sent, and the quote before a close. */
  datatype Try = Try(attempt: T.Attempt, landed: bool, quote: Quote) {
    ghost predicate Plausible() { attempt.Plausible() && (landed ==> T.MayHaveLanded(attempt.wire)) }
  }

  /** How a task's write goes, put to a breaker in this state: not sent, shed, or sent once. */
  function FateOf(config: T.CircuitConfig, gate: T.CircuitState, book: Book, task: Task, t: Try): Fate {
    if !Sends(book, task, t.quote) then Fate(T.Errored, false, t.quote)
    else if T.Allows(config, gate, t.attempt.asked) then Fate(T.Classify(t.attempt.wire, true), t.landed, t.quote)
    else Fate(T.Shed, false, t.quote)
  }

  /** The breaker after a task: a task that sends nothing teaches it nothing. */
  function GateAfter(config: T.CircuitConfig, gate: T.CircuitState, book: Book, task: Task, t: Try): T.CircuitState {
    if Sends(book, task, t.quote) then T.AfterCall(config, gate, T.Call(t.attempt, true)) else gate
  }

  class PositionManager {
    const transport: T.HttpTransport
    var positions: map<Id, Live>    // the broker's side
    var trades: map<Id, TradeRow>   // the repository's side

    ghost predicate Valid()
      reads this, transport, transport.circuit, transport.throttle
    {
      transport.Valid()
    }

    ghost function Books(): Book
      reads this
    {
      Book(positions, trades)
    }

    constructor (transport: T.HttpTransport)
      requires transport.Valid()
      ensures Valid() && this.transport == transport && Books() == Book(map[], map[])
    {
      this.transport := transport;
      positions, trades := map[], map[];
    }

    /** One broker write through the transport: sent at most once. */
    method Write(task: Task, t: Try) returns (fate: Fate)
      requires Valid() && t.Plausible()
      modifies this`positions, transport, transport.circuit, transport.throttle
      ensures Valid() && fate.Plausible() && fate.quote == t.quote
      ensures fate == if T.Allows(transport.circuit.config, old(transport.circuit.State()), t.attempt.asked)
                      then Fate(T.Classify(t.attempt.wire, true), t.landed, t.quote) else Fate(T.Shed, false, t.quote)
      ensures transport.circuit.State()
              == T.AfterCall(transport.circuit.config, old(transport.circuit.State()), T.Call(t.attempt, true))
      ensures positions == if fate.landed then AtBroker(old(positions), task) else old(positions)
    {
      hide AtBroker, T.AfterCall, T.AfterCalls, T.Allows, T.Classify, T.MayHaveLanded, T.Unclassified;
      var world := seq(transport.maxAttempts, _ => t.attempt);
      OneCall(transport.circuit.config, transport.circuit.State(), world);
      T.WhatASentAttemptSays(t.attempt.wire, true);
      var outcome, sent := transport.Request(true, None, world);
      fate := Fate(outcome, sent == 1 && t.landed, t.quote);
      if fate.landed {
        positions := AtBroker(positions, task);
      }
    }

    /**
     Carries the actions out one by one, each sent at most once. A failure the code has a
     handler for is isolated; an exception it has none for ends the loop, and `reports` and
     `fates` with it. `gates` is the breaker before each task and at the end.
     */
    method Apply(tasks: seq<Task>, tries: seq<Try>)
      returns (reports: seq<Report>, fates: seq<Fate>, ghost gates: seq<T.CircuitState>)
      requires Valid() && |tasks| == |tries|
      requires forall i :: 0 <= i < |tries| ==> tries[i].Plausible()
      modifies this, transport, transport.circuit, transport.throttle
      ensures Valid()
      ensures CarriedOut(old(Books()), tasks, fates) && |reports| == |fates| <= |tasks|
      ensures Books() == Outcome(old(Books()), tasks, fates)
      ensures forall i :: 0 <= i < |fates| ==> reports[i] == ReportAt(old(Books()), tasks, fates, i)
      // each task that the record lets through is put to the breaker, and what becomes of it is what the world says
      ensures Attempted(transport.circuit.config, old(transport.circuit.State()), old(Books()), tasks, tries, fates, gates)
    {
      hide *;
      reports, fates, gates := [], [], [transport.circuit.State()];
      NothingAttempted(transport.circuit.config, transport.circuit.State(), Books(), tasks, tries);
      NothingCarriedOut(Books(), tasks);
      while |fates| < |tasks|
        invariant Valid() && |fates| == |reports| <= |tasks|
        invariant NoneEscaped(old(Books()), tasks, fates)
        invariant Books() == Outcome(old(Books()), tasks, fates)
        invariant forall i :: 0 <= i < |fates| ==> reports[i] == ReportAt(old(Books()), tasks, fates, i)
        invariant Attempted(transport.circuit.config, old(transport.circuit.State()), old(Books()), tasks, tries, fates, gates)
        invariant |gates| == |fates| + 1 && gates[|fates|] == transport.circuit.State()
      {
        var n := |fates|;
        var report, fate := ApplyTask(tasks[n], tries[n]);
        OneMoreCarriedOut(old(Books()), tasks, fates, fate);
        OneMoreAttempted(
          transport.circuit.config, old(transport.circuit.State()), old(Books()), tasks, tries, fates, gates, fate,
          transport.circuit.State());
        gates := gates + [transport.circuit.State()];
        reports, fates := reports + [report], fates + [fate];
        if report == Escaped {
          return;
        }
      }
      AllCarriedOut(old(Books()), tasks, fates);
    }

    method ApplyTask(task: Task, t: Try) returns (report: Report, fate: Fate)
      requires Valid() && t.Plausible()
      modifies this, transport, transport.circuit, transport.throttle
      ensures Valid() && fate.Plausible()
      ensures report == ReportOf(old(Books()), task, fate)
      ensures Books() == ApplyOne(old(Books()), task, fate)
      ensures fate == FateOf(transport.circuit.config, old(transport.circuit.State()), old(Books()), task, t)
      ensures transport.circuit.State()
              == GateAfter(transport.circuit.config, old(transport.circuit.State()), old(Books()), task, t)
    {
      hide AtBroker, Affordable, T.Allows, T.AfterCall, T.Classify;
      var row := if task.id in trades then Some(trades[task.id]) else None;
      fate := Fate(T.Errored, false, t.quote);
      if task.action.PartialClose? && task.action.quantity == 0.0 {
        return Skipped, fate;
      }
      if task.action.Close? && !Affordable(row, t.quote) {
        return if t.quote.BrokenQuote? then Escaped else Deferred, fate;
      }
      fate := Write(task, t);
      match fate.outcome {
        case Accepted(_) =>
          report := Applied;
          if task.action.MoveStop? && task.id in trades {
            trades := trades[task.id := trades[task.id].(stopLoss := Some(task.action.stop))];
          } else if task.action.PartialClose? && task.id in trades {
            trades := trades[task.id := trades[task.id].(partialTaken := true)];
          }
        case Unknown =>
          report := Ambiguous;
          if task.action.PartialClose? && task.id in trades {
            trades := trades[task.id := trades[task.id].(partialTaken := true)];
          }
        case Raised =>
          report := Escaped;
        case _ =>
          report := Failed;
      }
    }
  }

  /** Each task in turn met the breaker that the ones before it left. */
  ghost predicate Attempted(
    config: T.CircuitConfig, gate: T.CircuitState, book: Book, tasks: seq<Task>, tries: seq<Try>, fates: seq<Fate>,
    gates: seq<T.CircuitState>)
  {
    && |fates| <= |tasks| == |tries| && |gates| == |fates| + 1 && gates[0] == gate
    && (forall i :: 0 <= i < |fates| ==>
          && fates[i] == FateOf(config, gates[i], ApplyAll(book, tasks[..i], fates[..i]), tasks[i], tries[i])
          && gates[i + 1] == GateAfter(config, gates[i], ApplyAll(book, tasks[..i], fates[..i]), tasks[i], tries[i]))
  }

  lemma NothingAttempted(config: T.CircuitConfig, gate: T.CircuitState, book: Book, tasks: seq<Task>, tries: seq<Try>)
    requires |tasks| == |tries|
    ensures Attempted(config, gate, book, tasks, tries, [], [gate])
  {
  }

  lemma OneMoreAttempted(
    config: T.CircuitConfig, gate: T.CircuitState, book: Book, tasks: seq<Task>, tries: seq<Try>, fates: seq<Fate>,
    gates: seq<T.CircuitState>, fate: Fate, next: T.CircuitState)
    requires Attempted(config, gate, book, tasks, tries, fates, gates) && |fates| < |tasks|
    requires
      var n := |fates|;
      && fate == FateOf(config, gates[n], Outcome(book, tasks, fates), tasks[n], tries[n])
      && next == GateAfter(config, gates[n], Outcome(book, tasks, fates), tasks[n], tries[n])
    ensures Attempted(config, gate, book, tasks, tries, fates + [fate], gates + [next])
  {
    hide FateOf, GateAfter, ApplyAll;
    var all := fates + [fate];
    assert all[..|fates|] == fates[..|fates|];
    assert forall i :: 0 <= i < |fates| ==> all[..i] == fates[..i];
  }

  /** One attempt is one call, and none is none. */
  lemma OneCall(config: T.CircuitConfig, s: T.CircuitState, world: seq<T.Attempt>)
    requires |world| >= 1
    ensures T.AfterCalls(config, s, T.CallsOf(world[..0], true)) == s
    ensures T.AfterCalls(config, s, T.CallsOf(world[..1], true)) == T.AfterCall(config, s, T.Call(world[0], true))
    ensures !T.Allows(config, s, world[0].asked) ==> T.AfterCall(config, s, T.Call(world[0], true)) == s
  {
    hide T.CircuitAfterAnswer;
    assert T.CallsOf(world[..1], true)[..0] == [];
  }

  lemma AllCarriedOut(book: Book, tasks: seq<Task>, fates: seq<Fate>)
    requires NoneEscaped(book, tasks, fates) && |fates| == |tasks|
    ensures CarriedOut(book, tasks, fates)
  {
  }

  // ---------------------------------------------------------------- polls, and runs of them

  /** What a poll sees besides the positions: prices where there are any, and invalidated structures. */
  datatype Observation = Observation(prices: map<Id, real>, invalidated: set<Id>, now: real)

  function TasksFor(book: Book, id: Id, seen: Observation, config: ExecutionConfig): seq<Action> {
    if id in book.positions && id in seen.prices then
      PlanActions(book.positions[id].position, book.Row(id), seen.prices[id], config, id in seen.invalidated, seen.now)
    else []
  }

  function Addressed(id: Id, actions: seq<Action>): (tasks: seq<Task>)
    ensures |tasks| == |actions|
    ensures forall i :: 0 <= i < |actions| ==> tasks[i] == Task(id, actions[i])
  {
    seq(|actions|, i requires 0 <= i < |actions| => Task(id, actions[i]))
  }

  /** Every position's plan, in the broker's order, all decided before any is carried out. */
  function PlanAll(book: Book, order: seq<Id>, seen: Observation, config: ExecutionConfig): seq<Task> {
    if order == [] then []
    else
      var n := |order| - 1;
      PlanAll(book, order[..n], seen, config) + Addressed(order[n], TasksFor(book, order[n], seen, config))
  }

  datatype Event =
    | Poll(order: seq<Id>, seen: Observation, fates: seq<Fate>)
    | Opened(id: Id, live: Live, row: Option<TradeRow>)
    | Adopted(id: Id, orphan: TradeRow)  // a row written later for a position that had none
    | Ended(id: Id)                    // the stop, the target or the operator closed it

  ghost predicate Distinct(order: seq<Id>) { forall i, j :: 0 <= i < j < |order| ==> order[i] != order[j] }

  /** A broker never reuses a position id, and a listing names each position once. */
  ghost predicate Possible(book: Book, e: Event, config: ExecutionConfig) {
    match e
    case Poll(order, seen, fates) => Distinct(order) && CarriedOut(book, PlanAll(book, order, seen, config), fates)
    case Opened(id, live, row) => id !in book.positions && id !in book.trades
    case Adopted(id, orphan) => id in book.positions && id !in book.trades
    case Ended(id) => true
  }

  function After(book: Book, e: Event, config: ExecutionConfig): Book {
    match e
    case Poll(order, seen, fates) =>
      var tasks := PlanAll(book, order, seen, config);
      if |fates| <= |tasks| then Outcome(book, tasks, fates) else book
    case Opened(id, live, row) =>
      Book(book.positions[id := live], if row.Some? then book.trades[id := row.value] else book.trades)
    case Adopted(id, orphan) => book.(trades := book.trades[id := orphan])
    case Ended(id) => book.(positions := book.positions - {id})
  }

  /** The book after some events. */
  function Final(book: Book, events: seq<Event>, config: ExecutionConfig): Book
    decreases |events|
  {
    if events == [] then book
    else After(Final(book, events[..|events| - 1], config), events[|events| - 1], config)
  }

  /** Events that can follow one another. */
  ghost predicate Run(book: Book, events: seq<Event>, config: ExecutionConfig)
    decreases |events|
  {
    events == []
    || (var n := |events| - 1;
        Run(book, events[..n], config) && Possible(Final(book, events[..n], config), events[n], config))
  }

  function ActionsOn(tasks: seq<Task>, id: Id): seq<Action> {
    if tasks == [] then []
    else
      var n := |tasks| - 1;
      ActionsOn(tasks[..n], id) + (if tasks[n].id == id then [tasks[n].action] else [])
  }

  lemma ActionsOnOneMore(tasks: seq<Task>, task: Task, id: Id)
    ensures ActionsOn(tasks + [task], id) == ActionsOn(tasks, id) + (if task.id == id then [task.action] else [])
  {
    assert (tasks + [task])[..|tasks|] == tasks;
  }

  lemma {:induction false} ActionsOnAddressed(tasks: seq<Task>, owner: Id, actions: seq<Action>, id: Id)
    ensures ActionsOn(tasks + Addressed(owner, actions), id) == ActionsOn(tasks, id) + (if owner == id then actions else [])
    decreases |actions|
  {
    hide ActionsOn;
    if actions == [] {
      assert tasks + Addressed(owner, actions) == tasks;
    } else {
      var n := |actions| - 1;
      ActionsOnAddressed(tasks, owner, actions[..n], id);
      ActionsOnOneMore(tasks + Addressed(owner, actions[..n]), Task(owner, actions[n]), id);
      assert tasks + Addressed(owner, actions) == tasks + Addressed(owner, actions[..n]) + [Task(owner, actions[n])];
      assert actions == actions[..n] + [actions[n]];
    }
  }

  /** A poll's tasks on one position are that position's own plan, once. */
  lemma {:induction false} PlanAllKeepsPlansApart(book: Book, order: seq<Id>, seen: Observation, config: ExecutionConfig, id: Id)
    requires Distinct(order)
    ensures ActionsOn(PlanAll(book, order, seen, config), id) == if id in order then TasksFor(book, id, seen, config) else []
  {
    hide TasksFor;
    if order != [] {
      var n := |order| - 1;
      PlanAllKeepsPlansApart(book, order[..n], seen, config, id);
      ActionsOnAddressed(PlanAll(book, order[..n], seen, config), order[n], TasksFor(book, order[n], seen, config), id);
    }
  }

  /** The tasks carried out are a prefix of the planned ones, and so are those on one position. */
  lemma {:induction false} PrefixOfActions(tasks: seq<Task>, k: nat, id: Id)
    requires k <= |tasks|
    ensures PartialsIn(ActionsOn(tasks[..k], id)) <= PartialsIn(ActionsOn(tasks, id))
    ensures forall a :: a in ActionsOn(tasks[..k], id) ==> a in ActionsOn(tasks, id)
    decreases |tasks|
  {
    if k == |tasks| {
      assert tasks[..k] == tasks;
    } else {
      var n := |tasks| - 1;
      PrefixOfActions(tasks[..n], k, id);
      assert tasks[..n][..k] == tasks[..k];
      PartialsInConcat(ActionsOn(tasks[..n], id), if tasks[n].id == id then [tasks[n].action] else []);
    }
  }

  lemma CarriedOutIsPlausible(book: Book, tasks: seq<Task>, fates: seq<Fate>)
    requires CarriedOut(book, tasks, fates)
    ensures |fates| <= |tasks| && forall f :: f in fates ==> f.Plausible()
  {
    if !NoneEscaped(book, tasks, fates) {
      var n := |fates| - 1;
      assert fates == fates[..n] + [fates[n]];
    }
  }

  /** The new stop protects at least as much as the old one, on the same position. */
  ghost predicate NoLooser(a: Position, b: Position) {
    && b.direction == a.direction && b.entryPrice == a.entryPrice
    && (a.stopLoss.Some? ==> b.stopLoss.Some? && Gain(a.direction, a.stopLoss.value, b.stopLoss.value) >= 0.0)
  }

  /** After any carried-out tasks a position's stop is its old one or one of those proposed for it. */
  lemma {:induction false} StopsComeFromTheTasks(book: Book, tasks: seq<Task>, fates: seq<Fate>, id: Id)
    requires |tasks| == |fates| && id in ApplyAll(book, tasks, fates).positions
    ensures id in book.positions
    ensures
      var a, b := book.positions[id].position, ApplyAll(book, tasks, fates).positions[id].position;
      && b.direction == a.direction && b.entryPrice == a.entryPrice
      && (b.stopLoss == a.stopLoss
          || exists action :: action in ActionsOn(tasks, id) && action.MoveStop? && b.stopLoss == Some(action.stop))
  {
    if tasks != [] {
      var n := |tasks| - 1;
      hide ReportOf, Written, Sends;
      StopsComeFromTheTasks(book, tasks[..n], fates[..n], id);
      var mid, end := ApplyAll(book, tasks[..n], fates[..n]), ApplyAll(book, tasks, fates);
      var b := end.positions[id].position;
      if tasks[n].id == id && b.stopLoss != mid.positions[id].position.stopLoss {
        assert tasks[n].action in ActionsOn(tasks, id);
      } else if b.stopLoss != book.positions[id].position.stopLoss {
        var action :| action in ActionsOn(tasks[..n], id) && action.MoveStop? && b.stopLoss == Some(action.stop);
        assert action in ActionsOn(tasks, id);
      }
    }
  }

  /**
   From poll to poll no stop is loosened: not when break-even and trailing fire from one
   snapshot, not whichever of the writes fail or have an unknown outcome, and not when one
   escapes and the rest are never tried.
   */
  lemma PollNeverLoosensAStop(book: Book, e: Event, config: ExecutionConfig, id: Id)
    requires e.Poll? && Possible(book, e, config) && id in After(book, e, config).positions
    ensures id in book.positions && NoLooser(book.positions[id].position, After(book, e, config).positions[id].position)
  {
    hide PlanActions, ApplyAll, PlanAll, ActionsOn, CarriedOut, PartialsIn;
    var tasks := PlanAll(book, e.order, e.seen, config);
    CarriedOutIsPlausible(book, tasks, e.fates);
    StopsComeFromTheTasks(book, tasks[..|e.fates|], e.fates, id);
    PrefixOfActions(tasks, |e.fates|, id);
    PlanAllKeepsPlansApart(book, e.order, e.seen, config, id);
    if id in e.seen.prices {
      ProposalsOnlyProtect(
        book.positions[id].position, book.Row(id), e.seen.prices[id], config, id in e.seen.invalidated, e.seen.now);
    }
  }

  // ---------------------------------------------------------------- one partial, and how it fails

  /** Partial closes that took effect are told apart by whether a record of them was made. */
  datatype Trace = Recorded | Slipped

  /** One if this is a partial close of `id` that took effect and left that trace. */
  function Cut(book: Book, task: Task, fate: Fate, id: Id, trace: Trace): nat {
    if task.id == id && task.action.PartialClose? && Sends(book, task, fate.quote) && fate.landed
       && trace == (if ReportOf(book, task, fate) == Escaped then Slipped else Recorded)
    then 1 else 0
  }

  function CutsIn(book: Book, tasks: seq<Task>, fates: seq<Fate>, id: Id, trace: Trace): nat
    requires |tasks| == |fates|
  {
    if tasks == [] then 0
    else
      var n := |tasks| - 1;
      CutsIn(book, tasks[..n], fates[..n], id, trace)
      + Cut(ApplyAll(book, tasks[..n], fates[..n]), tasks[n], fates[n], id, trace)
  }

  function CutsAt(book: Book, e: Event, config: ExecutionConfig, id: Id, trace: Trace): nat {
    if !e.Poll? then 0
    else
      var tasks := PlanAll(book, e.order, e.seen, config);
      if |e.fates| <= |tasks| then CutsIn(book, tasks[..|e.fates|], e.fates, id, trace) else 0
  }

  /** Partial closes of one position, over some events, that took effect and left that trace. */
  function Cuts(book: Book, events: seq<Event>, config: ExecutionConfig, id: Id, trace: Trace): nat
    decreases |events|
  {
    if events == [] then 0
    else
      var n := |events| - 1;
      Cuts(book, events[..n], config, id, trace) + CutsAt(Final(book, events[..n], config), events[n], config, id, trace)
  }

  /** A position that is open and has a row of ours. */
  predicate Tracked(book: Book, id: Id) { id in book.positions && id in book.trades }

  /** Partials taken, plus the one still allowed. */
  function Room(book: Book, id: Id): int
    requires Tracked(book, id)
  {
    book.positions[id].partials + (if book.trades[id].partialTaken then 0 else 1)
  }

  /** How a tracked position's partials and record move while `slipped` and `recorded` partials take effect. */
  ghost predicate Accounted(a: Book, b: Book, slipped: nat, recorded: nat, id: Id)
    requires Tracked(a, id) && Tracked(b, id)
  {
    && b.positions[id].partials == a.positions[id].partials + slipped + recorded
    && Room(b, id) <= Room(a, id) + slipped
    && (!b.trades[id].partialTaken ==> recorded == 0)
    && (a.trades[id].partialTaken ==> slipped == recorded == 0 && b.trades[id].partialTaken)
  }

  /** One task: a partial close is the only kind that takes room, and only a slip takes it off the record. */
  lemma TaskSpendsTheRoom(book: Book, task: Task, fate: Fate, id: Id)
    requires fate.Plausible() && id in book.trades && id in ApplyOne(book, task, fate).positions
    requires task.id == id && task.action.PartialClose? ==> !book.trades[id].partialTaken
    ensures
      var end := ApplyOne(book, task, fate);
      var slipped, recorded := Cut(book, task, fate, id, Slipped), Cut(book, task, fate, id, Recorded);
      && Tracked(book, id) && Tracked(end, id) && Accounted(book, end, slipped, recorded, id)
      && slipped <= 1 && (slipped > 0 ==> !end.trades[id].partialTaken)
      && (!(task.id == id && task.action.PartialClose?) ==>
            slipped == recorded == 0 && end.trades[id].partialTaken == book.trades[id].partialTaken)
  {
    hide Affordable;
  }

  lemma LastTaskOfMany(book: Book, tasks: seq<Task>, fates: seq<Fate>, id: Id)
    requires |tasks| == |fates| > 0
    ensures
      var n := |tasks| - 1;
      var mid := ApplyAll(book, tasks[..n], fates[..n]);
      && ApplyAll(book, tasks, fates) == ApplyOne(mid, tasks[n], fates[n])
      && (forall trace ::
            CutsIn(book, tasks, fates, id, trace)
            == CutsIn(book, tasks[..n], fates[..n], id, trace) + Cut(mid, tasks[n], fates[n], id, trace))
      && PartialsIn(ActionsOn(tasks, id))
         == PartialsIn(ActionsOn(tasks[..n], id)) + (if tasks[n].id == id && tasks[n].action.PartialClose? then 1 else 0)
  {
    hide ApplyOne, Cut;
    var n := |tasks| - 1;
    PartialsInConcat(ActionsOn(tasks[..n], id), if tasks[n].id == id then [tasks[n].action] else []);
  }

  lemma {:induction false} TasksSpendTheRoom(book: Book, tasks: seq<Task>, fates: seq<Fate>, id: Id)
    requires |tasks| == |fates| && (forall f :: f in fates ==> f.Plausible())
    requires id in book.trades && id in ApplyAll(book, tasks, fates).positions
    requires PartialsIn(ActionsOn(tasks, id)) <= (if book.trades[id].partialTaken then 0 else 1)
    ensures
      var end := ApplyAll(book, tasks, fates);
      var slipped, recorded := CutsIn(book, tasks, fates, id, Slipped), CutsIn(book, tasks, fates, id, Recorded);
      && Tracked(book, id) && Tracked(end, id) && Accounted(book, end, slipped, recorded, id)
      && slipped <= PartialsIn(ActionsOn(tasks, id)) && (slipped > 0 ==> !end.trades[id].partialTaken)
      && (PartialsIn(ActionsOn(tasks, id)) == 0 ==>
            slipped == recorded == 0 && end.trades[id].partialTaken == book.trades[id].partialTaken)
  {
    if tasks == [] {
      hide Outcome;
    } else {
      var n := |tasks| - 1;
      var mid := ApplyAll(book, tasks[..n], fates[..n]);
      LastTaskOfMany(book, tasks, fates, id);
      hide Cut, PartialsIn, Accounted, ApplyAll, CutsIn, ActionsOn, Tracked;
      TasksKeepRows(book, tasks[..n], fates[..n], id);
      OneTaskKeepsThePosition(mid, tasks[n], fates[n], id);
      hide ApplyOne;
      TasksSpendTheRoom(book, tasks[..n], fates[..n], id);
      TaskSpendsTheRoom(mid, tasks[n], fates[n], id);
      AccountsAdd(book, mid, ApplyAll(book, tasks, fates),
                  CutsIn(book, tasks[..n], fates[..n], id, Slipped), CutsIn(book, tasks[..n], fates[..n], id, Recorded),
                  Cut(mid, tasks[n], fates[n], id, Slipped), Cut(mid, tasks[n], fates[n], id, Recorded), id);
    }
  }

  lemma AccountsAdd(a: Book, b: Book, c: Book, slipped: nat, recorded: nat, more: nat, moreRecorded: nat, id: Id)
    requires Tracked(a, id) && Tracked(b, id) && Tracked(c, id)
    requires Accounted(a, b, slipped, recorded, id) && Accounted(b, c, more, moreRecorded, id)
    ensures Accounted(a, c, slipped + more, recorded + moreRecorded, id)
  {
  }

  lemma OneTaskKeepsThePosition(book: Book, task: Task, fate: Fate, id: Id)
    ensures id in ApplyOne(book, task, fate).positions ==> id in book.positions
  {
    hide ReportOf, Sends, Written;
  }

  lemma NothingIsNoPartial()
    ensures PartialsIn([]) == 0
  {
  }

  lemma StepSpendsTheRoom(book: Book, e: Event, config: ExecutionConfig, id: Id)
    requires Possible(book, e, config) && id in book.trades && id in After(book, e, config).positions
    ensures Tracked(book, id) && Tracked(After(book, e, config), id)
    ensures Accounted(
              book, After(book, e, config), CutsAt(book, e, config, id, Slipped), CutsAt(book, e, config, id, Recorded), id)
    ensures CutsAt(book, e, config, id, Slipped) <= 1
    ensures CutsAt(book, e, config, id, Slipped) > 0 ==> !After(book, e, config).trades[id].partialTaken
    ensures NoLooser(book.positions[id].position, After(book, e, config).positions[id].position)
  {
    if e.Poll? {
      hide PlanActions, ApplyAll, PlanAll, ActionsOn, PartialsIn, CarriedOut, CutsIn, Accounted;
      var tasks := PlanAll(book, e.order, e.seen, config);
      PollNeverLoosensAStop(book, e, config, id);
      PlanAllKeepsPlansApart(book, e.order, e.seen, config, id);
      NothingIsNoPartial();
      if id in e.order && id in e.seen.prices {
        ProposalsOnlyProtect(
          book.positions[id].position, book.Row(id), e.seen.prices[id], config, id in e.seen.invalidated, e.seen.now);
      }
      CarriedOutIsPlausible(book, tasks, e.fates);
      PrefixOfActions(tasks, |e.fates|, id);
      TasksSpendTheRoom(book, tasks[..|e.fates|], e.fates, id);
    }
  }

  /**
   Over any run of polls, openings, adoptions and endings, whatever becomes of each write, a
   tracked position still open at the end has taken exactly the partials that slipped and
   those that are on record: of these at most one, none if a record was there to begin with
   or is still not there, and then none slipped either. Its stop has never been loosened.
   */
  lemma {:induction false} TrackedPositionsAreManagedSafely(book: Book, events: seq<Event>, config: ExecutionConfig, id: Id)
    requires Run(book, events, config) && id in book.trades && id in Final(book, events, config).positions
    ensures Tracked(book, id) && Tracked(Final(book, events, config), id)
    ensures
      var end := Final(book, events, config);
      var slipped, recorded := Cuts(book, events, config, id, Slipped), Cuts(book, events, config, id, Recorded);
      && end.positions[id].partials == book.positions[id].partials + slipped + recorded
      && recorded <= (if !book.trades[id].partialTaken && end.trades[id].partialTaken then 1 else 0)
      && (book.trades[id].partialTaken ==> slipped == 0 && end.trades[id].partialTaken)
    ensures NoLooser(book.positions[id].position, Final(book, events, config).positions[id].position)
    decreases |events|
  {
    if events != [] {
      var n := |events| - 1;
      var mid := Final(book, events[..n], config);
      RowsAreKept(book, events[..n], config, id);
      hide Possible, After, CutsAt;
      StepSpendsTheRoom(mid, events[n], config, id);
      TrackedPositionsAreManagedSafely(book, events[..n], config, id);
    }
  }

  lemma {:induction false} TasksKeepRows(book: Book, tasks: seq<Task>, fates: seq<Fate>, id: Id)
    requires |tasks| == |fates| && id in book.trades
    ensures id in ApplyAll(book, tasks, fates).trades
    ensures book.trades[id].partialTaken ==> ApplyAll(book, tasks, fates).trades[id].partialTaken
  {
    if tasks != [] {
      hide ReportOf, AtBroker, Sends;
      TasksKeepRows(book, tasks[..|tasks| - 1], fates[..|tasks| - 1], id);
    }
  }

  /** A row stays, and so does the record of a partial in it. */
  lemma {:induction false} RowsAreKept(book: Book, events: seq<Event>, config: ExecutionConfig, id: Id)
    requires Run(book, events, config) && id in book.trades
    ensures id in Final(book, events, config).trades
    ensures book.trades[id].partialTaken ==> Final(book, events, config).trades[id].partialTaken
    decreases |events|
  {
    if events != [] {
      hide ApplyAll, PlanAll, CarriedOut;
      var n := |events| - 1;
      var mid, e := Final(book, events[..n], config), events[n];
      RowsAreKept(book, events[..n], config, id);
      if e.Poll? {
        var tasks := PlanAll(mid, e.order, e.seen, config);
        CarriedOutIsPlausible(mid, tasks, e.fates);
        TasksKeepRows(mid, tasks[..|e.fates|], e.fates, id);
      }
    }
  }

  /** A partial would be proposed at some price, and would leave the position open. */
  predicate Sliceable(book: Book, config: ExecutionConfig, id: Id)
    requires Tracked(book, id)
  {
    var position, row := book.positions[id].position, book.Row(id);
    && config.enablePartial && EntryOf(position, row) != 0.0 && Usable(PlannedStop(position, row))
    && MeasuredRisk(position, row) > 0.0
    && PartialQuantity(position, config) != 0.0 && PartialQuantity(position, config) < position.quantity
  }

  /** A partial close is accepted and takes effect; nothing else does. */
  function OnlyPartial(task: Task): Fate {
    if task.action.PartialClose? then Fate(T.Accepted(false), true, NoQuote) else Fate(T.Errored, false, NoQuote)
  }

  function OnlyPartials(tasks: seq<Task>): (fates: seq<Fate>)
    ensures |fates| == |tasks| && forall i :: 0 <= i < |tasks| ==> fates[i] == OnlyPartial(tasks[i])
  {
    seq(|tasks|, i requires 0 <= i < |tasks| => OnlyPartial(tasks[i]))
  }

  /** A poll that finds the position at its partial's trigger, where it cannot have expired. */
  function AtTheTrigger(book: Book, config: ExecutionConfig, id: Id): Observation
    requires Tracked(book, id)
  {
    var position, row := book.positions[id].position, book.Row(id);
    var reached := MeasuredRisk(position, row) * Max(config.partialAtR, 0.5);
    Observation(map[id := Ahead(position.direction, EntryOf(position, row), reached)], {}, 0.0)
  }

  function SlicingPoll(book: Book, config: ExecutionConfig, id: Id): Event
    requires Tracked(book, id)
  {
    var seen := AtTheTrigger(book, config, id);
    Poll([id], seen, OnlyPartials(PlanAll(book, [id], seen, config)))
  }

  /** A task that only partial closes can go through with. */
  predicate Gentle(task: Task, id: Id, quantity: real) {
    && task.id == id && !task.action.Close?
    && (task.action.PartialClose? ==> task.action.quantity != 0.0 && task.action.quantity < quantity)
  }

  lemma OnlyPartialsLandOnce(book: Book, task: Task, fate: Fate, id: Id)
    requires id in book.positions && Gentle(task, id, book.positions[id].position.quantity) && fate == OnlyPartial(task)
    ensures
      var end := ApplyOne(book, task, fate);
      && ReportOf(book, task, fate) != Escaped && Cut(book, task, fate, id, Slipped) == 0 && id in end.positions
      && (if task.action.PartialClose? then end.positions[id].partials == book.positions[id].partials + 1
          else end.positions[id] == book.positions[id])
  {
    hide Affordable, Written;
  }

  lemma NoneEscapedGrows(book: Book, tasks: seq<Task>, fates: seq<Fate>)
    requires 0 < |tasks| == |fates| && fates[|fates| - 1].Plausible()
    requires NoneEscaped(book, tasks[..|tasks| - 1], fates[..|tasks| - 1])
    requires ReportAt(book, tasks, fates, |fates| - 1) != Escaped
    ensures NoneEscaped(book, tasks, fates)
  {
    hide ReportOf, ApplyAll;
    var n := |tasks| - 1;
    assert fates == fates[..n] + [fates[n]];
    assert forall i :: 0 <= i < n ==> ReportAt(book, tasks, fates, i) == ReportAt(book, tasks[..n], fates[..n], i) by {
      assert forall i :: 0 <= i < n ==> tasks[..n][..i] == tasks[..i] && fates[..n][..i] == fates[..i];
    }
  }

  lemma {:induction false} OnlyPartialsLand(book: Book, tasks: seq<Task>, id: Id)
    requires id in book.positions && PartialsIn(ActionsOn(tasks, id)) <= 1
    requires forall task :: task in tasks ==> Gentle(task, id, book.positions[id].position.quantity)
    ensures
      var fates := OnlyPartials(tasks);
      var end := ApplyAll(book, tasks, fates);
      && NoneEscaped(book, tasks, fates) && CutsIn(book, tasks, fates, id, Slipped) == 0
      && id in end.positions
      && end.positions[id].partials == book.positions[id].partials + PartialsIn(ActionsOn(tasks, id))
      && (PartialsIn(ActionsOn(tasks, id)) == 0 ==> end.positions[id] == book.positions[id])
  {
    if tasks != [] {
      var n := |tasks| - 1;
      var fates := OnlyPartials(tasks);
      assert fates[..n] == OnlyPartials(tasks[..n]);
      assert tasks[n] in tasks && tasks[n].id == id;
      PartialsInConcat(ActionsOn(tasks[..n], id), [tasks[n].action]);
      assert PartialsIn([tasks[n].action]) == if tasks[n].action.PartialClose? then 1 else 0;
      assert ActionsOn(tasks, id) == ActionsOn(tasks[..n], id) + [tasks[n].action];
      hide PartialsIn, ActionsOn, ApplyOne, ReportOf, NoneEscaped, Cut;
      OnlyPartialsLand(book, tasks[..n], id);
      OnlyPartialsLandOnce(ApplyAll(book, tasks[..n], fates[..n]), tasks[n], fates[n], id);
      NoneEscapedGrows(book, tasks, fates);
    }
  }

  /** At its trigger a sliceable position without a record on it is sliced once, whatever else is due there. */
  lemma TriggerSlices(book: Book, config: ExecutionConfig, id: Id)
    requires Tracked(book, id) && Sliceable(book, config, id) && !book.trades[id].partialTaken
    ensures
      var e := SlicingPoll(book, config, id);
      var end := After(book, e, config);
      && Possible(book, e, config) && CutsAt(book, e, config, id, Slipped) == 0
      && id in end.positions && end.positions[id].partials == book.positions[id].partials + 1
  {
    hide ApplyAll, CutsIn, NoneEscaped, PlanActions, PlanAll, ActionsOn, PartialsIn;
    var e, seen := SlicingPoll(book, config, id), AtTheTrigger(book, config, id);
    var tasks, plan := PlanAll(book, [id], seen, config), TasksFor(book, id, seen, config);
    OnePositionPlan(book, id, seen, config);
    PlanAllKeepsPlansApart(book, [id], seen, config, id);
    PlanAtTheTrigger(book.positions[id].position, book.Row(id), config, seen.prices[id]);
    OnlyPartialsLand(book, tasks, id);
    assert tasks[..|e.fates|] == tasks;
  }

  lemma OnePositionPlan(book: Book, id: Id, seen: Observation, config: ExecutionConfig)
    ensures PlanAll(book, [id], seen, config) == Addressed(id, TasksFor(book, id, seen, config))
  {
    hide TasksFor;
    assert PlanAll(book, [], seen, config) == [];
    assert [id][..0] == [];
  }

  lemma PlanAtTheTrigger(position: Position, row: Option<TradeRow>, config: ExecutionConfig, price: real)
    requires config.enablePartial && row.Some? && !row.value.partialTaken
    requires EntryOf(position, row) != 0.0 && Usable(PlannedStop(position, row)) && MeasuredRisk(position, row) > 0.0
    requires price == Ahead(position.direction, EntryOf(position, row), MeasuredRisk(position, row) * Max(config.partialAtR, 0.5))
    ensures
      var plan := PlanActions(position, row, price, config, false, 0.0);
      && PartialsIn(plan) == 1
      && forall a :: a in plan ==> !a.Close? && (a.PartialClose? ==> a.quantity == PartialQuantity(position, config))
  {
    hide RMultiple, TrailStop, BreakevenStop, BreakevenDue, TrailDue, PartialQuantity, When, PartialsIn;
    var entry, risk := EntryOf(position, row), MeasuredRisk(position, row);
    var planned, reached := PlannedStop(position, row).value, Max(config.partialAtR, 0.5);
    var r := RMultiple(position.direction, entry, planned, price);
    assert risk == Abs(entry - planned);
    assert r == reached by {
      RAtAPrice(position.direction, entry, planned, price, risk, reached);
    }
    var be := When(BreakevenDue(position, config, entry, risk, r, price), MoveStop(BreakevenStop(position.direction, entry, risk)));
    var partial := When(PartialDue(row, config, r), PartialClose(PartialQuantity(position, config)));
    var trail := When(TrailDue(position, config, entry, risk, r, price), MoveStop(TrailStop(position.direction, entry, risk, r)));
    forall b: bool, a: Action {
      WhenUnfolds(b, a);
    }
    PartialsInConcat(be + partial, trail);
    PartialsInConcat(be, partial);
    assert PlanActions(position, row, price, config, false, 0.0) == be + partial + trail;
  }

  lemma RAtAPrice(direction: Direction, entry: real, stop: real, price: real, risk: real, r: real)
    requires risk == Abs(entry - stop) > 0.0 && price == Ahead(direction, entry, risk * r)
    ensures RMultiple(direction, entry, stop, price) == r
  {
    assert Gain(direction, entry, price) == risk * r;
    ProductOverFactor(risk, r);
  }

  /**
   The promise of one partial, exactly. After any run of a position that was tracked all
   along and could still be sliced, no continuation without a further slip takes it past one
   partial if and only if no partial has slipped, or one has, and the partial on record since
   never took effect.
   */
  lemma OnePartialExactlyWhen(book: Book, events: seq<Event>, config: ExecutionConfig, id: Id)
    requires Run(book, events, config) && Tracked(book, id) && id in Final(book, events, config).positions
    requires Tracked(Final(book, events, config), id) && Sliceable(Final(book, events, config), config, id)
    ensures
      var before, mid := book.positions[id].partials, Final(book, events, config);
      var slipped, recorded := Cuts(book, events, config, id, Slipped), Cuts(book, events, config, id, Recorded);
      (forall more ::
         Run(mid, more, config) && Cuts(mid, more, config, id, Slipped) == 0 && id in Final(mid, more, config).positions ==>
           Final(mid, more, config).positions[id].partials <= before + 1)
      <==> slipped == 0 || (slipped == 1 && recorded == 0 && mid.trades[id].partialTaken)
  {
    hide After, Possible, CutsAt, Sliceable, SlicingPoll;
    var before, mid := book.positions[id].partials, Final(book, events, config);
    TrackedPositionsAreManagedSafely(book, events, config, id);
    if Room(mid, id) <= before + 1 {
      forall more |
        Run(mid, more, config) && Cuts(mid, more, config, id, Slipped) == 0 && id in Final(mid, more, config).positions
        ensures Final(mid, more, config).positions[id].partials <= before + 1
      {
        TrackedPositionsAreManagedSafely(mid, more, config, id);
      }
    } else if mid.trades[id].partialTaken {
      NoEvents(mid, config, id);
      assert Final(mid, [], config).positions[id].partials > before + 1;
    } else {
      var e := SlicingPoll(mid, config, id);
      TriggerSlices(mid, config, id);
      OneEvent(mid, e, config, id);
    }
  }

  lemma NoEvents(book: Book, config: ExecutionConfig, id: Id)
    ensures Run(book, [], config) && Final(book, [], config) == book && Cuts(book, [], config, id, Slipped) == 0
  {
  }

  lemma OneEvent(book: Book, e: Event, config: ExecutionConfig, id: Id)
    requires Possible(book, e, config)
    ensures Run(book, [e], config) && Final(book, [e], config) == After(book, e, config)
    ensures Cuts(book, [e], config, id, Slipped) == CutsAt(book, e, config, id, Slipped)
  {
    hide After, Possible, CutsAt;
    assert [e][..0] == [];
    assert Final(book, [], config) == book;
  }

  /** A poll in which the partial slips always breaks the promise: it leaves the row without a record. */
  lemma ASlipAlwaysAllowsAnother(book: Book, e: Event, config: ExecutionConfig, id: Id)
    requires Possible(book, e, config) && Tracked(book, id) && Tracked(After(book, e, config), id)
    requires CutsAt(book, e, config, id, Slipped) > 0 && Sliceable(After(book, e, config), config, id)
    ensures
      var next := SlicingPoll(After(book, e, config), config, id);
      && Run(book, [e, next], config) && id in Final(book, [e, next], config).positions
      && Final(book, [e, next], config).positions[id].partials == book.positions[id].partials + 2
  {
    hide After, Possible, Sliceable, SlicingPoll, CutsAt;
    var next := SlicingPoll(After(book, e, config), config, id);
    OneEvent(book, e, config, id);
    TrackedPositionsAreManagedSafely(book, [e], config, id);
    StepSpendsTheRoom(book, e, config, id);
    TriggerSlices(After(book, e, config), config, id);
    assert [e, next][..1] == [e];
  }

  /**
   Two polls slice the same position twice: without a row, because the partial cannot be
   recorded anywhere; with one, because the reply to the first partial had no handler.
   */
  lemma TwoPollsSliceTwice(tracked: bool)
    ensures exists book: Book, e1: Event, e2: Event, config: ExecutionConfig, id: Id ::
              && e1.Poll? && e2.Poll? && id in book.positions && (id in book.trades <==> tracked)
              && Possible(book, e1, config) && Possible(After(book, e1, config), e2, config)
              && id in After(After(book, e1, config), e2, config).positions
              && After(After(book, e1, config), e2, config).positions[id].partials == book.positions[id].partials + 2
  {
    hide Possible, After;
    var id := "P";
    var row := TradeRow(None, Some(1.0), Some(0.9), false);
    var trades := if tracked then map[id := row] else map[];
    var fate := Fate(if tracked then T.Raised else T.Accepted(false), true, NoQuote);
    var e := Poll([id], Observation(map[id := 1.1], {}, 0.0), [fate]);
    var book := SliceBook(1.0, 0, trades);
    OnePartialSlices(1.0, 0.5, 0, trades, fate);
    OnePartialSlices(0.5, 0.25, 1, trades, fate);
    assert id in book.positions && After(book, e, SLICING) == SliceBook(0.5, 1, trades);
  }

  const SLICING := ExecutionConfig(1.0, 0.75, 0.5, 2.0, false, true, false, false, 48.0)

  function SliceBook(quantity: real, partials: nat, trades: map<Id, TradeRow>): Book {
    Book(map["P" := Live(Position(Buy, quantity, 1.0, Some(0.9), None), partials)], trades)
  }

  lemma OnePartialSlices(quantity: real, half: real, partials: nat, trades: map<Id, TradeRow>, fate: Fate)
    requires (quantity == 1.0 && half == 0.5) || (quantity == 0.5 && half == 0.25)
    requires (trades == map[] && fate == Fate(T.Accepted(false), true, NoQuote))
             || (trades == map["P" := TradeRow(None, Some(1.0), Some(0.9), false)] && fate == Fate(T.Raised, true, NoQuote))
    ensures
      var book := SliceBook(quantity, partials, trades);
      var e := Poll(["P"], Observation(map["P" := 1.1], {}, 0.0), [fate]);
      Possible(book, e, SLICING) && After(book, e, SLICING) == SliceBook(half, partials + 1, trades)
  {
    var book, seen := SliceBook(quantity, partials, trades), Observation(map["P" := 1.1], {}, 0.0);
    var task := Task("P", PartialClose(half));
    OnePartialIsPlanned(quantity, half, book.Row("P"));
    OnePositionPlan(book, "P", seen, SLICING);
    SliceTakesEffect(quantity, half, partials, trades, fate);
    hide PlanActions, PlanAll, Outcome, CarriedOut, ApplyOne;
    assert PlanAll(book, ["P"], seen, SLICING) == [task];
    OneTask(book, task, fate);
  }

  lemma SliceTakesEffect(quantity: real, half: real, partials: nat, trades: map<Id, TradeRow>, fate: Fate)
    requires quantity - half == half > 0.0 && fate.landed
    requires (trades == map[] && fate.outcome.Accepted?) || (trades.Keys == {"P"} && fate.outcome.Raised?)
    ensures ApplyOne(SliceBook(quantity, partials, trades), Task("P", PartialClose(half)), fate)
            == SliceBook(half, partials + 1, trades)
  {
    var end := ApplyOne(SliceBook(quantity, partials, trades), Task("P", PartialClose(half)), fate);
    assert end.positions == SliceBook(half, partials + 1, trades).positions;
  }

  lemma OneTask(book: Book, task: Task, fate: Fate)
    requires fate.Plausible()
    ensures CarriedOut(book, [task], [fate]) && Outcome(book, [task], [fate]) == ApplyOne(book, task, fate)
  {
    hide ReportOf, ApplyOne;
    NothingCarriedOut(book, [task]);
    OneMoreCarriedOut(book, [task], [], fate);
    assert [] + [fate] == [fate];
    assert Outcome(book, [task], []) == book;
  }

  lemma OnePartialIsPlanned(quantity: real, half: real, row: Option<TradeRow>)
    requires (quantity == 1.0 && half == 0.5) || (quantity == 0.5 && half == 0.25)
    requires row.None? || row == Some(TradeRow(None, Some(1.0), Some(0.9), false))
    ensures PlanActions(Position(Buy, quantity, 1.0, Some(0.9), None), row, 1.1, SLICING, false, 0.0) == [PartialClose(half)]
  {
    assert PartialQuantity(Position(Buy, quantity, 1.0, Some(0.9), None), SLICING) == half by {
      NearestOfAnInteger(quantity * 0.5 * 100.0, if quantity == 1.0 then 50 else 25);
    }
    hide PartialQuantity;
    assert RMultiple(Buy, 1.0, 0.9, 1.1) == 1.0;
  }

  // ---------------------------------------------------------------- what live R is measured against

  /** The stop a task leaves in our record of `id`, if it leaves one. */
  function StopIn(book: Book, task: Task, fate: Fate, id: Id): seq<real> {
    if task.id == id && task.action.MoveStop? && ReportOf(book, task, fate) == Applied then [task.action.stop] else []
  }

  function StopsIn(book: Book, tasks: seq<Task>, fates: seq<Fate>, id: Id): seq<real>
    requires |tasks| == |fates|
  {
    if tasks == [] then []
    else
      var n := |tasks| - 1;
      StopsIn(book, tasks[..n], fates[..n], id) + StopIn(ApplyAll(book, tasks[..n], fates[..n]), tasks[n], fates[n], id)
  }

  function StopsAt(book: Book, e: Event, config: ExecutionConfig, id: Id): seq<real> {
    if !e.Poll? then []
    else
      var tasks := PlanAll(book, e.order, e.seen, config);
      if |e.fates| <= |tasks| then StopsIn(book, tasks[..|e.fates|], e.fates, id) else []
  }

  /** The stops of `id` recorded over some events, in the order they were recorded. */
  function Stops(book: Book, events: seq<Event>, config: ExecutionConfig, id: Id): seq<real>
    decreases |events|
  {
    if events == [] then []
    else
      var n := |events| - 1;
      Stops(book, events[..n], config, id) + StopsAt(Final(book, events[..n], config), events[n], config, id)
  }

  function LastOr(stops: seq<real>, opening: Option<real>): Option<real> {
    if stops == [] then opening else Some(stops[|stops| - 1])
  }

  /** What management does to a row: the last stop it recorded is the stop in it, and the entry stays. */
  predicate RowHolds(a: TradeRow, b: TradeRow, stops: seq<real>) {
    b == a.(stopLoss := LastOr(stops, a.stopLoss), partialTaken := b.partialTaken)
  }

  lemma {:induction false} TasksRecordStops(book: Book, tasks: seq<Task>, fates: seq<Fate>, id: Id)
    requires |tasks| == |fates| && id in book.trades
    ensures id in ApplyAll(book, tasks, fates).trades
    ensures RowHolds(book.trades[id], ApplyAll(book, tasks, fates).trades[id], StopsIn(book, tasks, fates, id))
    ensures forall stop :: stop in StopsIn(book, tasks, fates, id) ==> MoveStop(stop) in ActionsOn(tasks, id)
  {
    if tasks != [] {
      var n := |tasks| - 1;
      var mid := ApplyAll(book, tasks[..n], fates[..n]);
      TasksRecordStops(book, tasks[..n], fates[..n], id);
      TaskRecordsItsStop(mid, tasks[n], fates[n], id);
      hide ApplyOne, StopIn;
    }
  }

  lemma TaskRecordsItsStop(book: Book, task: Task, fate: Fate, id: Id)
    requires id in book.trades
    ensures id in ApplyOne(book, task, fate).trades
    ensures RowHolds(book.trades[id], ApplyOne(book, task, fate).trades[id], StopIn(book, task, fate, id))
    ensures forall stop :: stop in StopIn(book, task, fate, id) ==> task == Task(id, MoveStop(stop))
  {
    hide ReportOf, AtBroker, Sends;
  }

  /** What one event records for a position is what its plan proposed. */
  lemma StepRecordsStops(book: Book, e: Event, config: ExecutionConfig, id: Id)
    requires Possible(book, e, config) && id in book.trades
    ensures id in After(book, e, config).trades
    ensures RowHolds(book.trades[id], After(book, e, config).trades[id], StopsAt(book, e, config, id))
    ensures forall stop :: stop in StopsAt(book, e, config, id) ==>
              e.Poll? && MoveStop(stop) in TasksFor(book, id, e.seen, config)
  {
    if e.Poll? {
      hide PlanActions, ApplyAll, PlanAll, ActionsOn, PartialsIn, CarriedOut, StopsIn, TasksFor;
      var tasks := PlanAll(book, e.order, e.seen, config);
      CarriedOutIsPlausible(book, tasks, e.fates);
      TasksRecordStops(book, tasks[..|e.fates|], e.fates, id);
      PrefixOfActions(tasks, |e.fates|, id);
      PlanAllKeepsPlansApart(book, e.order, e.seen, config, id);
    }
  }

  lemma {:induction false} RunRecordsStops(book: Book, events: seq<Event>, config: ExecutionConfig, id: Id)
    requires Run(book, events, config) && id in book.trades
    ensures id in Final(book, events, config).trades
    ensures RowHolds(book.trades[id], Final(book, events, config).trades[id], Stops(book, events, config, id))
    decreases |events|
  {
    if events != [] {
      hide Possible, After, StopsAt;
      var n := |events| - 1;
      RunRecordsStops(book, events[..n], config, id);
      StepRecordsStops(Final(book, events[..n], config), events[n], config, id);
    }
  }

  /** The R that management reads for a position at a price. */
  function LiveR(book: Book, id: Id, price: real): real
    requires Tracked(book, id)
  {
    var position, row := book.positions[id].position, book.Row(id);
    var planned := PlannedStop(position, row);
    if planned.Some? then RMultiple(position.direction, EntryOf(position, row), planned.value, price) else 0.0
  }

  lemma SameRExactlyWhen(direction: Direction, entry: real, a: real, b: real)
    requires entry != a
    ensures (forall price :: RMultiple(direction, entry, b, price) == RMultiple(direction, entry, a, price))
            <==> Abs(entry - b) == Abs(entry - a)
  {
    var price := Ahead(direction, entry, 1.0);
    assert Gain(direction, entry, price) == 1.0;
    var r := RMultiple(direction, entry, b, price);
    if r == RMultiple(direction, entry, a, price) {
      QuotientTimesDivisor(1.0, Abs(entry - a));
      if entry != b {
        QuotientTimesDivisor(1.0, Abs(entry - b));
        assert r * Abs(entry - a) == r * Abs(entry - b) == 1.0;
      }
    }
  }

  /**
   The R a run leaves the manager reading is R against the opening risk, at every price, if
   and only if no moved stop has been recorded or the last one recorded is as far from the
   entry as the opening stop was.
   */
  lemma LiveRIsAgainstOpeningRiskExactlyWhen(book: Book, events: seq<Event>, config: ExecutionConfig, id: Id)
    requires Run(book, events, config) && id in book.trades && id in Final(book, events, config).positions
    requires Usable(book.trades[id].stopLoss) && Usable(LastOr(Stops(book, events, config, id), book.trades[id].stopLoss))
    requires Tracked(book, id) && MeasuredRisk(book.positions[id].position, book.Row(id)) > 0.0
    ensures Tracked(Final(book, events, config), id)
    ensures
      var end, stops := Final(book, events, config), Stops(book, events, config, id);
      (forall price :: LiveR(end, id, price) == LiveR(book, id, price))
      <==> stops == []
           || Abs(EntryOf(book.positions[id].position, book.Row(id)) - stops[|stops| - 1])
              == MeasuredRisk(book.positions[id].position, book.Row(id))
  {
    hide Run, Final, Stops, RMultiple;
    var end, stops := Final(book, events, config), Stops(book, events, config, id);
    RunRecordsStops(book, events, config, id);
    TrackedPositionsAreManagedSafely(book, events, config, id);
    var entry, opening := EntryOf(book.positions[id].position, book.Row(id)), book.trades[id].stopLoss.value;
    var last, direction := LastOr(stops, book.trades[id].stopLoss).value, book.positions[id].position.direction;
    SameRExactlyWhen(direction, entry, opening, last);
    assert forall price :: LiveR(end, id, price) == RMultiple(direction, entry, last, price);
    assert forall price :: LiveR(book, id, price) == RMultiple(direction, entry, opening, price);
  }

  /** A trailing stop recorded at r divides every later R by |r - 1|: only at exactly 2R does it leave R as it was. */
  lemma RecordedTrailDividesR(direction: Direction, entry: real, stop: real, reached: real, price: real)
    requires entry != stop
    ensures
      var risk := Abs(entry - stop);
      RMultiple(direction, entry, TrailStop(direction, entry, risk, reached), price) * Abs(reached - 1.0)
      == if reached == 1.0 then 0.0 else RMultiple(direction, entry, stop, price)
  {
    var risk, factor, gain := Abs(entry - stop), Abs(reached - 1.0), Gain(direction, entry, price);
    var trail := TrailStop(direction, entry, risk, reached);
    assert Abs(entry - trail) == risk * factor by {
      assert risk * (reached - 1.0) == if reached >= 1.0 then risk * factor else -(risk * factor);
    }
    if reached != 1.0 {
      QuotientScales(gain, risk, factor);
    }
  }

  lemma QuotientScales(gain: real, risk: real, factor: real)
    requires risk > 0.0 && factor > 0.0
    ensures risk * factor > 0.0 && gain / (risk * factor) * factor == gain / risk
  {
    var r := gain / (risk * factor);
    QuotientTimesDivisor(gain, risk * factor);
    calc {
      gain;
      r * (risk * factor);
      r * factor * risk;
    }
    assert r * factor * risk / risk == r * factor;
  }

  /**
   With trailing off the condition is that no moved stop has been recorded: every break-even
   stop recorded divides the measured risk by twenty, and nothing multiplies it again.
   */
  lemma {:induction false} BreakevenOnlyShrinksTheRisk(book: Book, events: seq<Event>, config: ExecutionConfig, id: Id)
    requires Run(book, events, config) && id in book.trades && id in Final(book, events, config).positions
    requires !config.enableTrailing && Usable(book.trades[id].stopLoss)
    requires forall stop :: stop in Stops(book, events, config, id) ==> stop != 0.0
    ensures Tracked(book, id) && Tracked(Final(book, events, config), id)
    ensures
      var opening := MeasuredRisk(book.positions[id].position, book.Row(id));
      var measured := MeasuredRisk(Final(book, events, config).positions[id].position, Final(book, events, config).Row(id));
      if Stops(book, events, config, id) == [] then measured == opening else 0.0 <= measured * 20.0 <= opening
    decreases |events|
  {
    if events != [] {
      var n := |events| - 1;
      LastEventKeepsStopsUsable(book, events, config, id);
      hide After, Possible, StopsAt, MeasuredRisk, Usable, NoLooser;
      BreakevenOnlyShrinksTheRisk(book, events[..n], config, id);
      BreakevenStepShrinksTheRisk(Final(book, events[..n], config), events[n], config, id);
    }
  }

  lemma LastEventKeepsStopsUsable(book: Book, events: seq<Event>, config: ExecutionConfig, id: Id)
    requires Run(book, events, config) && events != [] && id in book.trades && id in Final(book, events, config).positions
    requires Usable(book.trades[id].stopLoss)
    requires forall stop :: stop in Stops(book, events, config, id) ==> stop != 0.0
    ensures
      var n := |events| - 1;
      var mid := Final(book, events[..n], config);
      && Tracked(book, id) && Tracked(mid, id) && Tracked(Final(book, events, config), id)
      && (forall stop :: stop in Stops(book, events[..n], config, id) ==> stop != 0.0)
      && Usable(mid.trades[id].stopLoss) && Usable(LastOr(StopsAt(mid, events[n], config, id), mid.trades[id].stopLoss))
      && NoLooser(mid.positions[id].position, Final(book, events, config).positions[id].position)
  {
    hide After, Possible, StopsAt, CutsAt, Accounted, NoLooser;
    var n := |events| - 1;
    var mid, e := Final(book, events[..n], config), events[n];
    var earlier, latest := Stops(book, events[..n], config, id), StopsAt(mid, e, config, id);
    assert Stops(book, events, config, id) == earlier + latest;
    if earlier != [] { assert earlier[|earlier| - 1] in Stops(book, events, config, id); }
    if latest != [] { assert latest[|latest| - 1] in Stops(book, events, config, id); }
    assert forall stop :: stop in earlier ==> stop in Stops(book, events, config, id);
    RunRecordsStops(book, events[..n], config, id);
    StepSpendsTheRoom(mid, e, config, id);
    TrackedPositionsAreManagedSafely(book, events[..n], config, id);
  }

  lemma BreakevenStepShrinksTheRisk(book: Book, e: Event, config: ExecutionConfig, id: Id)
    requires Possible(book, e, config) && Tracked(book, id) && Tracked(After(book, e, config), id)
    requires !config.enableTrailing && Usable(book.trades[id].stopLoss)
    requires Usable(LastOr(StopsAt(book, e, config, id), book.trades[id].stopLoss))
    requires NoLooser(book.positions[id].position, After(book, e, config).positions[id].position)
    ensures
      var before := MeasuredRisk(book.positions[id].position, book.Row(id));
      var after := MeasuredRisk(After(book, e, config).positions[id].position, After(book, e, config).Row(id));
      after * (if StopsAt(book, e, config, id) == [] then 1.0 else 20.0) == before
  {
    hide After, Possible, StopsAt, PlanActions;
    StepRecordsStops(book, e, config, id);
    var stops := StopsAt(book, e, config, id);
    if stops != [] {
      var last := stops[|stops| - 1];
      assert last in stops;
      StopsProposed(
        book.positions[id].position, book.Row(id), e.seen.prices[id], config, id in e.seen.invalidated, e.seen.now, MoveStop(last));
    }
  }

  const PROTECTING := ExecutionConfig(1.0, 0.75, 0.5, 2.0, true, false, false, false, 48.0)

  /** One poll is enough: a break-even move accepted at 1R leaves the same price reading 20R. */
  lemma OnePollReadsTwentyTimes()
    ensures exists book: Book, e: Event, id: Id, price: real ::
              && Possible(book, e, PROTECTING) && Tracked(book, id) && Tracked(After(book, e, PROTECTING), id)
              && LiveR(book, id, price) == 1.0 && LiveR(After(book, e, PROTECTING), id, price) == 20.0
  {
    hide Possible, After, LiveR;
    var id, row := "P", TradeRow(None, Some(1.0), Some(0.9), false);
    var position := Position(Buy, 1.0, 1.0, Some(0.9), None);
    var book := Book(map[id := Live(position, 0)], map[id := row]);
    var e := Poll([id], Observation(map[id := 1.1], {}, 0.0), [Fate(T.Accepted(false), true, NoQuote)]);
    BreakevenPoll(position, row);
    var moved := Book(map[id := Live(position.(stopLoss := Some(1.005)), 0)], map[id := row.(stopLoss := Some(1.005))]);
    assert After(book, e, PROTECTING) == moved;
    MovedStopReadsTwenty(position, row);
  }

  lemma MovedStopReadsTwenty(position: Position, row: TradeRow)
    requires position == Position(Buy, 1.0, 1.0, Some(0.9), None) && row == TradeRow(None, Some(1.0), Some(0.9), false)
    ensures LiveR(Book(map["P" := Live(position, 0)], map["P" := row]), "P", 1.1) == 1.0
    ensures
      var moved := Book(map["P" := Live(position.(stopLoss := Some(1.005)), 0)], map["P" := row.(stopLoss := Some(1.005))]);
      LiveR(moved, "P", 1.1) == 20.0
  {
    assert RMultiple(Buy, 1.0, 0.9, 1.1) == 1.0 && RMultiple(Buy, 1.0, 1.005, 1.1) == 20.0;
  }

  lemma BreakevenPoll(position: Position, row: TradeRow)
    requires position == Position(Buy, 1.0, 1.0, Some(0.9), None) && row == TradeRow(None, Some(1.0), Some(0.9), false)
    ensures
      var book := Book(map["P" := Live(position, 0)], map["P" := row]);
      var e := Poll(["P"], Observation(map["P" := 1.1], {}, 0.0), [Fate(T.Accepted(false), true, NoQuote)]);
      && Possible(book, e, PROTECTING)
      && After(book, e, PROTECTING)
         == Book(map["P" := Live(position.(stopLoss := Some(1.005)), 0)], map["P" := row.(stopLoss := Some(1.005))])
  {
    var book, seen := Book(map["P" := Live(position, 0)], map["P" := row]), Observation(map["P" := 1.1], {}, 0.0);
    var task, fate := Task("P", MoveStop(1.005)), Fate(T.Accepted(false), true, NoQuote);
    BreakevenIsPlanned(position, row);
    OnePositionPlan(book, "P", seen, PROTECTING);
    MoveTakesEffect(position, row, fate);
    hide PlanActions, PlanAll, Outcome, CarriedOut, ApplyOne;
    assert PlanAll(book, ["P"], seen, PROTECTING) == [task];
    OneTask(book, task, fate);
  }

  lemma BreakevenIsPlanned(position: Position, row: TradeRow)
    requires position == Position(Buy, 1.0, 1.0, Some(0.9), None) && row == TradeRow(None, Some(1.0), Some(0.9), false)
    ensures PlanActions(position, Some(row), 1.1, PROTECTING, false, 0.0) == [MoveStop(1.005)]
  {
    assert RMultiple(Buy, 1.0, 0.9, 1.1) == 1.0;
    assert BreakevenStop(Buy, 1.0, 0.1) == 1.005 && BehindMarket(Buy, 1.005, 1.1, 0.1 * 0.02);
    hide RMultiple, BreakevenStop, BehindMarket, TrailStop, PartialQuantity;
  }

  lemma MoveTakesEffect(position: Position, row: TradeRow, fate: Fate)
    requires fate.landed && fate.outcome.Accepted?
    ensures ApplyOne(Book(map["P" := Live(position, 0)], map["P" := row]), Task("P", MoveStop(1.005)), fate)
            == Book(map["P" := Live(position.(stopLoss := Some(1.005)), 0)], map["P" := row.(stopLoss := Some(1.005))])
  {
    hide Affordable;
  }
}
