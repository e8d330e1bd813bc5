/** What every simulated trade keeps, over any bars: its stop, its lots and the most it can lose. */
module TradeSafety {
  import opened Wrappers
  import opened Prices
  import opened Rounding
  import opened Management
  import opened SimulatedTrade
  import I = Indicators

  /** The most some lots can lose: the opening stop distance plus slippage on each, and commission. */
  function Worst(rules: Rules, terms: Terms, lots: real): real {
    Gross(terms.StopDistance() + rules.Slippage(), rules.contractSize, lots, terms.conversionRate)
    + rules.commissionPerLot * lots
  }

  /** The lots closed partially and the lots still open (or closed last) are the lots opened, as rounded. */
  ghost predicate LotsTally(t: Trade, rest: real) {
    if t.partialTaken then
      && 0.0 < t.bankedLots <= t.terms.lots && rest == Round6(t.terms.lots - t.bankedLots)
      && (t.bankedLots == t.terms.lots || OnGrid6(t.bankedLots))
    else t.bankedLots == 0.0 && t.bankedPnl == 0.0 && rest == t.terms.lots
  }

  ghost predicate Sound(rules: Rules, t: Trade) {
    && t.terms.Valid()
    // the stop has never been moved away
    && Gain(t.terms.direction, t.terms.initialStop, t.stopLoss) >= 0.0
    && t.bankedPnl >= -Worst(rules, t.terms, t.bankedLots)
    && LotsTally(t, if t.exit.Some? then t.exit.value.lots else t.openLots)
    && (t.exit.Some? ==>
          && t.terms.entryIndex < t.exit.value.index
          && t.exit.value.pnl >= -Worst(rules, t.terms, t.bankedLots + t.exit.value.lots))
  }

  lemma GrossAdds(a: real, b: real, contract: real, lots: real, rate: real)
    ensures Gross(a, contract, lots, rate) + Gross(b, contract, lots, rate) == Gross(a + b, contract, lots, rate)
  {
    assert a * contract * lots * rate + b * contract * lots * rate == (a + b) * contract * lots * rate by {
      assert (a + b) * contract == a * contract + b * contract;
      assert (a * contract + b * contract) * lots == a * contract * lots + b * contract * lots;
    }
  }

  lemma GrossAddsLots(move: real, contract: real, a: real, b: real, rate: real)
    ensures Gross(move, contract, a, rate) + Gross(move, contract, b, rate) == Gross(move, contract, a + b, rate)
  {
    assert move * contract * (a + b) == move * contract * a + move * contract * b;
  }

  lemma GrossOfAGain(move: real, contract: real, lots: real, rate: real)
    requires move >= 0.0 && contract >= 0.0 && lots >= 0.0 && rate >= 0.0
    ensures Gross(move, contract, lots, rate) >= 0.0
  {
    assert move * contract >= 0.0;
    assert move * contract * lots >= 0.0;
  }

  /** A move no worse than stop distance plus slippage books no less than minus the worst loss. */
  lemma BookingIsBounded(rules: Rules, terms: Terms, move: real, lots: real)
    requires rules.Valid() && terms.Valid() && lots >= 0.0
    requires move >= -(terms.StopDistance() + rules.Slippage())
    ensures Booked(rules, terms.conversionRate, move, lots) >= -Worst(rules, terms, lots)
  {
    hide Gross;
    var d := terms.StopDistance() + rules.Slippage();
    GrossAdds(move, d, rules.contractSize, lots, terms.conversionRate);
    GrossOfAGain(move + d, rules.contractSize, lots, terms.conversionRate);
  }

  lemma WorstAdds(rules: Rules, terms: Terms, a: real, b: real)
    ensures Worst(rules, terms, a) + Worst(rules, terms, b) == Worst(rules, terms, a + b)
  {
    hide Gross;
    GrossAddsLots(terms.StopDistance() + rules.Slippage(), rules.contractSize, a, b, terms.conversionRate);
  }

  lemma RoundingKeepsNonNegative(x: real)
    requires x >= 0.0
    ensures Round6(x) >= 0.0
  {
  }

  lemma OpeningIsSound(rules: Rules, terms: Terms)
    requires rules.Valid() && terms.Valid()
    ensures Sound(rules, AtOpening(terms))
  {
  }

  lemma ClosingKeepsSound(rules: Rules, t: Trade, bar: I.Candle, index: nat, price: real, reason: ExitReason)
    requires rules.Valid() && Sound(rules, t) && t.exit.None? && t.terms.entryIndex < index
    requires Gain(t.terms.direction, t.terms.entry, price) >= -(t.terms.StopDistance() + rules.Slippage())
    ensures Sound(rules, ClosedAt(rules, t, bar, index, price, reason))
  {
    hide Worst, Booked, InR;
    if t.partialTaken {
      RoundingKeepsNonNegative(t.terms.lots - t.bankedLots);
    }
    hide Round6;
    BookingIsBounded(rules, t.terms, Gain(t.terms.direction, t.terms.entry, price), t.openLots);
    WorstAdds(rules, t.terms, t.bankedLots, t.openLots);
  }

  lemma HundredthsAreOnGrid(x: real)
    ensures OnGrid6(Round2(x))
  {
    var n := Nearest(x * 100.0);
    assert Round2(x) * 1000000.0 == (n * 10000) as real;
    NearestOfAnInteger(Round2(x) * 1000000.0, n * 10000);
  }

  /** A partial fill is within the sized risk exactly when its trigger is no worse than -1R. */
  lemma PartialFillIsWithinRiskExactlyWhen(rules: Rules, terms: Terms)
    requires terms.Valid()
    ensures PartialMove(rules, terms) >= -(terms.StopDistance() + rules.Slippage()) <==> rules.config.partialAtR >= -1.0
  {
    var d, r := terms.StopDistance(), rules.config.partialAtR;
    assert PartialMove(rules, terms) == d * r - rules.Slippage();
    if r >= -1.0 {
      assert d * r >= d * -1.0;
    } else {
      assert d * r < d * -1.0;
    }
  }

  /** Partials are off, trigger no worse than the stop, or come to nothing on these lots. */
  predicate PartialsStayWithinRisk(rules: Rules, terms: Terms) {
    !rules.config.enablePartial || rules.config.partialAtR >= -1.0 || PartialLots(rules.config, terms.lots) <= 0.0
  }

  /** A configuration whose partials stay within the risk on any lots. */
  predicate NoDeepPartials(config: ExecutionConfig) {
    !config.enablePartial || config.partialAtR >= -1.0 || config.partialFraction <= 0.0
  }

  lemma NoDeepPartialsStayWithinRisk(rules: Rules, terms: Terms)
    requires NoDeepPartials(rules.config) && terms.Valid()
    ensures PartialsStayWithinRisk(rules, terms)
  {
    if rules.config.partialFraction <= 0.0 {
      var share := Share(terms.lots, rules.config.partialFraction);
      assert share <= 0.0 by { assert terms.lots * -rules.config.partialFraction >= 0.0; }
      assert share * 100.0 <= 0.0;
    }
  }

  lemma BankingKeepsSound(rules: Rules, t: Trade, closing: real)
    requires rules.Valid() && rules.config.partialAtR >= -1.0
    requires Sound(rules, t) && t.exit.None? && !t.partialTaken
    requires 0.0 < closing <= t.openLots && (closing == t.openLots || OnGrid6(closing))
    ensures Sound(rules, Banked(rules, t, closing))
  {
    hide Worst, Booked, Round6, PartialMove;
    PartialFillIsWithinRiskExactlyWhen(rules, t.terms);
    BookingIsBounded(rules, t.terms, PartialMove(rules, t.terms), closing);
  }

  /** What the plan may hand over: tighter stops, a partial on the hundredths grid with a fill within the risk. */
  ghost predicate Fitting(rules: Rules, terms: Terms, action: Action) {
    match action
    case MoveStop(stop) => Gain(terms.direction, terms.initialStop, stop) >= 0.0
    case PartialClose(quantity) => OnGrid6(quantity) && (quantity > 0.0 ==> rules.config.partialAtR >= -1.0)
    case Close(_) => true
  }

  lemma {:induction false} ActingKeepsSound(rules: Rules, t: Trade, bar: I.Candle, index: nat, actions: seq<Action>)
    requires rules.Valid() && Sound(rules, t) && t.exit.None? && t.terms.entryIndex < index
    requires forall a :: a in actions ==> Fitting(rules, t.terms, a)
    requires Gain(t.terms.direction, t.terms.entry, bar.close) >= -t.terms.StopDistance()
    ensures Sound(rules, ActedAll(rules, t, bar, index, actions)) && ActedAll(rules, t, bar, index, actions).terms == t.terms
    decreases |actions|
  {
    if actions != [] {
      hide Worst, Booked, Round6, PartialMove, OnGrid6, ClosedAt, LotsTally, InR;
      var action := actions[0];
      assert action in actions;
      match action {
        case MoveStop(stop) =>
        case PartialClose(quantity) =>
          var closing := Min(t.openLots, quantity);
          if !t.partialTaken && closing > 0.0 {
            BankingKeepsSound(rules, t, closing);
          }
        case Close(reason) =>
          ClosingKeepsSound(rules, t, bar, index, bar.close, Voluntary(reason));
          ClosingKeepsTerms(rules, t, bar, index, bar.close, Voluntary(reason));
      }
      var next := Acted(rules, t, bar, index, action);
      assert forall a :: a in actions[1..] ==> a in actions;
      if next.exit.None? {
        ActingKeepsSound(rules, next, bar, index, actions[1..]);
      }
    }
  }

  lemma ClosingKeepsTerms(rules: Rules, t: Trade, bar: I.Candle, index: nat, price: real, reason: ExitReason)
    ensures ClosedAt(rules, t, bar, index, price, reason).exit.Some?
    ensures ClosedAt(rules, t, bar, index, price, reason).terms == t.terms
  {
  }

  lemma PartialsAreHundredths(position: Position, config: ExecutionConfig)
    ensures OnGrid6(PartialQuantity(position, config))
  {
    hide OnGrid6, Round2;
    HundredthsAreOnGrid(Share(position.quantity, config.partialFraction));
  }

  /** The plan's stops are tighter than the one in place, so never beyond the opening one. */
  lemma PlansAreFitting(rules: Rules, t: Trade, bar: I.Candle)
    requires Sound(rules, t) && t.exit.None? && PartialsStayWithinRisk(rules, t.terms)
    ensures forall a :: a in PlanFor(rules, t, bar) ==> Fitting(rules, t.terms, a)
  {
    hide PlanActions, Worst, OnGrid6, Round2;
    var position := Position(t.terms.direction, t.openLots, t.terms.entry, Some(t.stopLoss), Some(Hours(t.terms.entryTime)));
    var row := Some(TradeRow(Some(t.terms.entry), None, Some(t.terms.initialStop), t.partialTaken));
    var price := if t.terms.direction == Buy then bar.high else bar.low;
    ProposalsOnlyProtect(position, row, price, rules.config, false, Hours(bar.CloseTime()));
    PartialsAreHundredths(position, rules.config);
    forall a | a in PlanFor(rules, t, bar) ensures Fitting(rules, t.terms, a) {
      match a
      case MoveStop(stop) => assert Tighter(t.terms.direction, t.stopLoss, stop);
      case PartialClose(quantity) => assert quantity == PartialLots(rules.config, t.terms.lots);
      case Close(_) =>
    }
  }

  /** One bar keeps a trade sound, whichever branch it takes. */
  lemma BarKeepsSound(rules: Rules, t: Trade, bar: I.Candle, index: nat)
    requires rules.Valid() && Sound(rules, t) && PartialsStayWithinRisk(rules, t.terms) && bar.Valid()
    ensures Sound(rules, Resolved(rules, t, bar, index)) && Resolved(rules, t, bar, index).terms == t.terms
  {
    hide Worst, LotsTally, ClosedAt, PlanFor, ActedAll, PartialsStayWithinRisk;
    if index > t.terms.entryIndex && t.exit.None? {
      var u := Excursed(t, bar);
      assert Sound(rules, u) && u.terms == t.terms by { ExcursionsChangeNothingElse(rules, t, bar); }
      if HitsStop(t, bar) {
        var price := Ahead(t.terms.direction, t.stopLoss, -rules.Slippage());
        var reason := if HitsTarget(t, bar) then StopAndTargetSameBar else StopHit;
        ClosingKeepsSound(rules, u, bar, index, price, reason);
        ClosingKeepsTerms(rules, u, bar, index, price, reason);
      } else if HitsTarget(t, bar) {
        ClosingKeepsSound(rules, u, bar, index, t.terms.takeProfit, TargetHit);
        ClosingKeepsTerms(rules, u, bar, index, t.terms.takeProfit, TargetHit);
      } else if u.openLots > 0.0 {
        PlansAreFitting(rules, u, bar);
        ActingKeepsSound(rules, u, bar, index, PlanFor(rules, u, bar));
      }
    }
  }

  lemma ExcursionsChangeNothingElse(rules: Rules, t: Trade, bar: I.Candle)
    requires Sound(rules, t) && t.exit.None?
    ensures Sound(rules, Excursed(t, bar)) && Excursed(t, bar).terms == t.terms && Excursed(t, bar).exit.None?
  {
    hide Worst;
  }

  // ---------------------------------------------------------------- whole lives

  /** A trade after the bars from `from` up to, not including, k. */
  function LifeTo(rules: Rules, terms: Terms, bars: seq<I.Candle>, k: nat): Trade
    requires k <= |bars|
  {
    if k == 0 then AtOpening(terms) else Resolved(rules, LifeTo(rules, terms, bars, k - 1), bars[k - 1], k - 1)
  }

  lemma OpeningKeepsTerms(terms: Terms)
    ensures AtOpening(terms).terms == terms
  {
  }

  lemma {:induction false} EveryLifeIsSound(rules: Rules, terms: Terms, bars: seq<I.Candle>, k: nat)
    requires rules.Valid() && terms.Valid() && PartialsStayWithinRisk(rules, terms) && k <= |bars|
    requires forall b :: b in bars ==> b.Valid()
    ensures Sound(rules, LifeTo(rules, terms, bars, k)) && LifeTo(rules, terms, bars, k).terms == terms
  {
    hide Sound, Resolved, AtOpening, PartialsStayWithinRisk;
    if k == 0 {
      OpeningIsSound(rules, terms);
      assert AtOpening(terms).terms == terms by { OpeningKeepsTerms(terms); }
    } else {
      EveryLifeIsSound(rules, terms, bars, k - 1);
      BarKeepsSound(rules, LifeTo(rules, terms, bars, k - 1), bars[k - 1], k - 1);
    }
  }

  /** The lots closed in all: partially, and at the end. */
  function LotsClosed(t: Trade): real
    requires t.exit.Some?
  {
    t.bankedLots + t.exit.value.lots
  }

  /**
   The lots closed are the lots opened exactly when no partial was taken, the partial closed
   everything, or the lots opened are on the six-decimal grid the remainder is rounded to;
   they are never further apart than half a unit of that grid.
   */
  lemma LotsAreConservedExactlyWhen(rules: Rules, t: Trade)
    requires Sound(rules, t) && t.exit.Some?
    ensures LotsClosed(t) == t.terms.lots <==> !t.partialTaken || t.bankedLots == t.terms.lots || OnGrid6(t.terms.lots)
    ensures -0.0000005 <= LotsClosed(t) - t.terms.lots <= 0.0000005
  {
    if t.partialTaken {
      var rest := t.terms.lots - t.bankedLots;
      RoundingKeepsGrid6(rest);
      if t.bankedLots == t.terms.lots {
        NearestOfAnInteger(0.0, 0);
      } else {
        GridIsClosed(t.terms.lots, t.bankedLots);
        GridIsClosed(rest, -t.bankedLots);
        GridIsClosed(0.0, t.bankedLots);
        NearestOfAnInteger(0.0, 0);
      }
    }
  }

  lemma GridIsClosed(a: real, b: real)
    ensures OnGrid6(a) && OnGrid6(b) ==> OnGrid6(a - b)
  {
    if OnGrid6(a) && OnGrid6(b) {
      var m, n := (a * 1000000.0).Floor, (b * 1000000.0).Floor;
      assert (a - b) * 1000000.0 == (m - n) as real;
      NearestOfAnInteger((a - b) * 1000000.0, m - n);
    }
  }

  /** Slippage and commission on some lots. */
  function Frictions(rules: Rules, terms: Terms, lots: real): real {
    lots * (rules.Slippage() * rules.contractSize * terms.conversionRate + rules.commissionPerLot)
  }

  /** The risk the trade was sized for. */
  function SizedRisk(rules: Rules, terms: Terms): real {
    terms.lots * (terms.StopDistance() * rules.contractSize * terms.conversionRate)
  }

  lemma WorstIsRiskAndFrictions(rules: Rules, terms: Terms)
    ensures Worst(rules, terms, terms.lots) == SizedRisk(rules, terms) + Frictions(rules, terms, terms.lots)
  {
    var d, s, c, n, r := terms.StopDistance(), rules.Slippage(), rules.contractSize, terms.lots, terms.conversionRate;
    GrossAdds(d, s, c, n, r);
    GrossReorders(d, c, n, r);
    GrossReorders(s, c, n, r);
    DistributeLots(n, s * c * r, rules.commissionPerLot);
  }

  lemma GrossReorders(move: real, contract: real, lots: real, rate: real)
    ensures Gross(move, contract, lots, rate) == lots * (move * contract * rate)
  {
    assert move * contract * lots * rate == lots * (move * contract * rate);
  }

  lemma DistributeLots(lots: real, a: real, b: real)
    ensures lots * (a + b) == lots * a + b * lots
  {
  }

  /**
   Over any bars, through partials, moved stops, bars that touch both levels and time
   stops, a closed trade has lost at most the risk it was sized for plus slippage and
   commission, on the lots actually closed; on lots on the grid, on the lots opened.
   */
  lemma LossIsBounded(rules: Rules, terms: Terms, bars: seq<I.Candle>, k: nat)
    requires rules.Valid() && terms.Valid() && PartialsStayWithinRisk(rules, terms) && k <= |bars|
    requires forall b :: b in bars ==> b.Valid()
    ensures
      var t := LifeTo(rules, terms, bars, k);
      t.exit.Some? ==>
        && t.exit.value.pnl >= -Worst(rules, terms, LotsClosed(t))
        && (OnGrid6(terms.lots) ==> t.exit.value.pnl >= -(SizedRisk(rules, terms) + Frictions(rules, terms, terms.lots)))
  {
    hide LifeTo, Worst;
    EveryLifeIsSound(rules, terms, bars, k);
    var t := LifeTo(rules, terms, bars, k);
    if t.exit.Some? {
      LotsAreConservedExactlyWhen(rules, t);
      WorstIsRiskAndFrictions(rules, terms);
    }
  }

  // ---------------------------------------------------------------- and exactly when it is

  /** A life over these bars that has ended has lost no more than the worst loss on the lots it closed. */
  ghost predicate Bounded(rules: Rules, terms: Terms, bars: seq<I.Candle>, k: nat)
    requires k <= |bars|
  {
    (forall b :: b in bars ==> b.Valid()) ==>
      var t := LifeTo(rules, terms, bars, k);
      t.exit.Some? ==> t.exit.value.pnl >= -Worst(rules, terms, LotsClosed(t))
  }

  /**
   Every life is bounded if and only if partials are off, trigger at -1R or better, or come
   to nothing on the lots opened. Otherwise a bar between stop and target books the partial
   beyond the stop, and a bar at the stop books the rest at it.
   */
  lemma LossIsBoundedExactlyWhen(rules: Rules, terms: Terms)
    requires rules.Valid() && terms.Valid()
    ensures (forall bars: seq<I.Candle>, k: nat :: k <= |bars| ==> Bounded(rules, terms, bars, k))
            <==> PartialsStayWithinRisk(rules, terms)
  {
    hide LifeTo, Worst, PartialsStayWithinRisk;
    if PartialsStayWithinRisk(rules, terms) {
      forall bars: seq<I.Candle>, k: nat | k <= |bars| ensures Bounded(rules, terms, bars, k) {
        if forall b :: b in bars ==> b.Valid() {
          LossIsBounded(rules, terms, bars, k);
        }
      }
    } else {
      DeepPartialsLoseMore(rules, terms);
      assert !Bounded(rules, terms, LosingBars(rules, terms), terms.entryIndex + 3);
    }
  }

  function Flat(time: int, price: real): I.Candle { I.Candle(time, 0, price, price, price, price) }

  /** A price between the opening stop and both the entry and the target. */
  function Between(terms: Terms): real {
    var room := Min(terms.StopDistance(), Gain(terms.direction, terms.initialStop, terms.takeProfit));
    Ahead(terms.direction, terms.initialStop, room / 2.0)
  }

  /** A moment at which the trade has not expired. */
  function Early(rules: Rules, terms: Terms): int { terms.entryTime + (rules.config.maxPositionHours * 60.0).Floor - 1 }

  /** Nothing up to the entry bar, then one bar between stop and target and one at the stop. */
  function LosingBars(rules: Rules, terms: Terms): (bars: seq<I.Candle>)
    ensures |bars| == terms.entryIndex + 3
    ensures bars[terms.entryIndex + 1] == Flat(Early(rules, terms), Between(terms))
    ensures bars[terms.entryIndex + 2] == Flat(Early(rules, terms), terms.initialStop)
    ensures forall b :: b in bars ==>
              b == Flat(Early(rules, terms), Between(terms)) || b == Flat(Early(rules, terms), terms.initialStop)
  {
    seq(terms.entryIndex + 2, _ => Flat(Early(rules, terms), Between(terms))) + [Flat(Early(rules, terms), terms.initialStop)]
  }

  lemma {:induction false} NothingUpToEntry(rules: Rules, terms: Terms, bars: seq<I.Candle>, k: nat)
    requires k <= |bars| && k <= terms.entryIndex + 1
    ensures LifeTo(rules, terms, bars, k) == AtOpening(terms)
  {
    if k > 0 {
      hide Excursed, ClosedAt, Managed;
      NothingUpToEntry(rules, terms, bars, k - 1);
    }
  }

  lemma BetweenIsBetween(terms: Terms)
    requires terms.Valid()
    ensures Between(terms) > 0.0
    ensures 0.0 < Gain(terms.direction, terms.initialStop, Between(terms)) < terms.StopDistance()
    ensures Gain(terms.direction, Between(terms), terms.takeProfit) > 0.0
  {
  }

  lemma EarlyIsEarly(rules: Rules, terms: Terms)
    ensures Hours(Early(rules, terms)) - Hours(terms.entryTime) < rules.config.maxPositionHours
  {
    var m := (rules.config.maxPositionHours * 60.0).Floor;
    assert Hours(Early(rules, terms)) - Hours(terms.entryTime) == (m - 1) as real / 60.0;
  }

  lemma ProperFraction(part: real, whole: real)
    requires whole > 0.0 && -whole < part < 0.0
    ensures -1.0 < part / whole < 0.0
  {
    var r := part / whole;
    QuotientTimesDivisor(part, whole);
    assert (r + 1.0) * whole == part + whole;
    PositiveFactor(r + 1.0, whole);
  }

  /** Between stop and entry R is between -1 and nothing. */
  lemma RBetween(terms: Terms)
    requires terms.Valid()
    ensures -1.0 < RMultiple(terms.direction, terms.entry, terms.initialStop, Between(terms)) < 0.0
  {
    BetweenIsBetween(terms);
    var gain := Gain(terms.direction, terms.entry, Between(terms));
    hide Between;
    ProperFraction(gain, terms.StopDistance());
  }

  /** Under water neither break-even nor trailing is due, whatever the configuration. */
  lemma NoMoveIsDue(position: Position, config: ExecutionConfig, entry: real, risk: real, r: real, price: real)
    requires risk > 0.0 && r < 0.0 && Gain(position.direction, entry, price) <= 0.0
    requires position.stopLoss == Some(Ahead(position.direction, entry, -risk))
    ensures !BreakevenDue(position, config, entry, risk, r, price) && !TrailDue(position, config, entry, risk, r, price)
  {
    var trail := TrailStop(position.direction, entry, risk, r);
    assert risk * r < 0.0;
    assert risk * (r - 1.0) == risk * r - risk;
    assert Gain(position.direction, position.stopLoss.value, trail) == risk * r;
    hide TrailStop;
  }

  /** Between stop and entry the only thing due is a partial triggered below -1R. */
  lemma OnlyThePartialIsDue(rules: Rules, t: Trade)
    requires t.terms.Valid() && !PartialsStayWithinRisk(rules, t.terms)
    requires t.stopLoss == t.terms.initialStop && t.openLots == t.terms.lots && !t.partialTaken
    ensures PlanFor(rules, t, Flat(Early(rules, t.terms), Between(t.terms)))
            == [PartialClose(PartialLots(rules.config, t.terms.lots))]
  {
    var terms, risk, price := t.terms, t.terms.StopDistance(), Between(t.terms);
    var r := RMultiple(terms.direction, terms.entry, terms.initialStop, price);
    var position := Position(terms.direction, t.openLots, terms.entry, Some(t.stopLoss), Some(Hours(terms.entryTime)));
    RBetween(terms);
    BetweenIsBetween(terms);
    EarlyIsEarly(rules, terms);
    NoMoveIsDue(position, rules.config, terms.entry, risk, r, price);
    hide Round2, RMultiple, Between, Early, BreakevenDue, TrailDue, BreakevenStop, TrailStop, Hours;
    assert Flat(Early(rules, terms), price).CloseTime() == Early(rules, terms);
  }

  /** Past the trigger a partial on any lots loses strictly more than the worst loss on them. */
  lemma DeepBankingLosesMore(rules: Rules, terms: Terms, lots: real)
    requires rules.Valid() && terms.Valid() && rules.config.partialAtR < -1.0 && lots > 0.0
    ensures Booked(rules, terms.conversionRate, PartialMove(rules, terms), lots) < -Worst(rules, terms, lots)
  {
    var d, move := terms.StopDistance() + rules.Slippage(), PartialMove(rules, terms);
    PartialFillIsWithinRiskExactlyWhen(rules, terms);
    hide Gross, PartialMove;
    GrossAdds(move, d, rules.contractSize, lots, terms.conversionRate);
    GrossOfALoss(move + d, rules.contractSize, lots, terms.conversionRate);
  }

  lemma GrossOfALoss(move: real, contract: real, lots: real, rate: real)
    requires move < 0.0 && contract > 0.0 && lots > 0.0 && rate > 0.0
    ensures Gross(move, contract, lots, rate) < 0.0
  {
    assert move * contract < 0.0;
    assert move * contract * lots < 0.0;
  }

  /** What the first bar leaves: the stop where it was, and a partial booked beyond it. */
  lemma TheFirstBarBooksThePartial(rules: Rules, terms: Terms)
    requires rules.Valid() && terms.Valid() && !PartialsStayWithinRisk(rules, terms)
    ensures
      var t := Resolved(rules, AtOpening(terms), Flat(Early(rules, terms), Between(terms)), terms.entryIndex + 1);
      && t.terms == terms && t.exit.None? && t.stopLoss == terms.initialStop
      && t.bankedPnl < -Worst(rules, terms, t.bankedLots)
  {
    var bar, index := Flat(Early(rules, terms), Between(terms)), terms.entryIndex + 1;
    var t, lots := Excursed(AtOpening(terms), bar), PartialLots(rules.config, terms.lots);
    BetweenIsBetween(terms);
    OnlyThePartialIsDue(rules, t);
    NoLotsNoPartial(rules.config);
    var closing := Min(terms.lots, lots);
    DeepBankingLosesMore(rules, terms, closing);
    hide PlanFor, ActedAll, Booked, Worst, PartialMove, PartialLots, Between, Early, ClosedAt;
    OneAction(rules, t, bar, index, PartialClose(lots));
  }

  lemma NoLotsNoPartial(config: ExecutionConfig)
    ensures PartialLots(config, 0.0) == 0.0
  {
    assert Share(0.0, config.partialFraction) == 0.0;
    NearestOfAnInteger(0.0, 0);
  }

  lemma OneAction(rules: Rules, t: Trade, bar: I.Candle, index: nat, action: Action)
    requires t.exit.None?
    ensures ActedAll(rules, t, bar, index, [action]) == Acted(rules, t, bar, index, action)
  {
    hide Acted;
    assert [action][1..] == [];
  }

  /** A bar at the stop books what is left at exactly the worst loss on it. */
  lemma TheSecondBarBooksTheRest(rules: Rules, t: Trade, time: int, index: nat)
    requires t.exit.None? && t.stopLoss == t.terms.initialStop && t.terms.entryIndex < index
    requires t.bankedPnl < -Worst(rules, t.terms, t.bankedLots)
    ensures
      var end := Resolved(rules, t, Flat(time, t.terms.initialStop), index);
      end.exit.Some? && end.exit.value.pnl < -Worst(rules, t.terms, LotsClosed(end))
  {
    WorstAdds(rules, t.terms, t.bankedLots, t.openLots);
    var d := t.terms.StopDistance() + rules.Slippage();
    GrossNegates(d, rules.contractSize, t.openLots, t.terms.conversionRate);
    hide Gross, Managed, InR;
  }

  lemma GrossNegates(move: real, contract: real, lots: real, rate: real)
    ensures Gross(-move, contract, lots, rate) == -Gross(move, contract, lots, rate)
  {
    assert (-move) * contract * lots * rate == -(move * contract * lots * rate);
  }

  lemma TheLosingLife(rules: Rules, terms: Terms)
    ensures
      var bars, n, time := LosingBars(rules, terms), terms.entryIndex, Early(rules, terms);
      var t := Resolved(rules, AtOpening(terms), Flat(time, Between(terms)), n + 1);
      LifeTo(rules, terms, bars, n + 3) == Resolved(rules, t, Flat(time, terms.initialStop), n + 2)
  {
    var bars, n := LosingBars(rules, terms), terms.entryIndex;
    NothingUpToEntry(rules, terms, bars, n + 1);
    hide Resolved, AtOpening, Between, Early, LosingBars;
    assert LifeTo(rules, terms, bars, n + 2) == Resolved(rules, AtOpening(terms), bars[n + 1], n + 1);
  }

  lemma DeepPartialsLoseMore(rules: Rules, terms: Terms)
    requires rules.Valid() && terms.Valid() && !PartialsStayWithinRisk(rules, terms)
    ensures !Bounded(rules, terms, LosingBars(rules, terms), terms.entryIndex + 3)
  {
    var time, n := Early(rules, terms), terms.entryIndex;
    TheFirstBarBooksThePartial(rules, terms);
    BetweenIsBetween(terms);
    hide Resolved, LifeTo, Worst, PartialsStayWithinRisk, Between, Early, AtOpening;
    var t := Resolved(rules, AtOpening(terms), Flat(time, Between(terms)), n + 1);
    TheLosingLife(rules, terms);
    TheSecondBarBooksTheRest(rules, t, time, n + 2);
    hide LosingBars;
  }
}
