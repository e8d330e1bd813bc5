/** How much is risked and what blocks a trade, told from the account's numbers. */
module RiskLaws {
  import opened Wrappers
  import opened Prices
  import opened Rounding
  import opened Symbols
  import opened Sessions
  import opened Correlation
  import opened RiskEngine

  /** What each tier makes of the base percentage. */
  lemma TiersScale(tier: Tier)
    ensures TierFactor(tier) == (if tier == TierAPlus then 1.4 else if tier == TierA then 1.15 else if tier == NoTier then 1.0 else 0.75)
  {
  }

  predicate IsProduct(x: real, a: real, b: real) { x == a * b }

  /** Nothing up to the threshold, then evenly down to two fifths at the maximum drawdown, and no further. */
  lemma DrawdownScales(limits: Limits, drawdown: real)
    requires limits.drawdownDeriskPct + 0.000000001 < limits.maxDrawdownPct
    ensures
      var factor, from, to := DrawdownFactor(limits, drawdown), limits.drawdownDeriskPct, limits.maxDrawdownPct;
      && (drawdown <= from ==> factor == 1.0)
      && (drawdown >= to ==> factor == 0.4)
      && (from <= drawdown <= to ==> IsProduct(0.6 * (drawdown - from), 1.0 - factor, to - from))
  {
    var from, span := limits.drawdownDeriskPct, limits.maxDrawdownPct - limits.drawdownDeriskPct;
    QuotientTimesDivisor(drawdown - from, span);
    QuotientReaches(drawdown - from, span, 1.0);
    if drawdown <= limits.maxDrawdownPct {
      QuotientReaches(from - drawdown, span, -1.0);
      assert (from - drawdown) / span == -((drawdown - from) / span);
    }
  }

  /** Two losses in a row cost a fifth, three two fifths, and more never more than half. */
  lemma StreaksScale(losses: nat)
    ensures StreakFactor(losses) == (if losses <= 1 then 1.0 else if losses == 2 then 0.8 else if losses == 3 then 0.6 else 0.5)
  {
  }

  function ProductOf(base: real, tier: real, drawdown: real, streak: real): real { base * tier * drawdown * streak }

  /** The percentage is the product of the base and the three factors, held to its band. */
  lemma PercentageIsTheProduct(limits: Limits, tier: Tier, drawdown: real, losses: nat)
    requires limits.Validated()
    ensures
      var pct := RiskPct(limits, tier, drawdown, losses);
      var product := ProductOf(limits.baseRiskPct, TierFactor(tier), DrawdownFactor(limits, drawdown), StreakFactor(losses));
      && (limits.minRiskPct <= product <= limits.maxRiskPct ==> pct == product)
      && (product < limits.minRiskPct ==> pct == limits.minRiskPct)
      && (product > limits.maxRiskPct ==> pct == limits.maxRiskPct)
  {
    hide TierFactor, DrawdownFactor, StreakFactor;
  }

  /** The money is a whole number of cents, the nearest to the share of equity. */
  lemma MoneyIsTheNearestCent(equity: real, pct: real, cents: int)
    ensures
      var money, share, other := RiskMoney(equity, pct), equity * pct, cents as real / 100.0;
      && money * 100.0 == (money * 100.0).Floor as real
      && (if money >= share then money - share else share - money) <= (if other >= share then other - share else share - other)
  {
    NoHundredthIsNearer(equity * pct, cents);
    hide Round2;
  }

  /** A fall of so much from the peak, in money. */
  lemma DrawdownReaches(equity: real, peak: real, share: real)
    ensures DrawdownOf(equity, peak) >= share <==> share <= 0.0 || (peak > 0.0 && peak - equity >= share * peak)
  {
    if peak > 0.0 {
      QuotientReaches(peak - equity, peak, share);
    }
  }

  function OnInstrument(positions: seq<Position>, symbol: string): set<nat> {
    set i: nat | i < |positions| && SameInstrument(positions[i].symbol, symbol)
  }

  lemma {:induction false} HeldIsTheCount(positions: seq<Position>, symbol: string)
    ensures HeldOn(positions, symbol) == |OnInstrument(positions, symbol)|
  {
    if positions != [] {
      var n := |positions| - 1;
      HeldIsTheCount(positions[..n], symbol);
      assert OnInstrument(positions, symbol)
             == OnInstrument(positions[..n], symbol) + (if SameInstrument(positions[n].symbol, symbol) then {n} else {});
    }
  }

  /** No less than a cooldown of minutes has passed since then, or it never happened. */
  predicate Cool(since: Option<int>, cooldown: int, minute: int) { since.None? || minute >= since.value + cooldown }

  /** Every block in the account's own numbers. */
  lemma BlocksStandExactlyWhen(limits: Limits, c: Candidate, account: Account, scene: Scene, block: Block)
    ensures
      Stands(limits, c, account, scene, block)
      <==> match block
           case KillSwitch => scene.killed
           case MarketClosed => IsForexWeekend(scene.minute)
           case ThinSession => !Tradeable(scene.minute, scene.sessions)
           case Rollover => RolloverBlackout(scene.minute, scene.sessions)
           case WeekendAhead => WeekendEntryBlackout(scene.minute, scene.sessions)
           case BalanceNotPositive => account.balance <= 0.0
           case EquityNotPositive => account.equity <= 0.0
           case DailyLossLimit => account.dailyRealizedPnl + account.openPnl + account.balance * limits.maxDailyLossPct <= 0.0
           case MaxDrawdown =>
             limits.maxDrawdownPct <= 0.0
             || (account.peakEquity > 0.0 && account.peakEquity - account.equity >= limits.maxDrawdownPct * account.peakEquity)
           case LosingStreak => account.consecutiveLosses >= limits.maxConsecutiveLosses
           case PositionsFull => |account.openPositions| >= limits.maxOpenPositions
           case UnpricedPosition => exists i :: 0 <= i < |account.openPositions| && account.openPositions[i].risk.None?
           case SymbolHeld => |OnInstrument(account.openPositions, c.symbol)| >= limits.maxOpenPerSymbol
           case SetupTraded => c.setup != "" && c.setup in account.tradedSetups
           case SymbolBenched =>
             limits.symbolLockLosses >= 1 && Capitals(c.symbol) in account.recentLosses
             && account.recentLosses[Capitals(c.symbol)] >= limits.symbolLockLosses
           case DailyTradeLimit => account.tradesToday >= limits.maxTradesPerDay
           case SessionTradeLimit => account.tradesThisSession >= limits.maxTradesPerSession
           case LossCooldown => !Cool(account.lastLossAt, limits.lossCooldown, scene.minute)
           case FailureCooldown => !Cool(account.lastFailureAt, limits.failureCooldown, scene.minute)
  {
    DrawdownReaches(account.equity, account.peakEquity, limits.maxDrawdownPct);
    HeldIsTheCount(account.openPositions, c.symbol);
    hide HeldOn, OnInstrument, Capitals, IsForexWeekend, Tradeable, RolloverBlackout, WeekendEntryBlackout, DrawdownOf;
  }
}
