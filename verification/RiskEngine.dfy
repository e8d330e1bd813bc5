/** The one place risk is decided: how much, and whether a candidate may trade at all. */
module RiskEngine {
  import opened Wrappers
  import opened Prices
  import opened Symbols
  import opened Rounding
  import opened Sessions
  import opened Sizing
  import opened Correlation

  datatype Tier = NoTier | TierB | TierA | TierAPlus

  datatype Limits = Limits(
    baseRiskPct: real, minRiskPct: real, maxRiskPct: real,
    maxPortfolioRiskPct: real, maxCorrelatedRiskPct: real, correlationThreshold: real,
    maxDailyLossPct: real, maxDrawdownPct: real, drawdownDeriskPct: real,
    maxOpenPositions: nat, maxOpenPerSymbol: nat, maxConsecutiveLosses: nat,
    maxTradesPerDay: nat, maxTradesPerSession: nat,
    minRiskReward: real, rewardEnabled: bool, minRewardR: real,
    lossCooldown: int, failureCooldown: int, symbolLockLosses: nat)
  {
    /** The part of the start-up validation that the percentage arithmetic relies on. */
    ghost predicate Validated() { 0.0 < minRiskPct <= baseRiskPct <= maxRiskPct }
  }

  datatype Account = Account(
    balance: real, equity: real, availableMargin: real, peakEquity: real,
    dailyRealizedPnl: real, openPnl: real,
    tradesToday: nat, tradesThisSession: nat, consecutiveLosses: nat,
    openPositions: seq<Position>,
    lastLossAt: Option<int>, lastFailureAt: Option<int>, tradedSetups: set<string>, recentLosses: map<string, nat>)
  {
    function Drawdown(): real { DrawdownOf(equity, peakEquity) }

    function DailyPnl(): real { dailyRealizedPnl + openPnl }

    /** The daily result at which trading stops. */
    function DailyFloor(limits: Limits): real { -(balance * limits.maxDailyLossPct) }
  }

  /** How far below its peak an account is, as a share of the peak; negative above it. */
  function FallFromPeak(equity: real, peak: real): real { if peak > 0.0 then (peak - equity) / peak else 0.0 }

  function DrawdownOf(equity: real, peak: real): real { Max(0.0, FallFromPeak(equity, peak)) }

  datatype Candidate = Candidate(
    symbol: string, direction: Direction, entry: real, stopLoss: real, takeProfit: real, riskReward: real, setup: string)

  // ---------------------------------------------------------------- the percentage

  function TierFactor(tier: Tier): (f: real)
    ensures f > 0.0
  {
    match tier
    case TierAPlus => 1.4
    case TierA => 1.15
    case TierB => 0.75
    case NoTier => 1.0
  }

  /** The first tier risks no more than the second: B below none at all, then A, then A+. */
  predicate NoBetterTier(worse: Tier, better: Tier) {
    worse == better || worse == TierB || better == TierAPlus || (worse == NoTier && better == TierA)
  }

  lemma TiersScaleInOrder(worse: Tier, better: Tier)
    ensures NoBetterTier(worse, better) <==> TierFactor(worse) <= TierFactor(better)
  {
  }

  function DrawdownFactor(limits: Limits, drawdown: real): (f: real)
    ensures 0.4 <= f <= 1.0
  {
    if drawdown < limits.drawdownDeriskPct then 1.0
    else
      var span := if limits.maxDrawdownPct - limits.drawdownDeriskPct > 0.000000001
                  then limits.maxDrawdownPct - limits.drawdownDeriskPct else 0.000000001;
      var progress := (drawdown - limits.drawdownDeriskPct) / span;
      1.0 - 0.6 * (if progress > 1.0 then 1.0 else progress)
  }

  function StreakFactor(losses: nat): (f: real)
    ensures 0.5 <= f <= 1.0
  {
    if losses < 2 then 1.0
    else
      var f := 1.0 - 0.2 * (losses - 1) as real;
      if f < 0.5 then 0.5 else f
  }

  function Clamped(limits: Limits, risk: real): real {
    var capped := if risk < limits.maxRiskPct then risk else limits.maxRiskPct;
    if capped > limits.minRiskPct then capped else limits.minRiskPct
  }

  function RiskPct(limits: Limits, tier: Tier, drawdown: real, losses: nat): real {
    Clamped(limits, Adjusted(limits.baseRiskPct, TierFactor(tier), DrawdownFactor(limits, drawdown), StreakFactor(losses)))
  }

  function Scale(risk: real, factor: real): real { risk * factor }

  function Adjusted(base: real, tier: real, drawdown: real, streak: real): real {
    Scale(Scale(Scale(base, tier), drawdown), streak)
  }

  /** Quality scales the base up or down; every adverse adjustment is applied after it; the clamp is last. */
  method RiskPercentage(limits: Limits, tier: Tier, account: Account) returns (risk: real)
    requires limits.Validated()
    ensures risk == RiskPct(limits, tier, account.Drawdown(), account.consecutiveLosses)
    ensures limits.minRiskPct <= risk <= limits.maxRiskPct
  {
    var drawdown, losses := account.Drawdown(), account.consecutiveLosses;
    ScalingByOneChangesNothing(limits, tier, drawdown);
    risk := limits.baseRiskPct;
    if tier != NoTier {
      risk := Scale(risk, TierFactor(tier));
    }
    if drawdown >= limits.drawdownDeriskPct {
      risk := Scale(risk, DrawdownFactor(limits, drawdown));
    }
    if losses >= 2 {
      risk := Scale(risk, StreakFactor(losses));
    }
    risk := Clamped(limits, risk);
  }

  lemma ScalingByOneChangesNothing(limits: Limits, tier: Tier, drawdown: real)
    ensures Scale(limits.baseRiskPct, 1.0) == limits.baseRiskPct
    ensures Scale(Scale(limits.baseRiskPct, TierFactor(tier)), 1.0) == Scale(limits.baseRiskPct, TierFactor(tier))
    ensures
      var derisked := Scale(Scale(limits.baseRiskPct, TierFactor(tier)), DrawdownFactor(limits, drawdown));
      Scale(derisked, 1.0) == derisked
  {
  }

  // ---------------------------------------------------------------- hard blocks

  /** When a candidate is judged, and what does not depend on the account. */
  datatype Scene = Scene(minute: int, killed: bool, sessions: SessionConfig)

  datatype Block =
    | KillSwitch | MarketClosed | ThinSession | Rollover | WeekendAhead
    | BalanceNotPositive | EquityNotPositive | DailyLossLimit | MaxDrawdown | LosingStreak
    | PositionsFull | UnpricedPosition | SymbolHeld
    | SetupTraded | SymbolBenched | DailyTradeLimit | SessionTradeLimit | LossCooldown | FailureCooldown

  /** What a block is about, in the order the reasons are gathered. */
  datatype Concern = Market | Money | Book | History

  function ConcernOf(block: Block): Concern {
    match block
    case KillSwitch | MarketClosed | ThinSession | Rollover | WeekendAhead => Market
    case BalanceNotPositive | EquityNotPositive | DailyLossLimit | MaxDrawdown | LosingStreak => Money
    case PositionsFull | UnpricedPosition | SymbolHeld => Book
    case _ => History
  }

  function HeldOn(positions: seq<Position>, symbol: string): nat {
    if positions == [] then 0
    else
      HeldOn(positions[..|positions| - 1], symbol)
      + (if SameInstrument(positions[|positions| - 1].symbol, symbol) then 1 else 0)
  }

  function Capitals(name: string): string { seq(|name|, i requires 0 <= i < |name| => Upper(name[i])) }

  /** Less than `cooldown` minutes have passed since something happened. */
  predicate CoolingDown(since: Option<int>, cooldown: int, minute: int) {
    since.Some? && minute - since.value < cooldown
  }

  /** The symbol is benched for its own recent losses; no benching unless a number of losses is set. */
  predicate Benched(limits: Limits, symbol: string, recentLosses: map<string, nat>) {
    && limits.symbolLockLosses > 0 && Capitals(symbol) in recentLosses
    && recentLosses[Capitals(symbol)] >= limits.symbolLockLosses
  }

  /** Whether one block stands against this candidate. */
  ghost predicate Stands(limits: Limits, c: Candidate, account: Account, scene: Scene, block: Block) {
    match block
    case KillSwitch => scene.killed
    case MarketClosed => IsForexWeekend(scene.minute)
    case ThinSession => !Tradeable(scene.minute, scene.sessions)
    case Rollover => RolloverBlackout(scene.minute, scene.sessions)
    case WeekendAhead => WeekendEntryBlackout(scene.minute, scene.sessions)
    case BalanceNotPositive => account.balance <= 0.0
    case EquityNotPositive => account.equity <= 0.0
    case DailyLossLimit => account.DailyPnl() <= account.DailyFloor(limits)
    case MaxDrawdown => account.Drawdown() >= limits.maxDrawdownPct
    case LosingStreak => account.consecutiveLosses >= limits.maxConsecutiveLosses
    case PositionsFull => |account.openPositions| >= limits.maxOpenPositions
    case UnpricedPosition => exists p :: p in account.openPositions && p.risk.None?
    case SymbolHeld => HeldOn(account.openPositions, c.symbol) >= limits.maxOpenPerSymbol
    case SetupTraded => c.setup != "" && c.setup in account.tradedSetups
    case SymbolBenched => Benched(limits, c.symbol, account.recentLosses)
    case DailyTradeLimit => account.tradesToday >= limits.maxTradesPerDay
    case SessionTradeLimit => account.tradesThisSession >= limits.maxTradesPerSession
    case LossCooldown => CoolingDown(account.lastLossAt, limits.lossCooldown, scene.minute)
    case FailureCooldown => CoolingDown(account.lastFailureAt, limits.failureCooldown, scene.minute)
  }

  lemma NothingStands(limits: Limits, c: Candidate, account: Account, scene: Scene)
    requires forall b :: !Stands(limits, c, account, scene, b)
    ensures account.equity > 0.0 && forall p :: p in account.openPositions ==> p.risk.Some?
  {
    hide HeldOn, DrawdownOf, Account.Drawdown;
    assert !Stands(limits, c, account, scene, EquityNotPositive);
    assert !Stands(limits, c, account, scene, UnpricedPosition);
  }

  /** The blocks that stand. */
  method HardBlocks(limits: Limits, c: Candidate, account: Account, scene: Scene) returns (reasons: set<Block>)
    requires scene.sessions.Valid()
    ensures forall b :: b in reasons <==> Stands(limits, c, account, scene, b)
  {
    hide Stands, ConcernOf;
    var market := MarketBlocks(limits, c, account, scene);
    var money := MoneyBlocks(limits, c, account, scene);
    var book := BookBlocks(limits, c, account, scene);
    var history := HistoryBlocks(limits, c, account, scene);
    reasons := market + money + book + history;
  }

  method MarketBlocks(limits: Limits, c: Candidate, account: Account, scene: Scene) returns (reasons: set<Block>)
    ensures forall b :: b in reasons <==> ConcernOf(b) == Market && Stands(limits, c, account, scene, b)
  {
    var rollover := InRolloverBlackout(scene.minute, scene.sessions);
    hide When, IsForexWeekend, Tradeable, RolloverBlackout, WeekendEntryBlackout;
    reasons := When(scene.killed, KillSwitch);
    reasons := reasons + When(IsForexWeekend(scene.minute), MarketClosed);
    reasons := reasons + When(!Tradeable(scene.minute, scene.sessions), ThinSession);
    reasons := reasons + When(rollover, Rollover);
    reasons := reasons + When(WeekendEntryBlackout(scene.minute, scene.sessions), WeekendAhead);
  }

  method MoneyBlocks(limits: Limits, c: Candidate, account: Account, scene: Scene) returns (reasons: set<Block>)
    ensures forall b :: b in reasons <==> ConcernOf(b) == Money && Stands(limits, c, account, scene, b)
  {
    hide When, DrawdownOf, Account.Drawdown, Account.DailyPnl, Account.DailyFloor;
    reasons := When(account.balance <= 0.0, BalanceNotPositive);
    reasons := reasons + When(account.equity <= 0.0, EquityNotPositive);
    reasons := reasons + When(account.DailyPnl() <= account.DailyFloor(limits), DailyLossLimit);
    reasons := reasons + When(account.Drawdown() >= limits.maxDrawdownPct, MaxDrawdown);
    reasons := reasons + When(account.consecutiveLosses >= limits.maxConsecutiveLosses, LosingStreak);
  }

  method BookBlocks(limits: Limits, c: Candidate, account: Account, scene: Scene) returns (reasons: set<Block>)
    ensures forall b :: b in reasons <==> ConcernOf(b) == Book && Stands(limits, c, account, scene, b)
  {
    var held := CountHeld(account.openPositions, c.symbol);
    hide When, HeldOn;
    reasons := When(|account.openPositions| >= limits.maxOpenPositions, PositionsFull);
    reasons := reasons + When(exists p :: p in account.openPositions && p.risk.None?, UnpricedPosition);
    reasons := reasons + When(held >= limits.maxOpenPerSymbol, SymbolHeld);
  }

  method HistoryBlocks(limits: Limits, c: Candidate, account: Account, scene: Scene) returns (reasons: set<Block>)
    ensures forall b :: b in reasons <==> ConcernOf(b) == History && Stands(limits, c, account, scene, b)
  {
    hide When, Benched, CoolingDown;
    reasons := When(c.setup != "" && c.setup in account.tradedSetups, SetupTraded);
    reasons := reasons + When(Benched(limits, c.symbol, account.recentLosses), SymbolBenched);
    reasons := reasons + When(account.tradesToday >= limits.maxTradesPerDay, DailyTradeLimit);
    reasons := reasons + When(account.tradesThisSession >= limits.maxTradesPerSession, SessionTradeLimit);
    reasons := reasons + When(CoolingDown(account.lastLossAt, limits.lossCooldown, scene.minute), LossCooldown);
    reasons := reasons + When(CoolingDown(account.lastFailureAt, limits.failureCooldown, scene.minute), FailureCooldown);
  }

  /** One reason, when its condition holds. */
  function When(condition: bool, reason: Block): (r: set<Block>)
    ensures forall b :: b in r <==> condition && b == reason
  {
    if condition then {reason} else {}
  }

  method CountHeld(positions: seq<Position>, symbol: string) returns (held: nat)
    ensures held == HeldOn(positions, symbol)
  {
    held := 0;
    for i := 0 to |positions|
      invariant held == HeldOn(positions[..i], symbol)
    {
      assert positions[..i + 1][..i] == positions[..i];
      if SameInstrument(positions[i].symbol, symbol) {
        held := held + 1;
      }
    }
    assert positions[..|positions|] == positions;
  }

  // ---------------------------------------------------------------- the decision

  /** A share of equity in whole cents. */
  function RiskMoney(equity: real, pct: real): real { Round2(equity * pct) }

  /** The money an account in this state may lose on a setup of this tier. */
  function Budget(limits: Limits, tier: Tier, equity: real, peak: real, losses: nat): real {
    RiskMoney(equity, RiskPct(limits, tier, DrawdownOf(equity, peak), losses))
  }

  datatype Refusal =
    | Blocked(reasons: set<Block>) | BadLevels | LowRatio | SizingRefused(error: SizingError)
    | OverBudget | PortfolioCap | CorrelatedCap | RewardObjective

  datatype Decision =
    | Declined(refusal: Refusal)
    | Approved(riskPct: real, riskAmount: real, size: PositionSize, exposure: ExposureReport)

  predicate LevelsOrdered(c: Candidate) {
    match c.direction
    case Buy => c.stopLoss < c.entry < c.takeProfit
    case Sell => c.takeProfit < c.entry < c.stopLoss
  }

  /** What an account's own budget buys of a candidate. */
  function SizeFor(
    limits: Limits, c: Candidate, tier: Tier, account: Account, spec: InstrumentSpec, lookup: Option<RateLookup>,
    leverage: Option<real>): Result<PositionSize, SizingError>
  {
    SizeOf(spec, Budget(limits, tier, account.equity, account.peakEquity, account.consecutiveLosses),
           c.entry, c.stopLoss, lookup, leverage, Some(account.availableMargin))
  }

  /** Total and correlated risk, a trade of this risk included, are within their shares of equity. */
  ghost predicate WithinCaps(limits: Limits, c: Candidate, account: Account, risk: real, rootTwo: real)
    requires IsRootTwo(rootTwo)
  {
    && TotalRisk(Entries(account.openPositions)) + risk <= account.equity * limits.maxPortfolioRiskPct
    && CorrelatedRisk(Entry(c.symbol, c.direction, risk), Entries(account.openPositions), limits.correlationThreshold, rootTwo)
       <= account.equity * limits.maxCorrelatedRiskPct
  }

  /** The account's own size exists, keeps to its budget and fits under the caps. */
  ghost predicate SizeFits(
    limits: Limits, c: Candidate, tier: Tier, account: Account, spec: InstrumentSpec, lookup: Option<RateLookup>,
    leverage: Option<real>, rootTwo: real)
    requires IsRootTwo(rootTwo)
  {
    var sized := SizeFor(limits, c, tier, account, spec, lookup, leverage);
    && sized.Ok?
    && sized.value.actualRisk <= Budget(limits, tier, account.equity, account.peakEquity, account.consecutiveLosses) * 1.02
    && WithinCaps(limits, c, account, sized.value.actualRisk, rootTwo)
  }

  /** The gates that look only at the candidate. */
  predicate WorthTaking(limits: Limits, c: Candidate) {
    && LevelsOrdered(c) && c.riskReward >= limits.minRiskReward - R_EPSILON
    && (limits.rewardEnabled ==> c.riskReward >= limits.minRewardR - R_EPSILON)
  }

  /** What has to hold for a candidate to be approved. */
  ghost predicate Approves(
    limits: Limits, c: Candidate, tier: Tier, account: Account, spec: InstrumentSpec, lookup: Option<RateLookup>,
    leverage: Option<real>, scene: Scene, rootTwo: real)
    requires IsRootTwo(rootTwo)
  {
    && (forall b :: !Stands(limits, c, account, scene, b))
    && WorthTaking(limits, c) && SizeFits(limits, c, tier, account, spec, lookup, leverage, rootTwo)
  }

  /** The lots approved; none when the candidate is declined. */
  ghost function ApprovedLots(
    limits: Limits, c: Candidate, tier: Tier, account: Account, spec: InstrumentSpec, lookup: Option<RateLookup>,
    leverage: Option<real>, scene: Scene, rootTwo: real): real
    requires IsRootTwo(rootTwo)
  {
    if Approves(limits, c, tier, account, spec, lookup, leverage, scene, rootTwo)
    then LotsOf(SizeFor(limits, c, tier, account, spec, lookup, leverage)) else 0.0
  }

  /** Hard blocks, levels, ratio, size, caps, objective: the first gate that refuses decides. */
  method Evaluate(
    limits: Limits, c: Candidate, tier: Tier, account: Account, spec: InstrumentSpec, lookup: Option<RateLookup>,
    leverage: Option<real>, scene: Scene, rootTwo: real)
    returns (d: Decision)
    requires limits.Validated() && scene.sessions.Valid() && IsRootTwo(rootTwo)
    // approved exactly when every gate lets it through, at the size its own budget buys
    ensures d.Approved? <==> Approves(limits, c, tier, account, spec, lookup, leverage, scene, rootTwo)
    ensures d.Approved? ==>
              && d.riskAmount == Budget(limits, tier, account.equity, account.peakEquity, account.consecutiveLosses)
              && SizeFor(limits, c, tier, account, spec, lookup, leverage) == Ok(d.size)
              && ApprovedLots(limits, c, tier, account, spec, lookup, leverage, scene, rootTwo) == d.size.lots
    // the percentage is in its band, the money is that percentage of equity in whole cents
    ensures d.Approved? ==>
              && limits.minRiskPct <= d.riskPct <= limits.maxRiskPct
              && d.riskPct == RiskPct(limits, tier, account.Drawdown(), account.consecutiveLosses)
              && d.riskAmount == RiskMoney(account.equity, d.riskPct)
    // the exposure reported is that of the book with the trade in it
    ensures d.Approved? ==>
              && d.exposure.totalOpenRisk == TotalRisk(Entries(account.openPositions)) + d.size.actualRisk
              && d.exposure.correlatedRisk
                 == CorrelatedRisk(Entry(c.symbol, c.direction, d.size.actualRisk), Entries(account.openPositions),
                                   limits.correlationThreshold, rootTwo)
              && d.exposure.perCurrency
                 == PerCurrency(Entries(account.openPositions) + [Entry(c.symbol, c.direction, d.size.actualRisk)])
    // every open position was priced, so the caps saw the whole book
    ensures d.Approved? ==> |Entries(account.openPositions)| == |account.openPositions|
    // the gates are asked in order, and the first that is shut is the reason given
    ensures
      var sized := SizeFor(limits, c, tier, account, spec, lookup, leverage);
      var money := Budget(limits, tier, account.equity, account.peakEquity, account.consecutiveLosses);
      if exists b :: Stands(limits, c, account, scene, b) then d.Declined? && d.refusal.Blocked?
      else if !LevelsOrdered(c) then d == Declined(BadLevels)
      else if c.riskReward < limits.minRiskReward - R_EPSILON then d == Declined(LowRatio)
      else if sized.Err? then d == Declined(SizingRefused(sized.error))
      else if sized.value.actualRisk > money * 1.02 then d == Declined(OverBudget)
      else if TotalRisk(Entries(account.openPositions)) + sized.value.actualRisk > account.equity * limits.maxPortfolioRiskPct
      then d == Declined(PortfolioCap)
      else if CorrelatedRisk(Entry(c.symbol, c.direction, sized.value.actualRisk), Entries(account.openPositions),
                             limits.correlationThreshold, rootTwo) > account.equity * limits.maxCorrelatedRiskPct
      then d == Declined(CorrelatedCap)
      else if limits.rewardEnabled && c.riskReward < limits.minRewardR - R_EPSILON then d == Declined(RewardObjective)
      else d.Approved?
    // a refusal names a reason that holds
    ensures d.Declined? && d.refusal.Blocked? ==>
              && d.refusal.reasons != {}
              && forall b :: b in d.refusal.reasons <==> Stands(limits, c, account, scene, b)
    ensures d == Declined(BadLevels) ==> !LevelsOrdered(c)
    ensures d == Declined(LowRatio) ==> c.riskReward < limits.minRiskReward - R_EPSILON
    ensures d == Declined(RewardObjective) ==> limits.rewardEnabled && c.riskReward < limits.minRewardR - R_EPSILON
    ensures d.Declined? && (d.refusal.SizingRefused? || d.refusal in {OverBudget, PortfolioCap, CorrelatedCap}) ==>
              var money := Budget(limits, tier, account.equity, account.peakEquity, account.consecutiveLosses);
              var sized := SizeFor(limits, c, tier, account, spec, lookup, leverage);
              && (d.refusal.SizingRefused? ==> sized == Err(d.refusal.error))
              && (d.refusal == OverBudget ==> sized.Ok? && sized.value.actualRisk > money * 1.02)
              && (d.refusal == PortfolioCap ==>
                    && sized.Ok?
                    && TotalRisk(Entries(account.openPositions)) + sized.value.actualRisk
                       > account.equity * limits.maxPortfolioRiskPct)
              && (d.refusal == CorrelatedCap ==>
                    && sized.Ok?
                    && CorrelatedRisk(Entry(c.symbol, c.direction, sized.value.actualRisk), Entries(account.openPositions),
                                      limits.correlationThreshold, rootTwo)
                       > account.equity * limits.maxCorrelatedRiskPct)
    // with a lot step on the grid the last-resort budget check never fires
    ensures spec.StepOnGrid() && spec.minLot > 0.0 ==> d != Declined(OverBudget)
  {
    hide *;
    var reasons := HardBlocks(limits, c, account, scene);
    ApprovesUnfolds(limits, c, tier, account, spec, lookup, leverage, scene, rootTwo);
    if reasons != {} {
      return Declined(Blocked(reasons));
    }
    NothingStands(limits, c, account, scene);
    if !LevelsOrdered(c) {
      return Declined(BadLevels);
    }
    if c.riskReward < limits.minRiskReward - R_EPSILON {
      return Declined(LowRatio);
    }
    var riskPct := RiskPercentage(limits, tier, account);
    var riskAmount := RiskMoney(account.equity, riskPct);
    SizeForUnfolds(limits, c, tier, account, spec, lookup, leverage);
    var sized := CalculatePositionSize(spec, riskAmount, c.entry, c.stopLoss, lookup, leverage, Some(account.availableMargin));
    if sized.Err? {
      return Declined(SizingRefused(sized.error));
    }
    var size := sized.value;
    if spec.StepOnGrid() && spec.minLot > 0.0 {
      SizedRiskIsWithinBudget(spec, riskAmount, c.entry, c.stopLoss, lookup, leverage, Some(account.availableMargin));
    }
    if size.actualRisk > riskAmount * 1.02 {
      return Declined(OverBudget);
    }
    var exposure := AnalyseExposure(
      account.openPositions, Entry(c.symbol, c.direction, size.actualRisk), limits.correlationThreshold, rootTwo);
    if exposure.totalOpenRisk > account.equity * limits.maxPortfolioRiskPct {
      return Declined(PortfolioCap);
    }
    if exposure.correlatedRisk > account.equity * limits.maxCorrelatedRiskPct {
      return Declined(CorrelatedCap);
    }
    if limits.rewardEnabled && c.riskReward < limits.minRewardR - R_EPSILON {
      return Declined(RewardObjective);
    }
    PricedBookIsComplete(account.openPositions);
    return Approved(riskPct, riskAmount, size, exposure);
  }

  /** The gates, spelled out in the terms the method compares. */
  lemma ApprovesUnfolds(
    limits: Limits, c: Candidate, tier: Tier, account: Account, spec: InstrumentSpec, lookup: Option<RateLookup>,
    leverage: Option<real>, scene: Scene, rootTwo: real)
    requires IsRootTwo(rootTwo)
    ensures
      var money := Budget(limits, tier, account.equity, account.peakEquity, account.consecutiveLosses);
      var sized := SizeFor(limits, c, tier, account, spec, lookup, leverage);
      Approves(limits, c, tier, account, spec, lookup, leverage, scene, rootTwo)
      <==> && (forall b :: !Stands(limits, c, account, scene, b))
           && LevelsOrdered(c) && c.riskReward >= limits.minRiskReward - R_EPSILON
           && (limits.rewardEnabled ==> c.riskReward >= limits.minRewardR - R_EPSILON)
           && sized.Ok? && sized.value.actualRisk <= money * 1.02
           && TotalRisk(Entries(account.openPositions)) + sized.value.actualRisk
              <= account.equity * limits.maxPortfolioRiskPct
           && CorrelatedRisk(Entry(c.symbol, c.direction, sized.value.actualRisk), Entries(account.openPositions),
                             limits.correlationThreshold, rootTwo)
              <= account.equity * limits.maxCorrelatedRiskPct
    ensures Approves(limits, c, tier, account, spec, lookup, leverage, scene, rootTwo) ==>
              ApprovedLots(limits, c, tier, account, spec, lookup, leverage, scene, rootTwo)
              == SizeFor(limits, c, tier, account, spec, lookup, leverage).value.lots
  {
    hide Stands, LevelsOrdered, SizeFor, Budget, TotalRisk, CorrelatedRisk;
  }

  lemma SizeForUnfolds(
    limits: Limits, c: Candidate, tier: Tier, account: Account, spec: InstrumentSpec, lookup: Option<RateLookup>,
    leverage: Option<real>)
    ensures
      var money := RiskMoney(account.equity, RiskPct(limits, tier, account.Drawdown(), account.consecutiveLosses));
      && Budget(limits, tier, account.equity, account.peakEquity, account.consecutiveLosses) == money
      && SizeFor(limits, c, tier, account, spec, lookup, leverage)
         == SizeOf(spec, money, c.entry, c.stopLoss, lookup, leverage, Some(account.availableMargin))
  {
    hide SizeOf, RiskPct, DrawdownOf, RiskMoney;
  }

  lemma {:induction false} PricedBookIsComplete(positions: seq<Position>)
    requires forall p :: p in positions ==> p.risk.Some?
    ensures |Entries(positions)| == |positions|
  {
    if positions != [] {
      assert positions[|positions| - 1] in positions;
      PricedBookIsComplete(positions[..|positions| - 1]);
    }
  }

  // ---------------------------------------------------------------- adverse state never buys more

  lemma LowerEquityMeansMoreDrawdown(less: real, more: real, peak: real)
    requires less <= more
    ensures DrawdownOf(less, peak) >= DrawdownOf(more, peak)
  {
  }

  lemma MoreDrawdownMeansASmallerFactor(limits: Limits, shallow: real, deep: real)
    requires shallow <= deep
    ensures DrawdownFactor(limits, deep) <= DrawdownFactor(limits, shallow)
  {
  }

  /** The percentage never rises with drawdown or with the losing streak, and never falls with a better tier. */
  lemma RiskPctIsMonotone(
    limits: Limits, worseTier: Tier, betterTier: Tier, shallow: real, deep: real, fewer: nat, longer: nat)
    requires limits.Validated() && shallow <= deep && fewer <= longer
    requires NoBetterTier(worseTier, betterTier)
    ensures RiskPct(limits, worseTier, deep, longer) <= RiskPct(limits, betterTier, shallow, fewer)
  {
    hide *;
    TiersScaleInOrder(worseTier, betterTier);
    MoreDrawdownMeansASmallerFactor(limits, shallow, deep);
    LongerStreakMeansASmallerFactor(fewer, longer);
    var worse := Adjusted(limits.baseRiskPct, TierFactor(worseTier), DrawdownFactor(limits, deep), StreakFactor(longer));
    var better := Adjusted(limits.baseRiskPct, TierFactor(betterTier), DrawdownFactor(limits, shallow), StreakFactor(fewer));
    FactorsMultiplyUp(limits, worseTier, betterTier, DrawdownFactor(limits, deep), DrawdownFactor(limits, shallow),
                      StreakFactor(longer), StreakFactor(fewer));
    ClampIsMonotone(limits, worse, better);
    RiskPctUnfolds(limits, worseTier, deep, longer);
    RiskPctUnfolds(limits, betterTier, shallow, fewer);
  }

  lemma RiskPctUnfolds(limits: Limits, tier: Tier, drawdown: real, losses: nat)
    ensures RiskPct(limits, tier, drawdown, losses)
            == Clamped(limits, Adjusted(limits.baseRiskPct, TierFactor(tier), DrawdownFactor(limits, drawdown), StreakFactor(losses)))
  {
  }

  lemma LongerStreakMeansASmallerFactor(fewer: nat, longer: nat)
    requires fewer <= longer
    ensures StreakFactor(longer) <= StreakFactor(fewer)
  {
  }

  lemma ClampIsMonotone(limits: Limits, a: real, b: real)
    requires a <= b
    ensures Clamped(limits, a) <= Clamped(limits, b)
  {
  }

  lemma FactorsMultiplyUp(limits: Limits, worse: Tier, better: Tier, d1: real, d2: real, s1: real, s2: real)
    requires limits.Validated() && 0.0 <= TierFactor(worse) <= TierFactor(better) && 0.0 <= d1 <= d2 && 0.0 <= s1 <= s2
    ensures Adjusted(limits.baseRiskPct, TierFactor(worse), d1, s1) <= Adjusted(limits.baseRiskPct, TierFactor(better), d2, s2)
  {
    var base, t1, t2 := limits.baseRiskPct, TierFactor(worse), TierFactor(better);
    assert base > 0.0;
    hide *;
    ScaleIsMonotone(base, base, t1, t2);
    ScaleIsMonotone(Scale(base, t1), Scale(base, t2), d1, d2);
    ScaleIsMonotone(Scale(Scale(base, t1), d1), Scale(Scale(base, t2), d2), s1, s2);
    AdjustedUnfolds(base, t1, d1, s1);
    AdjustedUnfolds(base, t2, d2, s2);
  }

  lemma AdjustedUnfolds(base: real, tier: real, drawdown: real, streak: real)
    ensures Adjusted(base, tier, drawdown, streak) == Scale(Scale(Scale(base, tier), drawdown), streak)
  {
  }

  lemma ScaleIsMonotone(a: real, b: real, c: real, d: real)
    requires 0.0 <= a <= b && 0.0 <= c <= d
    ensures 0.0 <= Scale(a, c) <= Scale(b, d)
  {
  }

  lemma RiskMoneyIsMonotone(less: real, more: real, p: real, q: real)
    requires 0.0 <= less <= more && 0.0 <= p <= q
    ensures RiskMoney(less, p) <= RiskMoney(more, q)
  {
    ProductIsMonotone(less, more, p, q);
    RoundingIsMonotone(less * p, more * q);
  }

  /** The lots the engine sizes for an account state, before the margin and portfolio gates; zero when it declines. */
  function SizedLots(
    limits: Limits, spec: InstrumentSpec, tier: Tier, equity: real, peak: real, losses: nat,
    entry: real, stopLoss: real, lookup: Option<RateLookup>): real
  {
    LotsOf(SizeOf(spec, Budget(limits, tier, equity, peak, losses), entry, stopLoss, lookup, None, None))
  }

  /**
   Two account states that differ only for the worse - lower equity, a longer streak, a
   lesser tier - never get more lots out of the worse one: through de-risking, the clamp,
   cent rounding, rounding down to the lot step, the minimum and the broker's maximum.
   */
  lemma AdverseStateNeverBuysMore(
    limits: Limits, spec: InstrumentSpec, worseTier: Tier, betterTier: Tier,
    less: real, more: real, peak: real, longer: nat, fewer: nat,
    entry: real, stopLoss: real, lookup: Option<RateLookup>)
    requires limits.Validated() && less <= more && fewer <= longer
    requires NoBetterTier(worseTier, betterTier)
    requires (spec.lotStep <= 0.0 || spec.StepOnGrid()) && spec.minLot >= 0.0 && spec.maxLot >= 0.0
    ensures SizedLots(limits, spec, worseTier, less, peak, longer, entry, stopLoss, lookup)
            <= SizedLots(limits, spec, betterTier, more, peak, fewer, entry, stopLoss, lookup)
  {
    hide *;
    var b1, b2 := Budget(limits, worseTier, less, peak, longer), Budget(limits, betterTier, more, peak, fewer);
    if less > 0.0 {
      BudgetIsMonotone(limits, worseTier, betterTier, less, more, peak, longer, fewer);
      SmallerBudgetNeverBuysMore(spec, b1, b2, entry, stopLoss, lookup);
    } else {
      NoBudgetBuysNothing(spec, b1, entry, stopLoss, lookup);
      BudgetOfNothing(limits, worseTier, less, peak, longer);
      NoBudgetBuysNothing(spec, if b2 < 0.0 then b2 else 0.0, entry, stopLoss, lookup);
      SmallerBudgetNeverBuysMore(spec, if b2 < 0.0 then b2 else 0.0, b2, entry, stopLoss, lookup);
    }
    SizedLotsUnfold(limits, spec, worseTier, less, peak, longer, entry, stopLoss, lookup);
    SizedLotsUnfold(limits, spec, betterTier, more, peak, fewer, entry, stopLoss, lookup);
  }

  lemma SizedLotsUnfold(
    limits: Limits, spec: InstrumentSpec, tier: Tier, equity: real, peak: real, losses: nat,
    entry: real, stopLoss: real, lookup: Option<RateLookup>)
    ensures SizedLots(limits, spec, tier, equity, peak, losses, entry, stopLoss, lookup)
            == LotsOf(SizeOf(spec, Budget(limits, tier, equity, peak, losses), entry, stopLoss, lookup, None, None))
  {
  }

  lemma BudgetIsMonotone(
    limits: Limits, worseTier: Tier, betterTier: Tier, less: real, more: real, peak: real, longer: nat, fewer: nat)
    requires limits.Validated() && 0.0 < less <= more && fewer <= longer
    requires NoBetterTier(worseTier, betterTier)
    ensures Budget(limits, worseTier, less, peak, longer) <= Budget(limits, betterTier, more, peak, fewer)
  {
    hide *;
    LowerEquityMeansMoreDrawdown(less, more, peak);
    var p := RiskPct(limits, worseTier, DrawdownOf(less, peak), longer);
    var q := RiskPct(limits, betterTier, DrawdownOf(more, peak), fewer);
    RiskPctIsMonotone(limits, worseTier, betterTier, DrawdownOf(more, peak), DrawdownOf(less, peak), fewer, longer);
    RiskPctIsPositive(limits, worseTier, DrawdownOf(less, peak), longer);
    RiskMoneyIsMonotone(less, more, p, q);
    BudgetUnfolds(limits, worseTier, less, peak, longer);
    BudgetUnfolds(limits, betterTier, more, peak, fewer);
  }

  lemma BudgetUnfolds(limits: Limits, tier: Tier, equity: real, peak: real, losses: nat)
    ensures Budget(limits, tier, equity, peak, losses)
            == RiskMoney(equity, RiskPct(limits, tier, DrawdownOf(equity, peak), losses))
  {
  }

  lemma RiskPctIsPositive(limits: Limits, tier: Tier, drawdown: real, losses: nat)
    requires limits.Validated()
    ensures RiskPct(limits, tier, drawdown, losses) > 0.0
  {
  }

  lemma BudgetOfNothing(limits: Limits, tier: Tier, equity: real, peak: real, losses: nat)
    requires limits.Validated() && equity <= 0.0
    ensures Budget(limits, tier, equity, peak, losses) <= 0.0
  {
  }

  lemma NoBudgetBuysNothing(spec: InstrumentSpec, budget: real, entry: real, stopLoss: real, lookup: Option<RateLookup>)
    ensures budget <= 0.0 ==> LotsOf(SizeOf(spec, budget, entry, stopLoss, lookup, None, None)) == 0.0
  {
  }

  // ---------------------------------------------------------------- and approvals

  /** One event happened no later than another, or not at all. */
  predicate NoLater(a: Option<int>, b: Option<int>) { a.Some? ==> b.Some? && a.value <= b.value }

  /**
   The better of two states of an account, on the same open positions and under the same
   peak: no less money, no worse a day, no more trades or losses, none of them more recent,
   and no setup or loss on its record that the other has not. The margin may be anything.
   */
  ghost predicate NoWorse(better: Account, worse: Account) {
    && better.peakEquity == worse.peakEquity && better.openPositions == worse.openPositions
    && worse.balance <= better.balance && worse.equity <= better.equity
    && worse.dailyRealizedPnl <= better.dailyRealizedPnl && worse.openPnl <= better.openPnl
    && better.tradesToday <= worse.tradesToday && better.tradesThisSession <= worse.tradesThisSession
    && better.consecutiveLosses <= worse.consecutiveLosses
    && NoLater(better.lastLossAt, worse.lastLossAt) && NoLater(better.lastFailureAt, worse.lastFailureAt)
    && better.tradedSetups <= worse.tradedSetups
    && (forall symbol :: symbol in better.recentLosses ==>
          symbol in worse.recentLosses && better.recentLosses[symbol] <= worse.recentLosses[symbol])
  }

  lemma DailyFloorFalls(limits: Limits, worse: Account, better: Account)
    requires worse.balance <= better.balance && limits.maxDailyLossPct >= 0.0
    ensures better.DailyFloor(limits) <= worse.DailyFloor(limits)
  {
    assert (better.balance - worse.balance) * limits.maxDailyLossPct >= 0.0;
  }

  /** A better state meets no block that the worse one does not. */
  lemma BetterIsBlockedByNoMore(limits: Limits, c: Candidate, worse: Account, better: Account, scene: Scene)
    requires NoWorse(better, worse) && limits.maxDailyLossPct >= 0.0
    requires forall b :: !Stands(limits, c, worse, scene, b)
    ensures forall b :: !Stands(limits, c, better, scene, b)
  {
    LowerEquityMeansMoreDrawdown(worse.equity, better.equity, worse.peakEquity);
    DailyFloorFalls(limits, worse, better);
    forall b | Stands(limits, c, better, scene, b) ensures Stands(limits, c, worse, scene, b) {
      hide HeldOn, DrawdownOf, Account.DailyFloor, IsForexWeekend, Tradeable, RolloverBlackout, WeekendEntryBlackout, Capitals;
    }
  }

  /** The margin is a refusal and nothing else: a size that passes it is the size without it. */
  lemma MarginOnlyRefuses(
    spec: InstrumentSpec, budget: real, entry: real, stopLoss: real, lookup: Option<RateLookup>,
    leverage: Option<real>, margin: Option<real>)
    ensures
      var free := SizeOf(spec, budget, entry, stopLoss, lookup, None, None);
      var sized := SizeOf(spec, budget, entry, stopLoss, lookup, leverage, margin);
      && (sized.Ok? ==> free.Ok? && sized.value.lots == free.value.lots && sized.value.actualRisk == free.value.actualRisk)
      && (leverage.None? && free.Ok? ==> sized.Ok?)
  {
    hide InstrumentSpec.RoundLot, LossPerLot, MoneyAtRisk, ConversionRate, LotsFor;
  }

  /** The lots of the better state's own size, whether or not a guard lets them through. */
  lemma SizesCompare(
    limits: Limits, c: Candidate, worseTier: Tier, betterTier: Tier, worse: Account, better: Account,
    spec: InstrumentSpec, lookup: Option<RateLookup>, leverage: Option<real>)
    requires limits.Validated() && NoWorse(better, worse) && NoBetterTier(worseTier, betterTier)
    requires (spec.lotStep <= 0.0 || spec.StepOnGrid()) && spec.minLot >= 0.0 && spec.maxLot >= 0.0 && worse.equity > 0.0
    ensures
      var a := SizeFor(limits, c, worseTier, worse, spec, lookup, leverage);
      var b := SizeFor(limits, c, betterTier, better, spec, lookup, leverage);
      && LotsOf(a) >= 0.0 && LotsOf(b) >= 0.0
      && (a.Ok? && b.Ok? ==> LotsOf(a) <= LotsOf(b))
      && (a.Ok? && leverage.None? ==> b.Ok?)
  {
    hide *;
    var less := Budget(limits, worseTier, worse.equity, worse.peakEquity, worse.consecutiveLosses);
    var more := Budget(limits, betterTier, better.equity, better.peakEquity, better.consecutiveLosses);
    var a := SizeFor(limits, c, worseTier, worse, spec, lookup, leverage);
    var b := SizeFor(limits, c, betterTier, better, spec, lookup, leverage);
    NoWorseUnfolds(worse, better);
    BudgetIsMonotone(limits, worseTier, betterTier, worse.equity, better.equity, worse.peakEquity,
                     worse.consecutiveLosses, better.consecutiveLosses);
    SizeIsBought(limits, c, worseTier, worse, spec, lookup, leverage);
    SizeIsBought(limits, c, betterTier, better, spec, lookup, leverage);
    SmallerBudgetNeverBuysMore(spec, less, more, c.entry, c.stopLoss, lookup);
    if a.Ok? {
      MoreStillSizes(spec, less, more, c.entry, c.stopLoss, lookup);
    }
  }

  lemma NoWorseUnfolds(worse: Account, better: Account)
    requires NoWorse(better, worse)
    ensures worse.equity <= better.equity && better.consecutiveLosses <= worse.consecutiveLosses
    ensures better.peakEquity == worse.peakEquity
  {
  }

  lemma SizeIsBought(
    limits: Limits, c: Candidate, tier: Tier, account: Account, spec: InstrumentSpec, lookup: Option<RateLookup>,
    leverage: Option<real>)
    requires spec.minLot >= 0.0 && spec.maxLot >= 0.0
    ensures
      var sized := SizeFor(limits, c, tier, account, spec, lookup, leverage);
      var budget := Budget(limits, tier, account.equity, account.peakEquity, account.consecutiveLosses);
      var free := SizeOf(spec, budget, c.entry, c.stopLoss, lookup, None, None);
      && (sized.Ok? ==> free.Ok? && LotsOf(sized) == LotsOf(free))
      && (leverage.None? && free.Ok? ==> sized.Ok?)
      && LotsOf(sized) >= 0.0
  {
    var budget := Budget(limits, tier, account.equity, account.peakEquity, account.consecutiveLosses);
    MarginOnlyRefuses(spec, budget, c.entry, c.stopLoss, lookup, leverage, Some(account.availableMargin));
    hide SizeOf, Budget;
    if SizeOf(spec, budget, c.entry, c.stopLoss, lookup, None, None).Ok? {
      SizesAreNotNegative(spec, budget, c.entry, c.stopLoss, lookup);
    }
  }

  /**
   Two account states, one worse than the other, judged at one moment on one book. Where both
   are approved the worse gets no more lots. It gets strictly more exactly when it is approved for some
   and the better state's own, larger size breaks a guard: the margin, the budget, or the
   total or correlated cap.
   */
  lemma AdverseStateGetsMoreExactlyWhen(
    limits: Limits, c: Candidate, worseTier: Tier, betterTier: Tier, worse: Account, better: Account,
    spec: InstrumentSpec, lookup: Option<RateLookup>, leverage: Option<real>, scene: Scene, rootTwo: real)
    requires limits.Validated() && limits.maxDailyLossPct >= 0.0 && IsRootTwo(rootTwo) && NoWorse(better, worse)
    requires NoBetterTier(worseTier, betterTier)
    requires (spec.lotStep <= 0.0 || spec.StepOnGrid()) && spec.minLot >= 0.0 && spec.maxLot >= 0.0
    ensures Approves(limits, c, worseTier, worse, spec, lookup, leverage, scene, rootTwo)
            && Approves(limits, c, betterTier, better, spec, lookup, leverage, scene, rootTwo) ==>
              ApprovedLots(limits, c, worseTier, worse, spec, lookup, leverage, scene, rootTwo)
              <= ApprovedLots(limits, c, betterTier, better, spec, lookup, leverage, scene, rootTwo)
    ensures ApprovedLots(limits, c, worseTier, worse, spec, lookup, leverage, scene, rootTwo)
            > ApprovedLots(limits, c, betterTier, better, spec, lookup, leverage, scene, rootTwo)
            <==> && Approves(limits, c, worseTier, worse, spec, lookup, leverage, scene, rootTwo)
                 && LotsOf(SizeFor(limits, c, worseTier, worse, spec, lookup, leverage)) > 0.0
                 && !SizeFits(limits, c, betterTier, better, spec, lookup, leverage, rootTwo)
  {
    hide Stands, WorthTaking, SizeFor, LotsOf, WithinCaps, Budget, NoWorse, NoBetterTier, Limits.Validated, InstrumentSpec.StepOnGrid;
    if forall b :: !Stands(limits, c, worse, scene, b) {
      BetterIsBlockedByNoMore(limits, c, worse, better, scene);
      NothingStands(limits, c, worse, scene);
      SizesCompare(limits, c, worseTier, betterTier, worse, better, spec, lookup, leverage);
    } else {
      SizeIsBought(limits, c, betterTier, better, spec, lookup, leverage);
    }
  }

  /** With a lot step on the grid and no leverage, only a cap can be what the better state's size breaks. */
  lemma OnlyTheCapsAreBroken(
    limits: Limits, c: Candidate, worseTier: Tier, betterTier: Tier, worse: Account, better: Account,
    spec: InstrumentSpec, lookup: Option<RateLookup>, scene: Scene, rootTwo: real)
    requires limits.Validated() && limits.maxDailyLossPct >= 0.0 && IsRootTwo(rootTwo) && NoWorse(better, worse)
    requires NoBetterTier(worseTier, betterTier)
    requires spec.StepOnGrid() && spec.minLot > 0.0 && spec.maxLot >= 0.0
    requires Approves(limits, c, worseTier, worse, spec, lookup, None, scene, rootTwo)
    ensures
      var sized := SizeFor(limits, c, betterTier, better, spec, lookup, None);
      sized.Ok? && (SizeFits(limits, c, betterTier, better, spec, lookup, None, rootTwo)
                    <==> WithinCaps(limits, c, better, sized.value.actualRisk, rootTwo))
  {
    var money := Budget(limits, betterTier, better.equity, better.peakEquity, better.consecutiveLosses);
    hide Stands, WorthTaking, LotsOf, WithinCaps, Budget, NoWorse, NoBetterTier, Limits.Validated, InstrumentSpec.StepOnGrid, SizeOf;
    NothingStands(limits, c, worse, scene);
    SizesCompare(limits, c, worseTier, betterTier, worse, better, spec, lookup, None);
    SizedRiskIsWithinBudget(spec, money, c.entry, c.stopLoss, lookup, None, Some(better.availableMargin));
  }

  // ---------------------------------------------------------------- where it does get more

  const DEFAULTS := Limits(
    0.005, 0.0025, 0.01, 0.03, 0.015, 0.45, 0.03, 0.10, 0.05, 3, 1, 4, 6, 3, 1.2, true, 1.2, 45, 20, 0)

  const SETUP := Candidate("EURUSD", Buy, 1.11, 1.10, 1.13, 2.0, "")
  const EURUSD := InstrumentSpec("EURUSD", 100000.0, 0.00001, 0.01, 0.01, 100.0, "EUR", "USD", "USD")

  /** The default sessions, at nine on a Thursday. */
  const MORNING := Scene(
    540, false,
    SessionConfig(Hours(0, 8), Hours(7, 16), Hours(12, 21), {London, NewYork, Overlap}, true, Some(21), 45, 30, 4))

  /** Ten thousand at its peak, with 260 at risk on another pair. */
  function Stacked(losses: nat): Account {
    Account(10000.0, 10000.0, 9000.0, 10000.0, 0.0, 0.0, 0, 0, losses, [Position("AUDNZD", Buy, Some(260.0))],
            None, None, {}, map[])
  }

  lemma TheseTwoPairs()
    ensures SplitCurrencies("AUDNZD") == Some(("AUD", "NZD")) && CanonicalSymbol("AUDNZD") == Some("AUDNZD")
    ensures SplitCurrencies("EURUSD") == Some(("EUR", "USD")) && CanonicalSymbol("EURUSD") == Some("EURUSD")
  {
    assert "AUD" in CURRENCIES && "NZD" in CURRENCIES && "EUR" in CURRENCIES && "USD" in CURRENCIES;
    BarePairIsItself("AUD", "NZD");
    BarePairIsItself("EUR", "USD");
    hide CanonicalSymbol, SplitCurrencies;
    assert "AUD" + "NZD" == "AUDNZD" && "EUR" + "USD" == "EURUSD";
  }

  lemma TheseTwoShareNothing(rootTwo: real)
    requires IsRootTwo(rootTwo)
    ensures !SameInstrument("AUDNZD", "EURUSD") && CorrelationScore("EURUSD", Buy, "AUDNZD", Buy, rootTwo) == 0.0
  {
    TheseTwoPairs();
    hide CanonicalSymbol, SplitCurrencies, CorrelationScore;
    assert "AUDNZD"[0] != "EURUSD"[0];
    TwoLegScore("EURUSD", Buy, "AUDNZD", Buy, rootTwo);
  }

  lemma OneEntry(amount: Entry -> real, entry: Entry)
    ensures SumBy(amount, [entry]) == amount(entry)
  {
    assert [entry][..0] == [];
  }

  lemma StackedEntries(losses: nat)
    ensures Entries(Stacked(losses).openPositions) == [Entry("AUDNZD", Buy, 260.0)]
  {
    var position := Position("AUDNZD", Buy, Some(260.0));
    assert [position][..0] == [];
  }

  lemma NothingCorrelates(risk: real, rootTwo: real)
    requires IsRootTwo(rootTwo)
    ensures ShareOf(Entry("EURUSD", Buy, risk), 0.45, rootTwo)(Entry("AUDNZD", Buy, 260.0)) == 0.0
  {
    TheseTwoShareNothing(rootTwo);
    hide CorrelationScore, SameInstrument;
  }

  lemma WhatTheBookRisks(risk: real, losses: nat, rootTwo: real)
    requires IsRootTwo(rootTwo)
    ensures TotalRisk(Entries(Stacked(losses).openPositions)) == 260.0
    ensures CorrelatedRisk(Entry("EURUSD", Buy, risk), Entries(Stacked(losses).openPositions), 0.45, rootTwo) == risk
  {
    var entry := Entry("AUDNZD", Buy, 260.0);
    StackedEntries(losses);
    NothingCorrelates(risk, rootTwo);
    OneEntry(ShareOf(Entry("EURUSD", Buy, risk), 0.45, rootTwo), entry);
    OneEntry(RiskOf(), entry);
    hide ShareOf, SumBy, Entries;
  }

  /** The lots and the risk of a budget that buys n hundredths. */
  lemma WhatABudgetBuys(budget: real, n: nat)
    requires 1 <= n <= 10 && n as real <= budget / 10.0 < n as real + 0.9
    ensures
      var sized := SizeOf(EURUSD, budget, 1.11, 1.10, None, None, Some(9000.0));
      sized.Ok? && sized.value.lots == n as real / 100.0 && sized.value.actualRisk == n as real * 10.0
  {
    RoundsDownTo(budget, n);
    assert LossPerLot(EURUSD, 1.11, 1.10, 1.0) == 1000.0;
    hide InstrumentSpec.RoundLot, LossPerLot;
  }

  lemma RoundsDownTo(budget: real, n: nat)
    requires n as real <= budget / 10.0 < n as real + 0.9
    ensures EURUSD.RoundLot(budget / 1000.0) == n as real / 100.0
  {
    assert budget / 1000.0 / 0.01 == budget / 10.0;
    assert WholeSteps(budget / 1000.0, 0.01) == n;
    NearestOfAnInteger(n as real * 0.01 * 100000000.0, n * 1000000);
  }

  lemma BudgetsOfTheTwo()
    ensures Budget(DEFAULTS, TierA, 10000.0, 10000.0, 0) == 57.5 && Budget(DEFAULTS, TierA, 10000.0, 10000.0, 3) == 34.5
  {
    assert DrawdownOf(10000.0, 10000.0) == 0.0;
    assert RiskPct(DEFAULTS, TierA, 0.0, 0) == 0.00575 && RiskPct(DEFAULTS, TierA, 0.0, 3) == 0.00345;
    NearestOfAnInteger(5750.0, 5750);
    NearestOfAnInteger(3450.0, 3450);
  }

  /**
   A losing streak can open the door: with 260 already at risk and a 300 cap, the state
   without a streak sizes 0.05 lots and is declined by the portfolio cap; after three losses
   the same candidate sizes 0.03 lots and is approved.
   */
  lemma AStreakOpensTheDoor(rootTwo: real)
    requires IsRootTwo(rootTwo)
    ensures DEFAULTS.Validated() && NoWorse(Stacked(0), Stacked(3))
    ensures !Approves(DEFAULTS, SETUP, TierA, Stacked(0), EURUSD, None, None, MORNING, rootTwo)
    ensures Approves(DEFAULTS, SETUP, TierA, Stacked(3), EURUSD, None, None, MORNING, rootTwo)
    ensures LotsOf(SizeFor(DEFAULTS, SETUP, TierA, Stacked(0), EURUSD, None, None)) == 0.05
    ensures ApprovedLots(DEFAULTS, SETUP, TierA, Stacked(3), EURUSD, None, None, MORNING, rootTwo) == 0.03
  {
    BudgetsOfTheTwo();
    StackedSize(0, 57.5, 5);
    StackedSize(3, 34.5, 3);
    hide SizeFor, Approves, ApprovedLots;
    TooMuchForTheCap(rootTwo);
    LittleEnoughForTheCap(rootTwo);
    AStreakIsWorse();
    hide Stacked, NoWorse;
  }

  lemma AStreakIsWorse()
    ensures NoWorse(Stacked(0), Stacked(3))
  {
  }

  lemma StackedSize(losses: nat, budget: real, n: nat)
    requires 1 <= n <= 10 && n as real <= budget / 10.0 < n as real + 0.9
    requires Budget(DEFAULTS, TierA, 10000.0, 10000.0, losses) == budget
    ensures
      var sized := SizeFor(DEFAULTS, SETUP, TierA, Stacked(losses), EURUSD, None, None);
      sized.Ok? && LotsOf(sized) == sized.value.lots == n as real / 100.0 && sized.value.actualRisk == n as real * 10.0
  {
    hide Budget, SizeOf;
    WhatABudgetBuys(budget, n);
  }

  lemma TooMuchForTheCap(rootTwo: real)
    requires IsRootTwo(rootTwo)
    requires SizeFor(DEFAULTS, SETUP, TierA, Stacked(0), EURUSD, None, None).Ok?
    requires SizeFor(DEFAULTS, SETUP, TierA, Stacked(0), EURUSD, None, None).value.actualRisk == 50.0
    ensures !Approves(DEFAULTS, SETUP, TierA, Stacked(0), EURUSD, None, None, MORNING, rootTwo)
  {
    WhatTheBookRisks(50.0, 0, rootTwo);
    hide SizeFor, Budget, TotalRisk, CorrelatedRisk, Entries, Stands;
  }

  lemma LittleEnoughForTheCap(rootTwo: real)
    requires IsRootTwo(rootTwo) && Budget(DEFAULTS, TierA, 10000.0, 10000.0, 3) == 34.5
    requires SizeFor(DEFAULTS, SETUP, TierA, Stacked(3), EURUSD, None, None).Ok?
    requires SizeFor(DEFAULTS, SETUP, TierA, Stacked(3), EURUSD, None, None).value.actualRisk == 30.0
    ensures Approves(DEFAULTS, SETUP, TierA, Stacked(3), EURUSD, None, None, MORNING, rootTwo)
    ensures ApprovedLots(DEFAULTS, SETUP, TierA, Stacked(3), EURUSD, None, None, MORNING, rootTwo)
            == LotsOf(SizeFor(DEFAULTS, SETUP, TierA, Stacked(3), EURUSD, None, None))
  {
    NothingBlocksTheStreak();
    WhatTheBookRisks(30.0, 3, rootTwo);
    hide SizeFor, Budget, TotalRisk, CorrelatedRisk, Entries, Stands, LotsOf;
  }

  lemma MorningIsOpen()
    ensures !MORNING.killed && !IsForexWeekend(540) && Tradeable(540, MORNING.sessions)
    ensures !RolloverBlackout(540, MORNING.sessions) && !WeekendEntryBlackout(540, MORNING.sessions)
  {
  }

  lemma NothingHeld(losses: nat)
    ensures HeldOn(Stacked(losses).openPositions, "EURUSD") == 0
  {
    TheseTwoPairs();
    hide CanonicalSymbol, SplitCurrencies;
    assert "AUDNZD"[0] != "EURUSD"[0];
    assert Stacked(losses).openPositions[..0] == [];
  }

  lemma StackedMoney(losses: nat)
    ensures
      var account := Stacked(losses);
      account.Drawdown() == 0.0 && account.DailyFloor(DEFAULTS) == -300.0 && account.DailyPnl() == 0.0
  {
  }

  lemma StackedHistory(losses: nat)
    requires losses < 4
    ensures
      var account := Stacked(losses);
      && account.balance == account.equity == 10000.0 && account.consecutiveLosses < DEFAULTS.maxConsecutiveLosses
      && |account.openPositions| == 1 && account.openPositions[0].risk.Some?
      && account.tradesToday == account.tradesThisSession == 0
      && account.lastLossAt == account.lastFailureAt == None && account.recentLosses == map[]
  {
  }

  lemma DoesNotStand(losses: nat, b: Block)
    requires losses < 4
    ensures !Stands(DEFAULTS, SETUP, Stacked(losses), MORNING, b)
  {
    hide HeldOn, Account.Drawdown, Account.DailyFloor, Account.DailyPnl, Stacked;
    hide IsForexWeekend, Tradeable, RolloverBlackout, WeekendEntryBlackout, Capitals;
    MorningIsOpen();
    NothingHeld(losses);
    StackedMoney(losses);
    StackedHistory(losses);
  }

  lemma NothingBlocksTheStreak()
    ensures forall b :: !Stands(DEFAULTS, SETUP, Stacked(3), MORNING, b)
  {
    hide Stands;
    forall b ensures !Stands(DEFAULTS, SETUP, Stacked(3), MORNING, b) {
      DoesNotStand(3, b);
    }
  }
}
