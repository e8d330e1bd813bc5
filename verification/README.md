# Verified model of the trading bot

This project models four parts of the bot and proves what each is relied on for.

**The order protocol.** An execute persists an intent, looks for a duplicate at the broker and in the
intent table, marks SUBMITTED, sends once, persists the answer and polls for the position. A reconcile
settles every unresolved intent. `OrderProtocol` is the labelled step system over the intent table, the
broker's record and the program counter, with a crash possible after every step; `OrderSafety` proves
the safety of every run; `OrderSystem` is the executor, the reconciler and the selection loop as a class
whose log of writes and broker calls is always such a run. `Transport` is the HTTP layer underneath: the
classification of a request's fate, the circuit breaker and the throttle. `Ranking` orders contenders.

**Managing and simulating positions.** `Management` is the shared decision function and the live manager
that carries it out through the transport. `SimulatedTrade` is one simulated trade, `TradeOutcomes`
what each bar does to it in prices and times, `TradeSafety` what it keeps over any bars. `Backtest` is the
one-symbol engine, `BacktestLaws` when it trades and what it stakes, `BacktestSafety` its ledger and its
causality; `Portfolio`, `PortfolioLaws` and `PortfolioSafety` are the same for many symbols. `Windows` is what
a decision may see.

**Detection without look-ahead.** `Indicators`, `Swings`, `Displacement`, `Structure` and
`FairValueGaps` model the detectors as loops, each proved against a recursive specification, and prove
that analysing a prefix is filtering the analysis of the whole. `StructureLaws` says which bars carry an
event, in swings, closes and ATR. `Levels` prices a setup.

**Risk.** `Symbols`, `Rounding`, `Sizing` (with `SizingLaws`), `Correlation`, `Sessions` (the calendar of its
gates) and `RiskEngine` (with `RiskLaws`); `Prices` is arithmetic they all share.

Prices, lots and money are reals; times are reals, or whole minutes where bars and calendars are concerned; Python's `round` is rounding to nearest on a grid
with ties to even; the `1e-9` in lot rounding and the `1e-6` of R comparisons are explicit constants.

## Assumptions about the world

They are what `OrderProtocol.Enabled` and `OrderProtocol.Next` allow, and no more.

- Only this bot opens positions on the account.
- Executes are serialised by the scan lock, and a reconcile pass does not interleave with an execute.
- A 3xx or 4xx answer means the order was not accepted (sections 15.4 and 15.5 of RFC 9110); a 5xx, a
  lost reply or an unreadable body proves nothing (section 15.6).
- A reply cut off in its body, or not UTF-8, is an exception that no handler between the transport and the
  scheduler names (bot/broker/http.py:349-460, bot/service.py:237-248). It ends the execute, the reconcile or
  the round of management it occurs in, with nothing written.
- An order still in flight when a reconcile reads the positions never lands later, whether or not the history
  could then be read, and whatever it holds.
- A login that fails before a write (bot/broker/tradelocker.py:244-303) leaves the table as a write that
  failed that way and never landed; a login's own lost reply reads as an unknown outcome.
- The broker never reuses a position id and lists each position once.
- A persisted write is one atomic step.
- Execution ids are collision-free digests of instrument, side and rounded setup.

## Where the code and its own words disagree

The model follows the code in each case.

- README.md:173-175 and bot/storage/repositories.py:147-160 say a second order for one setup is
  impossible because the retryable states prove that no order exists. `reopen`
  (bot/storage/repositories.py:163-210) also admits a row abandoned because a reconcile found nothing. An
  order whose reply was lost and which filled and closed before the reconcile ends there, and re-arming it
  sends a second order: `OrderSafety.ReopenSecondOrder` is the run. After such a re-arm no row `reopen` admits
  proves anything (`OrderSafety.AReopenedRowProvesNothing`); of an id never re-armed so,
  `OrderSafety.RearmIsProvenSafeExactlyWhen` is the exact condition, and
  `OrderSafety.AtMostOneAcceptedOrderPerId` holds of it in every run, whatever was done to other ids.
- bot/orchestrator.py:332-333 says a failed reconcile means no new orders; `startup_complete` is set
  regardless (bot/orchestrator.py:389-404). `OrderSystem.OrderSystem.Startup` has both outcomes.
- bot/broker/http.py:397-430 means every write whose fate is unknown to be raised as such, and
  bot/execution/manager.py:403-409 has a partial recorded then, so that it is not repeated. A reply cut off in
  its body, or not UTF-8, is raised as neither, so a partial that took effect under one goes unrecorded and the
  next poll slices again: `Transport.PossiblyLandedWriteIsNeverReportedAsRefused` states the exception,
  `Management.OnePartialExactlyWhen` when the promise of one partial holds, `Management.TwoPollsSliceTwice` is
  the run.
- bot/backtest/engine.py:61-63 says R must keep being measured against the opening risk. The live manager
  overwrites the recorded stop with every move, and measures against the record.
  `Management.LiveRIsAgainstOpeningRiskExactlyWhen` says when the two agree: no recorded move, or a last one
  exactly as far from the entry as the opening stop (a trail recorded at exactly 2R). With trailing off, its
  default, `Management.BreakevenOnlyShrinksTheRisk` leaves only the first. One accepted break-even move at 1R
  makes the same price read 20R: `Management.OnePollReadsTwentyTimes`.
- bot/risk/engine.py:17-18 and docs/RISK_MANAGEMENT.md:83-84 have risk only move down for an adverse account
  state. Sizes do (`RiskEngine.AdverseStateNeverBuysMore`), but approvals need not: a losing streak can bring a
  size under a cap that refused the larger one (`RiskEngine.AStreakOpensTheDoor`).
  `RiskEngine.AdverseStateGetsMoreExactlyWhen` is the exact condition.
- A 5xx answer to a write raises before the breaker counts it (bot/broker/http.py:397-430), so writes answered
  5xx never open the circuit (`Transport.WritesAnswered5xxNeverCount`). A body that does not parse is counted
  as a success and then as a failure (bot/broker/http.py:354-356, 453-454), so however many come they open it
  only at a threshold of one (`Transport.UnparsableBodiesOpenExactlyWhen`).
- bot/broker/models.py:47-50 says lots are rounded down because rounding up would exceed the approved budget;
  without a positive step they are rounded to the nearest hundredth (bot/broker/models.py:51-52). The live
  builder turns a step of zero into 0.01 (bot/broker/tradelocker.py:782), so only a negative step in the
  broker's details reaches that branch. `Sizing.WithoutALotStepTheGuardMatters` says exactly which such specs
  overshoot which budgets; the check at bot/risk/engine.py:439 is what then refuses them.
- bot/marketdata/provider.py:50-59 explains why a backtest must see the live window; the portfolio run
  passes every closed bar instead (bot/backtest/portfolio.py:154-166), and so does `Portfolio.OfferOf`.
- bot/smc/engine.py refuses levels with words that rule out a projected target, yet `_build_levels`
  projects one at the minimum ratio when no pool pays: `Levels.BuiltLevelsAreStructural`.
- docs/EXECUTION_ENGINE.md:108-111 has an unreadable result recorded as 0.0; the code records it as unknown.

## Model

| member | source | states |
|---|---|---|
| OrderSafety.AtMostOneAcceptedOrderPerId | bot/execution/executor.py:187-319 | over every run of executes, crashes, restarts, reconciles and re-arms, the broker accepts at most one order for each execution id that was never re-armed on a row abandoned for "nothing found" |
| OrderSafety.SecondSendNeedsProof | bot/execution/executor.py:198-206 | such an id is sent only when every earlier order for it is proven never accepted |
| OrderSafety.ReopenSecondOrder | bot/storage/repositories.py:147-210 | the code as it is: for every id there is a run in which the broker accepts two orders for it |
| OrderSafety.RearmIsProvenSafeExactlyWhen | bot/storage/repositories.py:160-210 | of an id never re-armed on a nothing-found row, a row `reopen` admits proves that nothing was accepted if and only if its failure reason is not "nothing found" |
| OrderSafety.AReopenedRowProvesNothing | bot/storage/repositories.py:163-210 | the code as it is: for each row `reopen` can meet and every id there is a run that ends in that row although an order of the id was accepted |
| OrderSafety.RowsToReopenAreFour | bot/storage/repositories.py:163-210 | and it can meet no others: refused before sending, refused by the broker, never submitted, nothing found |
| OrderSafety.StatusIsSoundAfterAnyCrash | bot/execution/executor.py:187-346 | of an id never re-armed on a nothing-found row, after a crash at any point: CREATED, FAILED and never-submitted rows prove nothing was accepted; an accepted order's row is in doubt, FILLED, or abandoned for "nothing found" |
| OrderSafety.NeverTwoLiveOrdersOnAnInstrument | bot/execution/executor.py:97-141 | open positions plus orders that may still become one never exceed one per instrument, in every run |
| OrderSafety.MatchedPositionIsOwn | bot/execution/reconciler.py:104-116 | in every run, a position that a reconcile matches to an intent by symbol and side is the one its own order created if and only if the intent was submitted; one that an execute verifies always is |
| OrderSafety.CreatedRowCanAdoptAForeignPosition | bot/execution/reconciler.py:104-131 | the other case occurs: for every two such ids a run marks a CREATED row FILLED with the other id's position |
| OrderSafety.RestingRowsHaveNoLiveOrder | bot/execution/reconciler.py:149-158 | a created, failed or abandoned row has no order that is open or could still open |
| OrderSafety.RunKeepsInv | bot/execution/executor.py:161-373 | the invariant behind these is kept by every step of every run |
| OrderSafety.StepKeepsInv | bot/execution/executor.py:161-373 | and by each kind of step, environment steps included |
| OrderSafety.CautiousRunStaysTruthful | bot/storage/repositories.py:147-160 | what an id's persisted status proves is kept by every step that does not re-arm that id on a nothing-found row |
| OrderSafety.CrashAfterAnyStepIsARun | bot/execution/executor.py:190-206 | a process that dies after any step is in a state all of these speak about |
| OrderSystem.OrderSystem.PositionsCheck | bot/execution/executor.py:97-121 | the first half of the duplicate check: passes only on a readable list without a live position on the instrument, writes nothing, and a broken reply ends the execute |
| OrderSystem.OrderSystem.FreshDuplicateCheck | bot/execution/executor.py:97-141 | passes exactly on a readable position list with nothing on the instrument, as the market stood at the read, and no other unresolved intent on it; writes nothing |
| OrderSystem.OrderSystem.VerifyPosition | bot/execution/executor.py:375-391 | finds a position exactly when some readable poll, before any that breaks, has one of the plan's instrument and side open; it returns the broker's first such; a broken poll ends it exactly when none before it had one; it writes nothing |
| OrderSystem.OrderSystem.CheckAndMark | bot/execution/executor.py:208-250 | goes on to send if and only if the position list is readable with nothing on the instrument, no other unresolved intent is on it, the spread is fine and demo still holds; else which refusal, whether it concerns the symbol alone, and the row it leaves |
| OrderSystem.OrderSystem.SubmitAndVerify | bot/execution/executor.py:248-346 | sends exactly once; Done if and only if the order was accepted and the polls find it, Unverified if and only if they do not and none breaks, rejected exactly on an answer that proves refusal; the answer's id is kept, and the position recorded is the first that matches |
| OrderSystem.OrderSystem.Execute | bot/execution/executor.py:161-373 | an order leaves if and only if every gate is open to the plan (and the wire carries it); then it ends as the answer and the polls say, never aborted or duplicate; otherwise nothing is sent and the result says which gate was shut; DUPLICATE exactly on a row that may not be re-armed; a symbol-specific refusal exactly when the check or the spread refused; only its own row is touched |
| OrderSystem.OrderSystem.ResolveIntents | bot/execution/reconciler.py:96-165 | every intent unresolved at its start is settled, by its own history reading: FILLED with the broker's first matching position; failing that FILLED if the history holds the order it recorded; failing that ABANDONED; only an unresolved intent that no position matches and whose history reply breaks stops it; no other row changes |
| OrderSystem.PositionsAreInOrder | bot/execution/reconciler.py:104-116 | a read lists positions in the broker's order, so the first match of the list is the broker's first |
| OrderSystem.OrderSystem.Startup | bot/orchestrator.py:326-420 | completes whether or not positions could be read; a readable reconcile that completes has settled every unresolved row that way and touched no other |
| OrderSystem.OrderSystem.Reconcile | bot/execution/reconciler.py:74-94 | the periodic pass: settles every row when positions are readable, changes nothing when they are not |
| OrderSystem.OrderSystem.ExecuteBest | bot/orchestrator.py:1255-1280 | tries contenders best first and stops only at a fill or at a result that is not a symbol-specific refusal; when every gate is open to the best one its order goes out; one order at most, for the last one tried |
| OrderSystem.OrderSystem.Scan | bot/orchestrator.py:695-800 | is skipped for the first gate that is shut (start-up, pause, weekend, demo check, account read, kill switch) and then changes nothing; otherwise, with a slot free, it works down the ranking and the best contender open to every gate is sent; live orders are no more than before, or within the position limit plus what was in flight |
| OrderSystem.OrderSystem.RunScans | bot/orchestrator.py:675-800 | any number of scans, with the market moving and reconciles between them, is a sequence of such scans |
| OrderSystem.ScansKeepTheLimit | bot/orchestrator.py:695-726 | over any sequence of scans, each of which sees the effects of the last, positions never exceed the limit (or the number there was to begin with) |
| OrderSystem.LiveIsOpenOrInFlight | bot/orchestrator.py:695-726 | live orders are the open positions plus those in flight, so with none in flight the limit is exact |
| Ranking.RankingRanks | bot/orchestrator.py:1233-1253 | the ranking is a permutation, best first, and keeps the order of ties |
| Ranking.BetterComparesInTurn | bot/orchestrator.py:1242-1251 | grade, then score, then ratio, then expected profit, each deciding only ties on those before it |
| Transport.PossiblyLandedWriteIsNeverReportedAsRefused | bot/broker/http.py:349-460 | a write that may have landed is seen as accepted, unknown or an unhandled exception, never as refused; accepted or unknown if and only if it may have landed and its answer could be read |
| Transport.AnEscapeTellsNothing | bot/broker/http.py:349-372 | an unhandled exception does not tell whether the write landed |
| Transport.OutcomesMean | bot/broker/http.py:349-460 | what each outcome means on the wire: only a read fails plainly, only a write is unknown, and refusals are the 3xx and 4xx answers and the error envelopes |
| Transport.HttpTransport.Request | bot/broker/http.py:310-460 | a write leaves at most once; only plain failures are resent, and a read is resent while attempts remain; every attempt was let through by the breaker; the result is the last attempt's unless the circuit shed the next one; breaker, throttle and call counter end where the attempts put them |
| Transport.HttpTransport.Digest | bot/broker/http.py:352-460 | what one answer teaches the breaker, the throttle and the counters, an answer that cannot be read included |
| Transport.AnswersCountFor | bot/broker/http.py:352-460 | which answers the breaker counts as failures and successes, which earn speed, and that a 429 costs the stated Retry-After or a minute, whichever is longer |
| Transport.CircuitBreaker.BeforeCall | bot/broker/http.py:81-91 | whether a call may go out, and that one let through an open circuit is a probe |
| Transport.CircuitBreaker.RecordSuccess | bot/broker/http.py:93-98 | the state after a success |
| Transport.CircuitBreaker.RecordFailure | bot/broker/http.py:100-112 | the state after a failure; stored failures never exceed the threshold |
| Transport.OpensAtTheThreshold | bot/broker/http.py:81-112 | a closed circuit opens at the threshold's failure in a row and not before, and then lets a call through exactly after the first cooldown |
| Transport.CooldownsDouble | bot/broker/http.py:74-79 | the first opening waits the configured time, each further one twice the last, up to the ceiling |
| Transport.FailedProbesSpreadOut | bot/broker/http.py:74-112 | over any calls none of which succeeds, the j-th failed probe comes at least the first j cooldowns after the opening, and failures stay at the threshold |
| Transport.RequestsCompose | bot/broker/http.py:310-460 | requests one after another are one run of calls on the breaker, so what is proved of runs holds across requests |
| Transport.WritesAnswered5xxNeverCount | bot/broker/http.py:397-430 | any run of writes answered 5xx leaves failures, opening and cooldown as they were |
| Transport.UnparsableBodiesOpenExactlyWhen | bot/broker/http.py:352-356 | any number of unparsable bodies store one failure, so they open the circuit exactly at a threshold of one |
| Transport.SuccessRestoresTheFirstCooldown | bot/broker/http.py:93-98 | one success closes the circuit and restores the initial wait |
| Transport.Throttle.Wait | bot/broker/http.py:261-267 | completes no earlier than the interval and any standing penalty allow |
| Transport.Throttle.Penalise | bot/broker/http.py:226-242 | widens the interval within the band and extends, never shortens, the penalty |
| Transport.RefusalsWidenTheSpacing | bot/broker/http.py:226-242 | n refusals in a row multiply the spacing by 1.6 n times, up to the ceiling |
| Transport.PenaltiesHoldToTheLongest | bot/broker/http.py:226-242 | the penalty in force is the longest of theirs and the one there was |
| Transport.WaitsEndAtTheLatest | bot/broker/http.py:261-267 | a wait ends at the latest of its asking, the spacing and the penalty, plus the overshoot |
| Transport.IntervalStaysInBand | bot/broker/http.py:178-254 | the interval stays in its band over any interleaving of operations |
| Transport.WaitsAreSpacedAndServePenalties | bot/broker/http.py:226-267 | waits complete at least the interval then in force apart, and none before an earlier penalty has run out |
| Transport.RecoveryReachesTheFloor | bot/broker/http.py:244-254 | uninterrupted successes return the interval to the floor at exactly 40 x ceil((I - min) / 0.05) of them, not one earlier |
| Symbols.SameInstrumentIsSameDenotation | bot/broker/symbols.py:125-140 | two names are one instrument exactly when they denote the same pair, or the same letters |
| Symbols.SameInstrumentIsAnEquivalence | bot/broker/symbols.py:125-140 | reflexive, symmetric and transitive on all names |
| Symbols.SuffixKeepsTheInstrument | bot/broker/symbols.py:71-87 | a broker's suffix never changes the pair a name denotes |
| Management.ProposalsOnlyProtect | bot/execution/manager.py:80-199 | every proposed stop is tighter than the one in place and more than 0.02 of the measured risk behind the price; at most one partial, none once recorded or when partials are off |
| Management.PlanIsExactly | bot/execution/manager.py:80-199 | the whole plan in prices and times: break-even, partial, trailing stop, structure close and time stop, each if and only if its trigger is met, at those stops and that quantity, in that order |
| Management.ClosesExactlyWhen | bot/execution/manager.py:175-199 | the time stop is proposed if and only if the opening time is known, the age is at least the maximum and the gain is under half the measured risk; the structure close if and only if it is on, the structure is gone and the gain is under the risk |
| Management.NothingMeasuredNothingDone | bot/execution/manager.py:93-98 | without an entry (the fill, else the planned, else the broker's) or a stop (the recorded, else the broker's) nothing is proposed |
| Management.PartialsAreNearestHundredths | bot/execution/manager.py:135-149 | a partial is a whole number of hundredths of a lot, and none is nearer to its share |
| Management.TrailingStopIsOneRiskBehind | bot/execution/manager.py:150-173 | a trailing stop is exactly one measured risk behind the price |
| Management.RecordedBreakevenMultipliesRByTwenty | bot/execution/manager.py:349-353 | live, a recorded break-even stop multiplies the R of every price by twenty |
| Management.RecordedTrailDividesR | bot/execution/manager.py:150-173 | a trailing stop recorded at r divides the R of every price by the distance of r from one |
| Management.LiveRIsAgainstOpeningRiskExactlyWhen | bot/execution/manager.py:95-104 | after any run the R read at every price is R against the opening risk if and only if no moved stop was recorded, or the last is as far from the entry as the opening one |
| Management.BreakevenOnlyShrinksTheRisk | bot/execution/manager.py:106-133 | with trailing off, any recorded move leaves the measured risk at most a twentieth of the opening risk, so then the condition is that none was recorded |
| Management.OnePollReadsTwentyTimes | bot/execution/manager.py:349-353 | one poll at 1R whose break-even move is accepted leaves the same price reading 20R |
| Management.PositionManager.Apply | bot/execution/manager.py:343-438 | carries actions out one by one, all of them or up to the first that escapes; each that the record lets through is put to the breaker as the ones before left it, sent once if it is let through, and comes back as the world has it, leaving broker and records as specified |
| Management.PositionManager.ApplyTask | bot/execution/manager.py:347-437 | one action's report, its effect at the broker and the record of it, unknown outcomes and escapes included |
| Management.SentExactlyWhen | bot/execution/manager.py:317-341 | a voluntary close is sent if and only if the record prices no risk or the spread is readable and at most half of it; a stop move always; a partial unless it is of nothing |
| Management.TaskLeaves | bot/execution/manager.py:343-437 | what one task leaves at the broker and in the record, and that it leaves every other position and row alone |
| Management.ReportsMean | bot/execution/manager.py:343-437 | what each report says was sent and what the answer proved |
| Management.PollNeverLoosensAStop | bot/execution/manager.py:104-173 | from poll to poll no stop is loosened, even when break-even and trailing both fire or a write fails, is unknown or escapes |
| Management.TrackedPositionsAreManagedSafely | bot/execution/manager.py:343-429 | over any run of polls a tracked position takes exactly the partials that slipped (took effect under a reply without a handler) and those on record, of which there is at most one, none if one was on record before; its stop never loosens |
| Management.OnePartialExactlyWhen | bot/execution/manager.py:343-429 | after any run that leaves the position one that can still be sliced, no continuation without a further slip takes more than one partial in all, if and only if none has slipped, or one has and the partial on record never took effect |
| Management.ASlipAlwaysAllowsAnother | bot/execution/manager.py:356-362 | after any poll in which the partial slips, the next poll at the trigger takes a second |
| Management.TwoPollsSliceTwice | bot/execution/manager.py:135-149 | two polls take two partials: of a position without a row, and of one with a row when the replies break |
| SimulatedTrade.SimTrade.ResolveExit | bot/backtest/engine.py:574-612 | one bar's effect is the specified one (excursions, stop before target, management only when neither was touched), and whether it closed the trade |
| TradeOutcomes.BarClosesExactlyWhen | bot/backtest/engine.py:574-642 | in highs, lows and prices: after its entry bar a live trade closes at its stop less slippage if and only if the adverse extreme reaches it, else at the target price if and only if the favourable extreme does, else only by its management at the close; with the reason, the excursions, and the P/L and R of the lots still open |
| TradeOutcomes.NothingHappensOutside | bot/backtest/engine.py:577-578 | up to the entry bar and after the exit nothing happens |
| SimulatedTrade.SimTrade.Manage | bot/backtest/engine.py:498-572 | applies the shared plan in order up to the action that closes |
| TradeOutcomes.ManagesExactly | bot/backtest/engine.py:498-572 | in prices and times: which stop is in place after the bar, what a partial banks and leaves open, and that an expired trade closes with the rest |
| TradeOutcomes.PlanForIsExactly | bot/backtest/engine.py:498-545 | the plan a bar gets, measured from its favourable extreme against the opening stop |
| SimulatedTrade.SimTrade.Close | bot/backtest/engine.py:614-642 | books the open lots, in account currency less commission, and finishes the trade |
| TradeSafety.LossIsBounded | bot/backtest/engine.py:498-642 | over any bars a closed trade has lost at most its sized risk plus slippage and commission, where partials are off, trigger at -1R or better, or come to nothing |
| TradeSafety.LossIsBoundedExactlyWhen | bot/backtest/engine.py:498-642 | every life over every sequence of bars is bounded if and only if that is so; otherwise two bars past the entry exceed the bound for any terms |
| TradeSafety.BarKeepsSound | bot/backtest/engine.py:574-612 | one bar, whichever branch it takes, keeps the stop, the lots and the bound |
| TradeSafety.LotsAreConservedExactlyWhen | bot/backtest/engine.py:547-568 | lots closed equal lots opened exactly when no partial was taken, it took everything, or the lots are on the six-decimal grid |
| TradeSafety.PartialFillIsWithinRiskExactlyWhen | bot/backtest/engine.py:551-566 | a partial's fill price is within the stop distance and slippage exactly when its trigger is at or above -1R |
| TradeSafety.WorstIsRiskAndFrictions | bot/backtest/engine.py:614-642 | the bound is the sized risk plus slippage and commission on the lots |
| Backtest.Backtester.Propose | bot/backtest/engine.py:341-496 | the proposal: drawdown halt, live risk percentage, spread-paying entry, sizing, reward objective, spread guard, in that order |
| BacktestLaws.ProposedExactlyWhen | bot/backtest/engine.py:341-496 | each refusal if and only if its condition holds and none before it does, in money and prices, and the terms of the trade otherwise |
| BacktestLaws.ProposalsStakeTheShare | bot/backtest/engine.py:404-446 | a proposed trade's lots are what the risk percentage of the balance buys at its loss a lot, in whole steps, and its recorded risk is their loss at the stop |
| Backtest.Backtester.ManageOpen | bot/backtest/engine.py:287-300 | the open trade's bar, and the balance, peak and streak when it closes |
| Backtest.Backtester.Run | bot/backtest/engine.py:261-339 | the loop over sorted and bisected series is the run that looks only at closed bars, trade for trade |
| BacktestLaws.BarOpensExactlyWhen | bot/backtest/engine.py:283-339 | what one bar does: an open trade meets it and is booked if it closes; with nothing open, a bar on the step, outside the weekend and with 40 closed H1 bars opens a trade if and only if the visible windows propose one, and otherwise counts the reason |
| Windows.SliceH1 | bot/backtest/engine.py:277-320 | the H1 slice is exactly the last 300 bars closed by the cutoff |
| Windows.VisibleH1Is | bot/backtest/engine.py:314-320 | the H1 window is the latest 300 closed bars, or all of them, in time order |
| Windows.VisibleM15Is | bot/backtest/engine.py:313-314 | the M15 window is the bar and up to 399 before it |
| Windows.SortingCommutesWithClosing | bot/backtest/engine.py:277-320 | sorting everything and cutting shows what sorting only the closed bars shows |
| BacktestSafety.BacktestIsCausal | bot/backtest/engine.py:283-339 | M15 histories in time order and of one bar length, and H1 histories in any order, that agree on every bar closed by a cutoff give identical trades, balance and open position then, for any strategy |
| BacktestSafety.EveryRunIsConsistent | bot/backtest/engine.py:261-339 | positions never overlap, the balance is the start plus closed results, the peak and the streak are right, and every trade is sound |
| BacktestSafety.EveryRunIsBounded | bot/backtest/engine.py:498-642 | final balance and the loss bound of every closed trade in terms of its recorded risk |
| BacktestSafety.ProposalsAreInOrder | bot/backtest/engine.py:388-496 | a proposal has its stop behind it and its target ahead of the stop after paying the spread, ahead of the entry when the target-spread fraction is at most 2, and records the loss at its stop |
| BacktestSafety.PricedOffersAreOrdered | bot/smc/engine.py:490-563 | any strategy whose offers stand on levels the structure engine priced gives ordered offers, which is all that is assumed of a strategy |
| Portfolio.IndexAt | bot/backtest/portfolio.py:192-210 | the binary search finds the last bar closed by the cutoff, or that there is none |
| Portfolio.PortfolioBacktester.ManageOpen | bot/backtest/portfolio.py:122-136 | manages every open trade on its own last closed bar, in order |
| Portfolio.PortfolioBacktester.Proposals | bot/backtest/portfolio.py:146-171 | asks every symbol without a position, on closed bars only |
| Portfolio.PortfolioBacktester.Run | bot/backtest/portfolio.py:99-189 | the whole run on the longest series' clock |
| Portfolio.Best | bot/backtest/portfolio.py:176-182 | the trade taken is the first of those none outranks |
| PortfolioLaws.MomentOpensTheBest | bot/backtest/portfolio.py:117-189 | at a moment to ask on with a slot free, a trade is opened if and only if some symbol proposes one, and it is one that no proposal betters by grade and then score |
| PortfolioLaws.OffersAreTheProposals | bot/backtest/portfolio.py:146-171 | the offers are exactly what the symbols without a position propose on their closed bars |
| PortfolioLaws.ManagingSplitsTheTrades | bot/backtest/portfolio.py:122-136 | of the open trades, met with their bars, those still open stay and those closed are booked, both in order |
| PortfolioLaws.TradesMeetTheirBar | bot/backtest/portfolio.py:122-136 | each open trade meets its own symbol's last closed bar, if there is one |
| PortfolioSafety.SlotsAreNeverExceeded | bot/backtest/portfolio.py:117-189 | never more open positions than slots, never two on a symbol, and the balance adds up |
| PortfolioSafety.EveryTradeIsInOrder | bot/backtest/portfolio.py:117-189 | in every portfolio run every trade, open or closed, is sound under its own market's rules and opened at the risk it records |
| PortfolioSafety.EveryPortfolioLossIsBounded | bot/backtest/portfolio.py:117-189 | no closed trade of any portfolio run has lost more than its recorded risk plus its market's frictions |
| PortfolioSafety.PortfolioIsCausal | bot/backtest/portfolio.py:110-171 | given its clock, the run depends only on closed bars |
| PortfolioSafety.PortfolioIsCausalOnItsOwnClock | bot/backtest/portfolio.py:110-171 | on the clock each run takes from its own longest series, data that agree up to a moment give the same state at it when the two clocks have the same ticks by then, past the warmup |
| PortfolioSafety.TheSameLongestSetsTheSameTicks | bot/backtest/portfolio.py:110-115 | they do as long as the same market's series is the longest |
| PortfolioSafety.ALongerFutureMovesTheClock | bot/backtest/portfolio.py:110-115 | when bars still to come leave the clocks different numbers of ticks by then, past the warmup, the states differ |
| PortfolioSafety.TwoBarsMoveTheClock | bot/backtest/portfolio.py:110-115 | two bars still to come can do that: three bars against two, and for every strategy the state at that moment depends on them |
| PortfolioSafety.EqualCountsLeaveItToTheStrategy | bot/backtest/portfolio.py:110-171 | with as many ticks at other times the data do not decide: on these markets the states agree exactly when the strategy's refusals at the two times do |
| Indicators.AtrSeries | bot/smc/indicators.py:47-64 | the rolling loop computes the average true range of every bar |
| Indicators.AtrRollsForward | bot/smc/indicators.py:47-64 | the average is of the latest `period` true ranges, or of all there are; from bar to bar their sum takes one in and, once full, lets one go |
| Indicators.TrueRangeReachesThePreviousClose | bot/smc/indicators.py:16-30 | a true range is the range of the bar once stretched to the previous close |
| Indicators.AtrSeesOnlyThePast | bot/smc/indicators.py:16-64 | later bars cannot change a bar's average true range |
| Swings.DetectSwings | bot/smc/swings.py:55-82 | finds exactly the strict pivots, or refuses a window below one |
| Swings.PivotsAreExactlyTheExtremes | bot/smc/swings.py:55-82 | a point is found for a bar if and only if the bar is strictly beyond every neighbour in the window; with its price and its confirmation |
| Swings.SwingsLeanExactlyWhen | bot/smc/swings.py:147-176 | the swings lean up if and only if the last two highs or lows rise and neither pair falls, and down likewise |
| Swings.KnownPivotsArePrefixStable | bot/smc/swings.py:44-82 | what is confirmed by a bar is the same whether or not later bars exist |
| Swings.DetectionOnAPrefixFiltersTheFullDetection | bot/smc/swings.py:44-82 | detecting on a prefix is filtering the full detection by confirmation |
| Displacement.DetectDisplacement | bot/smc/displacement.py:72-131 | the guarded loop finds exactly the bars that pass every test, graded |
| Displacement.DisplacesExactlyWhen | bot/smc/displacement.py:84-107 | a bar is a displacement if and only if its body is so many ATRs and so much of its range, it is past the warm-up, and it and its window close the same way |
| Displacement.DisplacementSeesOnlyThePast | bot/smc/displacement.py:52-131 | a displacement is prefix-stable but for the gap flag and quality on the last bar, which differ exactly when the flag does |
| Displacement.MovesArePrefixStable | bot/smc/displacement.py:72-131 | the displacements on bars settled before a prefix ends are the same list, entry for entry |
| Displacement.NearbyMoveIsPrefixStable | bot/smc/displacement.py:134-138 | so is a lookup one bar back |
| Structure.DetectStructureEvents | bot/smc/structure.py:58-130 | the loop's events, broken levels and trend are those of the run |
| StructureLaws.EventsAreExactlyTheBreaks | bot/smc/structure.py:58-130 | in swings, closes and ATR: a bar carries an event if and only if its ATR is positive and its close clears, by more than the buffer, the latest confirmed high or the latest confirmed low that no earlier event used up |
| StructureLaws.EachEventTellsItsBreak | bot/smc/structure.py:87-125 | bullish if the high is cleared, bearish if only the low is, with that level and index, close and clearance; displaced if and only if a displacement is on the bar or the one before, with the later one's quality |
| StructureLaws.KindsFollowTheTrend | bot/smc/structure.py:75-92 | the first event is a CHoCH if and only if the confirmed swings leaned against it when they first leaned at all; any other if and only if it turns from the one before |
| Structure.StructureSeesOnlyThePast | bot/smc/structure.py:58-130 | a prefix goes through exactly the states of the full run, trend and broken levels included |
| Structure.AnalysisOfAPrefixFiltersTheFullAnalysis | bot/smc/structure.py:58-130 | a prefix's events are the full analysis's events on its bars; only a quality on the last bar may differ |
| Structure.EveryRunIsWellFormed | bot/smc/structure.py:66-130 | each level breaks at most once, only once confirmed and cleared by more than the buffer; CHoCH exactly on a change of direction after the first event |
| FairValueGaps.FollowGap | bot/smc/fvg.py:117-140 | the inner loop with its early ends gives the gap's life |
| FairValueGaps.DetectFairValueGaps | bot/smc/fvg.py:81-158 | finds exactly the qualifying gaps with their lives |
| FairValueGaps.GapsAreExactlyTheImbalances | bot/smc/fvg.py:96-158 | a bar completes a gap if and only if it leaves the candle two before behind by at least the share of the ATR; with its bounds, size and the impulse it is credited to |
| FairValueGaps.LifeIsCoherent | bot/smc/fvg.py:117-140 | never both mitigated and invalidated, fill in [0, 1], and each ending is a bar that earned it |
| FairValueGaps.EndsExactlyWhen | bot/smc/fvg.py:117-140 | a bar ends a gap if and only if it is the first to close through it or reach across it: invalidated if it closes through, mitigated if not |
| FairValueGaps.FillIsTheDeepest | bot/smc/fvg.py:117-140 | until then the fill is the deepest share of the gap that a bar has reached into |
| FairValueGaps.DeathIsFinal | bot/smc/fvg.py:117-140 | a dead gap never revives, an ending is never rewritten, and the fill never shrinks |
| FairValueGaps.AnalysisOfAPrefixFiltersTheGaps | bot/smc/fvg.py:53-158 | a prefix finds the full analysis's gaps on its bars and judges each live or dead at its last bar alike |
| Levels.TargetIsTheNearestThatPays | bot/smc/liquidity.py:75-127 | the target is the nearest visible opposing pool that pays, or there is none |
| Levels.LaterPoolsAreInvisible | bot/smc/liquidity.py:75-76 | pools known only later cannot become the target |
| Levels.StopIsBeyondTheZone | bot/smc/engine.py:656-694 | the stop is a fifth of an ATR plus the spread pad beyond the furthest invalidation, and no further |
| Levels.BuiltLevelsAreStructural | bot/smc/engine.py:622-754 | levels exist exactly when the stop is behind the entry; then they are in order, the reward is at least the minimum, and the target is the nearest paying pool or exactly the minimum |
| Levels.RatioRefusalIsUnreachable | bot/smc/engine.py:490-563 | everything priced has its full ratio, so the later ratio refusal is never reached |
| Levels.PricedExactlyWhen | bot/smc/engine.py:490-563 | a setup is refused if and only if its stop is not behind the entry, or closer or further than the limits in ATRs; the ratio reported is the reward over the stop distance |
| Sizing.CalculatePositionSize | bot/risk/sizing.py:117-186 | the lots, or the first refusal that applies |
| SizingLaws.RefusedExactlyWhen | bot/risk/sizing.py:117-186 | each refusal if and only if its condition holds and none before it does; otherwise the lots are those the budget buys, capped, with their loss at the stop and their margin |
| SizingLaws.RatesAreWorth | bot/risk/sizing.py:65-114 | the rate is what one unit of the quote currency is worth in the account currency: one, the inverse entry price, the broker's quote or its inverse; refused if and only if nothing says so |
| SizingLaws.RoundedLotsAreBought | bot/broker/models.py:44-54 | the lots are the most whole steps the budget pays for, a billionth of a step to spare; without a step, hundredths within half of one |
| SizingLaws.CappedAtTheMaximum | bot/risk/sizing.py:158-160 | over the broker's maximum they are the most whole steps in it |
| Sizing.RoundLotIsMonotone | bot/broker/models.py:44-54 | more lots never round to fewer |
| Sizing.RoundLotIsIdempotent | bot/broker/models.py:44-54 | rounding twice is rounding once |
| Sizing.SizedRiskIsWithinBudget | bot/risk/sizing.py:117-186 | with a step on the grid the sized risk is within 1/(1 - 1e-9) of the budget |
| Sizing.WithoutALotStepTheGuardMatters | bot/broker/models.py:51-52 | for every spec without a positive step and every factor, some budget is overshot by more than it if and only if the spec allows a number of hundredths so small that rounding up to them costs that much |
| Sizing.SmallerBudgetNeverBuysMore | bot/risk/sizing.py:117-186 | a smaller budget never buys more lots |
| Correlation.ScoreIsACorrelation | bot/risk/correlation.py:47-65 | symmetric, within [-1, 1], one with itself, negated by flipping a side |
| Correlation.TwoLegScore | bot/risk/correlation.py:47-65 | the score of two pairs is half the legs they share less half the legs they oppose |
| Correlation.ExposureRespectsSameInstrument | bot/risk/correlation.py:28-44 | names of one instrument have one exposure |
| Correlation.ExposuresSumToZero | bot/risk/correlation.py:91-172 | over any book of two-legged pairs the currency exposures sum to zero |
| Correlation.CorrelatedRiskIsPartOfTotal | bot/risk/correlation.py:91-172 | correlated risk never exceeds total risk |
| Correlation.EachCountsByItsScore | bot/risk/correlation.py:155-164 | each position adds its risk times its score when that reaches the threshold, and nothing otherwise |
| Correlation.ExposureIsNet | bot/risk/correlation.py:126-153 | over a book of two-legged pairs each currency's exposure is what the positions long it risk less what those short it do |
| Correlation.ExposureIgnoresOrder | bot/risk/correlation.py:91-172 | neither depends on the order positions are listed in |
| Correlation.AnalyseExposure | bot/risk/correlation.py:91-172 | the accumulating loops compute those sums, and the worst score is the highest there is |
| Sessions.TheWeekendIsOneStretch | bot/smc/sessions.py:45-62 | the weekend gate shuts for one stretch of exactly 49 hours a week |
| Sessions.SessionsMean | bot/smc/sessions.py:65-90 | which session an hour is in, and when its liquidity is enough to trade |
| Sessions.InRolloverBlackout | bot/smc/sessions.py:138-176 | the search over yesterday's, today's and tomorrow's rollover decides by the nearest |
| Sessions.RolloverIsOneWindowADay | bot/smc/sessions.py:138-176 | the blackout around the rollover is one window a day, across midnight too |
| Sessions.TheBlackoutLeadsIntoTheWeekend | bot/smc/sessions.py:179-210 | the Friday blackout and the weekend are one stretch a week, 49 hours and the blackout |
| RiskEngine.RiskPercentage | bot/risk/engine.py:146-192 | the percentage after tier, drawdown, streak and clamp, always within its band |
| RiskLaws.PercentageIsTheProduct | bot/risk/engine.py:146-192 | base times tier, drawdown and streak factor, held to its band |
| RiskLaws.TiersScale | bot/risk/engine.py:157-165 | A+ 1.4, A 1.15, none 1, B 0.75 |
| RiskLaws.DrawdownScales | bot/risk/engine.py:167-176 | nothing up to the threshold, evenly down to 0.4 at the maximum drawdown, and no further |
| RiskLaws.StreaksScale | bot/risk/engine.py:178-184 | two losses 0.8, three 0.6, more 0.5 |
| RiskLaws.MoneyIsTheNearestCent | bot/risk/engine.py:412-413 | the money at risk is the nearest cent to the share of equity |
| RiskEngine.RiskPctIsMonotone | bot/risk/engine.py:146-192 | never rises with drawdown or streak, and never falls from B through no tier and A to A+ |
| RiskEngine.HardBlocks | bot/risk/engine.py:196-350 | exactly the blocks that stand, of the nineteen: market and calendar, money, book, and what happened before |
| RiskLaws.BlocksStandExactlyWhen | bot/risk/engine.py:196-350 | each of the nineteen in the account's own numbers, and not otherwise |
| RiskEngine.Evaluate | bot/risk/engine.py:352-557 | approves exactly when no block stands, the candidate is worth taking, and its own size exists, keeps to its budget and fits both caps; otherwise the reason is the first gate that is shut, in order; the exposure reported is the book's with the trade in it; on the lot grid the last-resort budget check never fires |
| RiskEngine.AdverseStateNeverBuysMore | bot/risk/engine.py:146-192 | lower equity, a longer streak or a lesser tier never sizes more lots |
| RiskEngine.AdverseStateGetsMoreExactlyWhen | bot/risk/engine.py:352-557 | of two states on the same positions and peak, one with no more money, no better a day and no fewer or older trades, losses and failures: both approved, the worse gets no more lots; it gets strictly more exactly when it is approved and the better state's own size breaks the margin, the budget or a cap |
| RiskEngine.OnlyTheCapsAreBroken | bot/risk/engine.py:439-495 | with a lot step on the grid and no leverage that can only be the total or the correlated cap |
| RiskEngine.AStreakOpensTheDoor | bot/risk/engine.py:462-478 | under the default limits, with 260 of 10000 at risk: no streak sizes 0.05 lots and is declined, three losses size 0.03 lots and are approved |

## Left out

- Server, dashboard, service, doctor and set-up code; broker decoding, login and discovery; the AI clients and the news feed.
- SQL: the intent table is a map from id to row. The trades table, orphan adoption, stale-trade closing and protection repair of a reconcile are not part of the order model.
- The paper broker: its ledger is separate code, and the backtester covers the same arithmetic.
- The demo verification is a boolean gate before creation and before send; the spread check before submission is one too, its rule being modelled in `Backtest.SpreadOk`.
- Retry back-off sleeps between attempts, and the log lines, reason strings and event rows everywhere.
- Names outside ASCII in `Symbols`.
- Scoring weights, regimes, session quality and session highs and lows, the news blackout, AI vetoes, Monte Carlo and walk-forward statistics.
- Order blocks and sweeps under the look-ahead theorems: both read bars after the one they are dated to. A sweep enters `Levels` as its candle's extreme.
- The checklist of an SMC evaluation, its zone-retest gate and the choice between gap and block.
- In `BacktestSafety` the strategy is an arbitrary function of the visible windows and the moment whose offers are ordered; `BacktestSafety.PricedOffersAreOrdered` proves that of offers on priced levels.
- Management.TrackedPositionsAreManagedSafely: from when tracking begins; that a write to the trades table succeeds is assumed, and a process that dies between a partial close and its record is not an event of a run (it would be one more slip).
- TradeSafety.LossIsBounded: off the six-decimal lot grid the bound is on the lots actually closed. The condition on the partial is `TradeSafety.LossIsBoundedExactlyWhen`'s, and the loader's band for the trigger, 0.3 to 10 (bot/config.py:884), is inside it.
- RiskEngine.AdverseStateNeverBuysMore: sizes before the margin and the caps; of approvals it is false, and `RiskEngine.AdverseStateGetsMoreExactlyWhen` is the exact condition.
- PortfolioSafety.PortfolioIsCausal: given the clock, because the longest series sets it and its length is a fact about the future.
- OrderSafety.AtMostOneAcceptedOrderPerId: says nothing of an id re-armed on a row abandoned for "nothing found", because the code's `reopen` admits that and breaks the claim.
- OrderSafety.SecondSendNeedsProof: of the same ids only.
- OrderSafety.StatusIsSoundAfterAnyCrash: of the same ids only; for the others `OrderSafety.AReopenedRowProvesNothing`.
- OrderSafety.RearmIsProvenSafeExactlyWhen: of the same ids only.
- PortfolioSafety.PortfolioIsCausalOnItsOwnClock: for clocks with equally many ticks at different times no exact condition is given, as it depends on what the strategy makes of the times.
- OrderSystem.OrderSystem.Reconcile: settles intents only; the orphans it adopts, the stale trades it closes and the protection it repairs are on the trades table.
- Portfolio.PortfolioBacktester.Run: its open trades are values in a list rather than shared objects, so aliasing between the result's list and the open book is not captured.
- OrderSystem.OrderSystem.Scan: counts the positions the scan can see; orders in flight at the scan are the slack.
- Transport.HttpTransport.Request: a success whose JSON is not an object makes the caller above fail after the breaker booked a success; it is treated as a reply that broke, which books nothing.
- Management.PositionManager.Apply: what the repository's own writes may raise.
- Correlation.ScoreIsACorrelation: for pairs with two distinct legs.
- Correlation.TwoLegScore: for such pairs.
- Correlation.ExposureIsNet: for books of such pairs and of names that resolve to no pair.
- SizingLaws.RoundedLotsAreBought: a lot step finer than the eight decimals lots are rounded to is not spoken for.
- RiskLaws.DrawdownScales: for a maximum drawdown more than 1e-9 above the threshold, the width below which the code takes 1e-9.
- TradeOutcomes.ManagesExactly: for terms whose stop is behind the entry, as every proposal's is (`BacktestSafety.ProposalsAreInOrder`).
- FairValueGaps.GapsAreExactlyTheImbalances: the impulse credited is stated for at most one displacement a bar, as detection gives.
- Displacement.DetectDisplacement: the weights of the quality grade are the specification's own; nothing else is said of them.
- BacktestSafety.EveryRunIsBounded: for non-negative costs and lot bounds, and a configuration whose partials are off, trigger at -1R or better, or take no share.
- Windows.SliceH1: for an H1 series whose bars last equally long, as a timeframe's do.
