# Super Otonom: the money ledger and what must stay consistent with it

A Dafny model of the trading bot's capital accounting and of the smaller
stateful protocols around it, with proofs of what holds over every run.
`dafny verify dfyconfig.toml` checks the whole project.

## What is modelled

Objects that the program updates in place are classes here. Each method is proved
to do what a function on values says, and the properties are proved about those
functions over arbitrary sequences of operations.

- **The ledger** (`LedgerSpec`, `CapitalEngines`): six accounts, net deposits and the
  position map, under reserve, release, open, full and partial close, mark, fee,
  deposit, withdrawal, save, load and reconciliation adjustment. Proved:
  conservation (`LedgerConservation`), solvency of fully collateralised runs
  (`LedgerSolvency`), equivalence of split fills (`SplitFills`), no double spending
  (`LedgerSpending`), marking to market (`MarketValue`), and save and load as a
  bisimulation (`Reload`).
- **Its consumers**: the trade executor's own position book (`TwoBooks`,
  `TradedLedger`, `TradeExecution`), the end-of-day reconciler (`DailyReconciliation`) and the
  reconciliation against the exchange (`ExchangeReconciliation`).
- **The asynchronous line writer** (`WriteBuffer`, `WriterLosses`, `WriterFile`,
  `AsyncWriteBuffers`): one producer, which also closes, and one consumer, interleaved
  one shared-memory action at a time; what it can lose or cut, and exactly when.
- **State machines over runs**: the order-rate window (`OrderRate`), the circuit
  breaker with its retry loop (`CircuitBreaking`) and the risk manager's emergency
  latch, loss meters and peak (`RiskLatch`).
- **Loops against their meaning**: two-sided CUSUM (`Cusum`), two backtests
  (`Backtest`), the multi-timeframe vote and the decision that reads it
  (`TimeframeConsensus`), and concentration limits (`Concentration`).

Money, prices and clock readings are `real`. Order fills, exchange readings, clock
readings, verdicts of the VaR engine and of the shared risk view are arguments:
the theorems hold for every value of them that the stated conditions allow.

## What the proofs bring out

- The ledger module's opening text (super_otonom/capital_engine.py:20-21) leaves net
  deposits out of the identity; the code and the model include them.
- The identity is not an invariant: each clamp at zero breaks it by the deficit it
  forgives, and each reconciliation adjustment by the NAV it moves, for good.
- Dropping a negligible remainder does not give its notional back: it stays in
  `margin_used` as dust.
- Entry reserves with `<=` and opens with `<`, and does not look at the answer of the
  opening: between those two bounds the trade executor files a holding that the
  ledger does not have.
- A full exit removes the holding even when the order was filled in part; a staged
  exit lowers the size by the quantity ordered but the quantity by what was filled.
- Staged exits are not recorded with the end-of-day reconciler, so their profit
  and fees appear in the residual.
- `close` of the line writer can fail to deliver the stop marker, after which its
  thread never ends. This can happen exactly when the queue is full as `close` begins.
- A write that finds the queue full and then empty gives up its own line, although
  there is room again; the counter of dropped lines covers it. This, too, can happen
  exactly when the queue is full as the call begins.
- A file write that fails inside a line leaves half of it, to which the next line is
  glued; otherwise the file is whole lines only.
- Funding refreshes neither equity nor free capital: after a charge equity is stale until
  the next tick or trade, free capital until the next trade.
- A start-up reconciliation moves NAV by a bounded share; a periodic one by any amount.
- The conflict flag of the vote is just a score below 35, so the "avoid" timing and
  the low-health block are unreachable and three of the tests for ENTER decide nothing.
  The cap of confidence at 0.80 under conflict never binds either.
- A source comment (super_otonom/meta_learning_engine.py:144) gives about 0.45 as the
  drift strength at the threshold; the code gives 1/1.35, about 0.74.
- At NAV zero or below the concentration check allows every position.

## Model

| member | source | states |
|---|---|---|
| `LedgerConservation.RunConserves` | super_otonom/capital_engine.py:245-567 | over every run of every operation, the gap between NAV and the accounting identity grows by exactly the deficits the clamps forgive plus the NAV jumps of reconciliation adjustments |
| `LedgerConservation.IdentityExactIffNoClamp` | super_otonom/capital_engine.py:617-647 | from a new engine without adjustments the identity is exact if and only if no clamp ever fired, and the engine's own check passes if and only if the forgiven total is at most 0.01 |
| `LedgerConservation.CheckPassesExactly` | super_otonom/capital_engine.py:617-647 | with reconciliation adjustments in the run, the engine's check passes if and only if forgiven deficits and jumps together are within 0.01 of zero |
| `LedgerConservation.ForgivenIffClampFires` | super_otonom/capital_engine.py:405-412 | the forgiven total is positive exactly on the runs in which a clamp's guard holds: more notional closed than margin used, or a close or a fee taking more than the cash at hand |
| `LedgerConservation.ForgivenIffClamps` | super_otonom/capital_engine.py:370-412 | one operation forgives something exactly when one of those guards holds before it |
| `LedgerConservation.LargeFeeBreaksIdentity` | super_otonom/capital_engine.py:515-517 | a fee above the initial cash breaks the identity of a new engine by exactly the difference |
| `LedgerConservation.IdentityCanBreak` | super_otonom/capital_engine.py:515-517 | a concrete input: a fee of 150 on a cash of 100 leaves a gap of 50 |
| `LedgerSolvency.CoveredRunsAreSolvent` | super_otonom/capital_engine.py:245-509 | from a new engine, with notional = entry * qty, fills within the position, fees covered and any reconciliation adjustments: cash stays non-negative, NAV is at least cash plus dust, unrealized profit is the sum over positions, margin is the sum of open notionals plus the stranded dust, and the identity is off by exactly the adjustments' jumps, so exact without them |
| `LedgerSolvency.RunStaysSolvent` | super_otonom/capital_engine.py:245-509 | the same invariant from any solvent ledger, adjustments included; no clamp fires |
| `LedgerSolvency.StepStaysSolvent` | super_otonom/capital_engine.py:245-567 | each covered operation keeps the ledger solvent and forgives nothing |
| `LedgerSolvency.CloseStaysSolvent` | super_otonom/capital_engine.py:364-415 | a covered full or partial close keeps the ledger solvent; the negligible-remainder branch moves exactly the remainder from open notional to dust |
| `LedgerSolvency.CloseNeedsNoClamp` | super_otonom/capital_engine.py:364-374 | on a solvent ledger neither the margin clamp nor the cash clamp changes anything in a covered close |
| `LedgerSolvency.MarkStaysSolvent` | super_otonom/capital_engine.py:486-509 | marking at non-negative prices keeps every position worth at least zero and the unrealized account equal to the sum over positions |
| `LedgerSolvency.MarkForgetsHistory` | super_otonom/capital_engine.py:486-509 | after marking with every symbol priced, unrealized profit depends on entry prices and quantities alone, not on earlier marks |
| `MarketValue.NavFollowsMarket` | super_otonom/capital_engine.py:486-509 | after a tick, NAV of a solvent ledger is cash and dust plus quantity times price of every priced position, an unpriced one keeping its earlier mark |
| `MarketValue.NavMoves` | super_otonom/capital_engine.py:88-95 | between two ticks NAV moves by exactly the price changes times the quantities held |
| `MarketValue.TicksKeepTerms` | super_otonom/capital_engine.py:88-95 | under any ticks a position keeps its terms, its peak is the highest price since it was opened, and its value is quantity times the last price |
| `MarketValue.OpenAndClose` | super_otonom/capital_engine.py:285-383 | opening a position and closing all of it leaves the price difference times the quantity less both fees, and nothing else |
| `MarketValue.NetDepositsAreFlows` | super_otonom/capital_engine.py:529-567 | over every run net deposits are what was paid in less what was paid out |
| `MarketValue.GrantedExactly` | super_otonom/capital_engine.py:173-287 | reservations and withdrawals are granted if and only if they ask for nothing or leave the reserve share of NAV and all in-flight orders covered, openings strictly so and only for a new symbol; a refusal changes nothing |
| `MarketValue.RatioCloseActs` | super_otonom/capital_engine.py:465-477 | a ratio close acts if and only if the symbol is held with something in it and the ratio is positive; otherwise nothing changes |
| `MarketValue.EmptyPositionCloses` | super_otonom/capital_engine.py:365-378 | a position without quantity is dropped by any close, its whole notional leaving margin |
| `LedgerSolvency.NavCoversCash` | super_otonom/capital_engine.py:160-171 | in a solvent ledger NAV is at least cash plus dust, and available cash is at most cash |
| `LedgerSolvency.DustIsBounded` | super_otonom/capital_engine.py:386-389 | what one close strands is below the notional threshold or below the quantity threshold at the entry price, and only when the close drops the symbol |
| `LedgerSolvency.DustCanBeStranded` | super_otonom/capital_engine.py:386-389 | a concrete close on a solvent ledger that leaves no position but half the quantity threshold as margin |
| `LedgerSolvency.TotalsAfterFill` | super_otonom/capital_engine.py:364-389 | a fill lowers the sum of open notionals by its share plus what it strands |
| `SplitFills.FillsSettle` | super_otonom/capital_engine.py:364-415 | any sequence of fills that adds up to the position, with no negligible remainder and no clamp, changes cash by notional plus the sum of (price - entry) * fill minus the fees, and touches no other position |
| `SplitFills.SplitEqualsSingleFill` | super_otonom/capital_engine.py:364-415 | at one price the split close ends in the very ledger of a single full close with the same total fee |
| `SplitFills.PartialFillKeepsPosition` | super_otonom/capital_engine.py:379-384 | a partial fill keeps everything of the position but quantity, notional and mark, keeps notional per unit, marks the rest at the fill price, and moves each account by the closed share, the gain and the fee |
| `SplitFills.RateIsConstant` | super_otonom/capital_engine.py:379-384 | after every fill of a clean sequence but the last, entry price and notional per unit are the same and the quantity is what is left |
| `SplitFills.RatiosAreFills` | super_otonom/capital_engine.py:456-484 | a sequence of ratio closes ends in the same ledger as the fills it comes to |
| `SplitFills.RatioClosesSettle` | super_otonom/capital_engine.py:456-484 | ratio closes that come to a clean sequence of fills settle the position at its notional plus the gains less the fees |
| `SplitFills.RatiosEqualOneClose` | super_otonom/capital_engine.py:456-484 | at one price they end in the very ledger of a single close by ratio 1 with the same total fee |
| `LedgerSpending.GrantsLeaveHeadroom` | super_otonom/capital_engine.py:164-287 | a successful positive reservation, opening or withdrawal leaves cash covering the reserve share of NAV plus all in-flight orders |
| `LedgerSpending.NoDoubleSpending` | super_otonom/capital_engine.py:164-224 | over any sequence of reserve, release, open, deposit and withdrawal that cover stays non-negative |
| `LedgerSpending.PrudentStepKeepsHeadroom` | super_otonom/capital_engine.py:529-567 | each such operation, a refused or a negative-amount withdrawal included, keeps the headroom non-negative |
| `LedgerSpending.ReservedIsOutstanding` | super_otonom/capital_engine.py:173-224 | with matched releases, whatever else happens in between, reserved margin is the sum of the open reservations |
| `Reload.RoundTrip` | super_otonom/capital_engine.py:705-767 | loading what was saved returns the same ledger if and only if every position is filed under its own symbol |
| `Reload.LoadWithOverrides` | super_otonom/engine_managers.py:124-133 | the start-up path, which passes its own percentages, changes those two and nothing else |
| `Reload.RunKeepsKeys` | super_otonom/capital_engine.py:289-297 | every run keeps positions filed under their own symbol |
| `Reload.RestartsAreInvisible` | super_otonom/capital_engine.py:705-767 | inserting any number of save-and-load pairs anywhere in a run, with no percentages or the ledger's own, changes neither the result of any other operation nor the final ledger |
| `Reload.LegacyFileShiftsGap` | super_otonom/capital_engine.py:748 | a file without net deposits loads with the identity off by exactly that amount |
| `Reload.BareFileLoads` | super_otonom/capital_engine.py:736-760 | a file with nothing but the required fields loads as a new engine holding positions as if opened now |
| `CapitalEngines.PositionLedger.UpdateUnrealized` | super_otonom/capital_engine.py:88-95 | re-marks the record at the price, raises the peak, and returns the change of unrealized profit |
| `CapitalEngines.PositionLedger.Reduce` | super_otonom/capital_engine.py:379-385 | takes a fill out of the record in place and re-marks the rest at the exit price |
| `CapitalEngines.CapitalEngine.constructor` | super_otonom/capital_engine.py:118-144 | a new engine holds the initial capital in cash and nothing else |
| `CapitalEngines.CapitalEngine.Nav` | super_otonom/capital_engine.py:160-162 | NAV of the abstract ledger |
| `CapitalEngines.CapitalEngine.AvailableCash` | super_otonom/capital_engine.py:165-171 | available cash of the abstract ledger |
| `CapitalEngines.CapitalEngine.ReserveMargin` | super_otonom/capital_engine.py:173-202 | refines the ledger operation: result and whole new state |
| `CapitalEngines.CapitalEngine.ReleaseReservation` | super_otonom/capital_engine.py:204-224 | refines the ledger operation; reserved margin never goes below zero |
| `CapitalEngines.CapitalEngine.OpenPosition` | super_otonom/capital_engine.py:245-329 | refines the ledger operation: refused when the cost reaches available cash or the symbol is open, otherwise a fresh record |
| `CapitalEngines.CapitalEngine.ClosePosition` | super_otonom/capital_engine.py:331-454 | the in-place close, with its incremental unrealized updates, clamps, negligible-remainder branch and final re-summing, equals the ledger operation |
| `CapitalEngines.CapitalEngine.BookClose` | super_otonom/capital_engine.py:370-415 | the account and position side of a close for given amounts |
| `CapitalEngines.CapitalEngine.ReducePosition` | super_otonom/capital_engine.py:375-395 | drops or reduces exactly one record; all others keep their values |
| `CapitalEngines.CapitalEngine.SumUnrealized` | super_otonom/capital_engine.py:509 | the loop over open positions computes the sum of their unrealized profit |
| `CapitalEngines.CapitalEngine.ClosePartial` | super_otonom/capital_engine.py:456-484 | refines the ratio close, with each reason for closing nothing |
| `CapitalEngines.CapitalEngine.MarkPositions` | super_otonom/capital_engine.py:495-499 | the loop marks exactly the priced positions, each once |
| `CapitalEngines.CapitalEngine.UpdateUnrealized` | super_otonom/capital_engine.py:486-509 | refines the marking operation |
| `CapitalEngines.CapitalEngine.RecordFee` | super_otonom/capital_engine.py:511-527 | refines the fee operation; cash does not go below zero |
| `CapitalEngines.CapitalEngine.Deposit` | super_otonom/capital_engine.py:529-543 | refines the deposit |
| `CapitalEngines.CapitalEngine.Withdrawal` | super_otonom/capital_engine.py:545-567 | refines the withdrawal, refusal included |
| `CapitalEngines.CapitalEngine.CheckInvariant` | super_otonom/capital_engine.py:617-647 | true exactly when the identity holds within 0.01 |
| `CapitalEngines.CapitalEngine.ToDict` | super_otonom/capital_engine.py:705-730 | saves every account, both percentages and every position |
| `CapitalEngines.CapitalEngine.FromDict` | super_otonom/capital_engine.py:733-767 | loads a state file with defaults for missing fields; explicit percentages win |
| `CapitalEngines.CapitalEngine.LoadPositions` | super_otonom/capital_engine.py:749-760 | files a new record under each saved symbol |
| `TradeExecution.Engine.Enter` | super_otonom/core/bot_engine_managers.py:390-441 | reserve, fill, release, open on the live ledger; the holding is filed whatever the ledger answers |
| `TradeExecution.Engine.ClosePartial` | super_otonom/engine_managers.py:504-593 | a staged exit changes both books and refreshes both figures as specified |
| `TradeExecution.Engine.Close` | super_otonom/engine_managers.py:641-717 | a full exit changes both books as specified and returns the ledger's profit, or the own estimate when the ledger does not know the symbol |
| `TradeExecution.Engine.TickUpdateUnrealized` | super_otonom/engine_managers.py:213-221 | marks the ticked symbol at its price and every other holding at its entry price |
| `TradeExecution.Engine.ApplyFundingRate` | super_otonom/engine_managers.py:223-245 | charging holding by holding, in any order, equals one fee of the summed charges, cash clamp included |
| `TwoBooks.ClosePartAgreement` | super_otonom/engine_managers.py:504-590 | after a staged exit, whatever the order fills (nothing, part, all or more), the books agree if and only if something was filled and both drop the symbol, or neither does and the fill is exactly the quantity ordered |
| `TwoBooks.EmptyFillDisagrees` | super_otonom/engine_managers.py:574-590 | a fill of nothing always makes the books differ; it needs a simulated fill range that includes zero, since live orders substitute the quantity ordered |
| `TwoBooks.StagedExitCanDiverge` | super_otonom/engine_managers.py:584-590 | a family of inputs: a staged exit of everything, filled by half, is dropped on one side and kept on the other |
| `TwoBooks.CompleteFillAgreement` | super_otonom/engine_managers.py:584-590 | for a complete fill they agree if and only if the remainder is not exactly on a threshold, which one side tests with < and the other with <= |
| `TwoBooks.ThresholdCanDiverge` | super_otonom/engine_managers.py:588-590 | a concrete input: a complete fill leaving exactly the quantity threshold makes the books differ |
| `TwoBooks.CloseAllAgreement` | super_otonom/engine_managers.py:641-717 | after a full exit they agree if and only if the ledger drops the symbol too |
| `TwoBooks.FullExitCanDiverge` | super_otonom/engine_managers.py:641-717 | a family of inputs: a full exit filled by half makes the books differ |
| `TwoBooks.EnterAgreement` | super_otonom/core/bot_engine_managers.py:390-441 | after an entry they agree if and only if the reservation was refused, or size plus fee is strictly below available cash or not positive |
| `TwoBooks.EntryCanDiverge` | super_otonom/core/bot_engine_managers.py:390-441 | a concrete input: an entry of all available cash with a fee makes the books differ |
| `TwoBooks.CompleteTradeKeepsAgreement` | super_otonom/engine_managers.py:494-717 | one trade with complete fills off the thresholds keeps the books together and both figures in step |
| `TwoBooks.BooksStayTogether` | super_otonom/engine_managers.py:494-717 | over whole runs of such trades, with ticks and funding anywhere, the books hold the same symbols, quantities and sizes |
| `TwoBooks.FiguresFollowTrades` | super_otonom/engine_managers.py:592-593 | in every such run, after each entry and exit equity equals NAV and free capital equals available cash, or the trade did nothing; after each tick with something held, equity equals NAV |
| `TwoBooks.FiguresStayInStep` | super_otonom/engine_managers.py:592-593 | a run of entries and exits alone keeps both figures in step throughout |
| `TwoBooks.FundingSync` | super_otonom/engine_managers.py:223-245 | funding leaves the engine's figures in step if and only if, before it, the rate is not positive, there is no cash, or no holding's charge exceeds the minimum |
| `TwoBooks.FundingCanFallBehind` | super_otonom/engine_managers.py:223-245 | a concrete input: one charge of 0.03 leaves both figures stale |
| `TwoBooks.FeesAdd` | super_otonom/capital_engine.py:511-517 | two fees in a row are one fee of their sum, clamp included |
| `TwoBooks.LedgerClosesFill` | super_otonom/engine_managers.py:575-581 | asking the ledger for the ratio filled/qty closes the filled quantity, at most what is there, and nothing when nothing was filled |
| `TradedLedger.TradesAreLedgerRuns` | super_otonom/engine_managers.py:494-717 | every sequence of trades, ticks and funding takes the ledger through a run of its own operations |
| `TradedLedger.TradeIsLedgerRun` | super_otonom/engine_managers.py:574-581 | one trade is these ledger operations, with these prices, fills and fees |
| `TradedLedger.TradingKeepsLedger` | super_otonom/engine_managers.py:494-717 | so in all trading the identity's gap grows by what clamps forgive alone, and covered trading stays solvent with NAV over cash |
| `TradedLedger.StagedExitLeaves` | super_otonom/engine_managers.py:511-590 | a complete staged exit sells the ratio of the initial quantity, however much was sold before, and leaves the rest at the same size per unit on both books |
| `TradedLedger.LastStageSellsOut` | super_otonom/engine_managers.py:515-590 | when no more is left than the stage asks for, all of it is sold and both books drop the symbol |
| `TradedLedger.StagesLeave` | super_otonom/engine_managers.py:511-590 | over any stages with ratios r1, r2, ... that leave more than the thresholds, both books hold the initial quantity times 1 - (r1 + r2 + ...) |
| `TradedLedger.StagedExitActs` | super_otonom/engine_managers.py:504-517 | a staged exit acts if and only if quantity, size and the quantity asked for are positive; otherwise nothing changes |
| `TradedLedger.MissingInitialQty` | super_otonom/engine_managers.py:511 | a holding without an initial quantity sells as if everything were still there |
| `TradedLedger.EntryIsWhole` | super_otonom/core/bot_engine_managers.py:398-408 | an entry files the whole quantity as initial, at stage zero |
| `TradedLedger.TickFollowsMarket` | super_otonom/engine_managers.py:213-221 | after a tick equity is cash and dust plus the traded symbol at its price and everything else at what it cost |
| `TradedLedger.FundingIsRateOnMargin` | super_otonom/engine_managers.py:229-238 | when every charge exceeds the minimum, funding costs the rate on the margin in use, dust excepted |
| `TradedLedger.ExposureIsMargin` | super_otonom/concentration_risk.py:136-142 | the concentration check sees exactly the margin in use, dust excepted, whether its entries carry sizes or only notionals |
| `DailyReconciliation.ResidualExplained` | super_otonom/audit_log.py:435-440 | on every day: actual minus expected NAV is the change of unrealized profit and net deposits plus unlogged profit minus unlogged fees plus clamp and adjustment drift |
| `DailyReconciliation.DayAccounts` | super_otonom/audit_log.py:435-438 | at the end of every day realized profit and fees are the logged sums plus the unlogged part |
| `DailyReconciliation.FlatDayReconciles` | super_otonom/audit_log.py:440-442 | a flat-to-flat day without deposits has residual exactly unlogged profit minus unlogged fees plus drift, hence zero if and only if these cancel |
| `DailyReconciliation.ExplainedDayReconciles` | super_otonom/audit_log.py:440-442 | a flat-to-flat day whose only fees and profits come from recorded closes has residual exactly zero |
| `DailyReconciliation.StagedDayIsOff` | super_otonom/engine_managers.py:574-628 | a concrete flat-to-flat day with a staged exit at a profit of 5: the residual is 5 |
| `DailyReconciliation.StagedExitLeaks` | super_otonom/engine_managers.py:574-628 | a staged exit is not logged: it leaves its profit less its fee, plus the change of unrealized profit, in the residual |
| `DailyReconciliation.AttributionSums` | super_otonom/audit_log.py:462-466 | the per-symbol table holds each symbol's profit and adds up to the day's total |
| `DailyReconciliation.AttributionKeys` | super_otonom/audit_log.py:462-466 | the table has a line for exactly the symbols traded |
| `DailyReconciliation.WinsAreProfitable` | super_otonom/audit_log.py:469-470 | wins are exactly the trades with positive profit |
| `DailyReconciliation.LogGetsReportedProfit` | super_otonom/engine_managers.py:713-774 | the log gets exactly the profit that the full exit reports, fallback included |
| `DailyReconciliation.DailyReconciler.SetSod` | super_otonom/audit_log.py:392-396 | sets the start-of-day NAV |
| `DailyReconciliation.DailyReconciler.RecordTrade` | super_otonom/audit_log.py:398-414 | appends one trade to the log |
| `DailyReconciliation.DailyReconciler.ResetForNewDay` | super_otonom/audit_log.py:530-534 | empties the log and sets the new start-of-day NAV |
| `DailyReconciliation.DailyReconciler.Totals` | super_otonom/audit_log.py:436-437 | the loops compute the logged profit and fees |
| `DailyReconciliation.DailyReconciler.Attribute` | super_otonom/audit_log.py:462-470 | the loop builds the attribution table; wins and losses partition the trades |
| `DailyReconciliation.DailyReconciler.Run` | super_otonom/audit_log.py:416-502 | the report: residual, 5% tolerance against start-of-day NAV, and passed exactly when NAV is within tolerance, counts match, no emergency happened and nothing is open |
| `ExchangeReconciliation.ReconciliationEngine.CompareNav` | super_otonom/reconciliation_engine.py:255-268 | both flags from the relative difference; a hard block at start-up only |
| `ExchangeReconciliation.ReconciliationEngine.ApplyAdjustment` | super_otonom/reconciliation_engine.py:355-372 | overwrites cash alone, towards the exchange NAV and not below zero |
| `ExchangeReconciliation.ReconciliationEngine.StartupHandshake` | super_otonom/reconciliation_engine.py:145-174 | compares first, adjusts only when off and not hard blocked |
| `ExchangeReconciliation.ReconciliationEngine.PeriodicCheck` | super_otonom/reconciliation_engine.py:176-194 | compares first, adjusts whenever off |
| `ExchangeReconciliation.AlignmentReach` | super_otonom/reconciliation_engine.py:365-372 | an adjustment reaches the exchange NAV if and only if that covers the open positions' worth, otherwise NAV ends at that worth; repeating it changes nothing |
| `ExchangeReconciliation.SecondCheck` | super_otonom/reconciliation_engine.py:176-194 | repeating a check leaves the ledger as it is, and the second one still complains only when the exchange NAV is below the open positions' worth by more than the tolerance |
| `ExchangeReconciliation.UntouchedExactly` | super_otonom/reconciliation_engine.py:263-268 | a check leaves the ledger alone if and only if the readings are within the tolerance, the start is blocked, or cash is already where an adjustment would put it |
| `ExchangeReconciliation.StartupMoveIsBounded` | super_otonom/reconciliation_engine.py:145-174 | a start-up check never moves NAV by more than the hard-block share of it |
| `ExchangeReconciliation.PeriodicMoveIsUnbounded` | super_otonom/reconciliation_engine.py:176-194 | for every amount there is a reading by which a periodic check moves NAV further and which a start-up check refuses, leaving the ledger alone |
| `ExchangeReconciliation.ChecksMoveTheGap` | super_otonom/reconciliation_engine.py:145-194 | over any sequence of checks only cash changes, it stays non-negative, and all the NAV moved goes into the gap of the identity; repeated starts beyond the hard-block limit change nothing |
| `ExchangeReconciliation.AdjustmentsStayInTheGap` | super_otonom/reconciliation_engine.py:365-372 | an adjustment breaks the identity by exactly the NAV it moves, and no later clamp-free run repairs it |
| `WriteBuffer.OrderAndBounds` | super_otonom/async_io.py:58-114 | under every interleaving, the lines that reached the file, then batch, then queue, then the line being put are an in-order subsequence of the submitted lines; queue and batch stay within their bounds |
| `WriteBuffer.NothingUnaccounted` | super_otonom/async_io.py:58-114 | between calls before close: submitted = written + failed + in flight + queued + dropped, and unfinished tasks = queued + taken |
| `WriteBuffer.NextInv` | super_otonom/async_io.py:58-146 | every single action of either thread keeps order, bounds, accounts and shutdown discipline together |
| `WriteBuffer.RunInv` | super_otonom/async_io.py:58-146 | so does every run |
| `WriteBuffer.ProduceKeepsOrder` | super_otonom/async_io.py:70-79 | the drop-oldest path keeps the order of what remains |
| `WriteBuffer.ConsumeKeepsOrder` | super_otonom/async_io.py:82-114 | taking, batching, flushing and failing keep the order |
| `WriteBuffer.ProduceKeepsShutdown` | super_otonom/async_io.py:131-145 | the producer puts at most one sentinel, last in the queue, and evicts at most one line for it |
| `WriteBuffer.ConsumeKeepsShutdown` | super_otonom/async_io.py:83-99 | the consumer stops only on the sentinel, with the queue empty |
| `WriteBuffer.FlushMeansSettled` | super_otonom/async_io.py:117-129 | when flush sees no unfinished task, every submitted line is on disk, in a failed batch, evicted by close or counted as dropped |
| `WriteBuffer.ConsumerDrains` | super_otonom/async_io.py:82-103 | without further writes the consumer empties the queue within a number of steps given by a measure, whatever the file writes do, dropping nothing more |
| `WriteBuffer.ConsumeMakesProgress` | super_otonom/async_io.py:82-103 | each consumer action lowers that measure until nothing is left to do |
| `WriteBuffer.CloseLosesAtMostOne` | super_otonom/async_io.py:131-146 | after close and a drain at most one further line is lost, and the thread has stopped unless the sentinel was never put |
| `WriterLosses.LossesExactly` | super_otonom/async_io.py:131-146 | over every run: the sentinel is lost if and only if some producer action of close finds the queue empty that its put found full, and a line is lost to close if and only if that action finds it non-empty |
| `WriterLosses.RoomDelivers` | super_otonom/async_io.py:131-146 | with room in the queue when close begins, close loses neither sentinel nor line under any interleaving |
| `WriterLosses.CloseLosesIffFull` | super_otonom/async_io.py:131-146 | when close begins, a schedule that loses the sentinel, and one that loses a line, exist if and only if the queue is full |
| `WriterLosses.SubmittedArePutOrGivenUp` | super_otonom/async_io.py:67-79 | over every run, the lines submitted and no longer pending are those that entered the queue plus those given up |
| `WriterLosses.AllPutUnlessGivenUp` | super_otonom/async_io.py:67-79 | between calls, every submitted line has entered the queue if and only if no producer action found the queue empty after counting a drop |
| `WriterLosses.WriteGivesUpIffFull` | super_otonom/async_io.py:67-79 | when write begins, a schedule that loses its own line before it is queued exists if and only if the queue is full |
| `WriterLosses.StepPuts` | super_otonom/async_io.py:73-77 | each pending line is put or given up by exactly one producer action, and always put once it has evicted an older one |
| `WriteBuffer.LostSentinelNeverStops` | super_otonom/async_io.py:82-99 | once the sentinel is lost no action of either thread ever stops the consumer |
| `WriteBuffer.SentinelCanBeLost` | super_otonom/async_io.py:131-146 | a concrete interleaving that loses the sentinel |
| `WriteBuffer.WriteCanGiveUp` | super_otonom/async_io.py:70-79 | a concrete interleaving in which a write loses its own line and leaves the queue empty; the line is counted as dropped |
| `WriterFile.FileHoldsWholeLines` | super_otonom/async_io.py:105-112 | the file is exactly whole submitted lines, in order, if and only if no file write of the run failed inside a line; writes that failed between two lines, or wrote nothing, do no harm |
| `WriterFile.HalvesExactly` | super_otonom/async_io.py:105-114 | over every run, half lines appear if and only if some file write fails inside a line of its batch |
| `WriterFile.CutInsideLine` | super_otonom/async_io.py:109-110 | a failed write leaves exactly one half line if it stops inside a line, and none otherwise |
| `WriterFile.FileOnlyGrows` | super_otonom/async_io.py:109 | over every run the file only grows at its end, so the next text goes right behind whatever a write left |
| `WriterFile.FileHoldsSubmittedText` | super_otonom/async_io.py:105-114 | with failed writes that keep any number of characters, the file is the text of pieces of submitted lines in order, each line ending in a line break, with no more half lines than lines in failed batches |
| `WriteBuffer.CutsRender` | super_otonom/async_io.py:109-110 | what a failed write leaves is a prefix of the joined batch: whole lines and at most one half line |
| `WriterFile.NextLineIsGlued` | super_otonom/async_io.py:105-114 | for a quiet writer of any batch size: after a failed write the next line is appended to whatever was left |
| `WriterFile.HalfLineIsGlued` | super_otonom/async_io.py:105-114 | a concrete interleaving after which the file holds a line that was never submitted |
| `WriteBuffer.SubseqCut` | super_otonom/async_io.py:74 | evicting or failing a stretch leaves a subsequence |
| `AsyncWriteBuffers.AsyncWriteBuffer.Write` | super_otonom/async_io.py:58-79 | an undisturbed write call is a sequence of protocol steps; it is refused only once closed |
| `AsyncWriteBuffers.AsyncWriteBuffer.Close` | super_otonom/async_io.py:131-146 | an undisturbed close call is a sequence of protocol steps and keeps the sentinel |
| `AsyncWriteBuffers.WriteAlone` | super_otonom/async_io.py:58-79 | an undisturbed write queues its line, at the price of the oldest entry and one counted drop when the queue is full |
| `AsyncWriteBuffers.CloseAlone` | super_otonom/async_io.py:131-146 | an undisturbed close always delivers the sentinel, at the price of the oldest entry when the queue is full |
| `AsyncWriteBuffers.AsyncWriteBuffer.Collect` | super_otonom/async_io.py:88-100 | the batching loop: up to batch_size lines, stopping at an empty queue or the sentinel |
| `AsyncWriteBuffers.AsyncWriteBuffer.FlushBatch` | super_otonom/async_io.py:105-114 | appends the batch and counts it, or fails and counts nothing |
| `AsyncWriteBuffers.AsyncWriteBuffer.TaskDone` | super_otonom/async_io.py:96-103 | acknowledges exactly the tasks taken |
| `AsyncWriteBuffers.AsyncWriteBuffer.RunRound` | super_otonom/async_io.py:82-103 | one round of the consumer loop is a sequence of protocol steps and shortens the queue or stops |
| `AsyncWriteBuffers.RoundsAreRuns` | super_otonom/async_io.py:82-103 | consumer rounds are runs of the protocol, so its invariants hold of the loop |
| `OrderRate.RateNeverExceeded` | super_otonom/kill_switch.py:73-89 | with a clock that never runs backwards and each record after its own permitted check, no closed interval as long as the window holds more than max_orders of all orders ever recorded |
| `OrderRate.PermitsExactly` | super_otonom/kill_switch.py:78-85 | over every such run a check permits an order if and only if fewer than max_orders of all orders ever recorded lie within the window up to now |
| `OrderRate.CheckKeepsTheWindow` | super_otonom/kill_switch.py:73-85 | after a check the tracker holds exactly the orders of the whole history within the window |
| `OrderRate.PrunedIsSuffix` | super_otonom/kill_switch.py:73-76 | pruning from the front of a sorted queue removes exactly what is too old |
| `OrderRate.RunKeepsInv` | super_otonom/kill_switch.py:73-89 | the tracker invariant holds along every such run |
| `OrderRate.RecordKeepsInv` | super_otonom/kill_switch.py:87-89 | recording after a permitted check creates no burst over the limit |
| `OrderRate.IntervalsAreBounded` | super_otonom/kill_switch.py:78-85 | counting in intervals follows from counting in neighbouring orders |
| `OrderRate.UncheckedOrdersBurst` | super_otonom/kill_switch.py:87-89 | recording without a check exceeds the limit: a concrete run |
| `OrderRate.HardLimitTracker.constructor` | super_otonom/kill_switch.py:52-61 | lower bounds on the limit and the window |
| `OrderRate.HardLimitTracker.PruneOrders` | super_otonom/kill_switch.py:73-76 | the loop removes the specified prefix |
| `OrderRate.HardLimitTracker.CanSubmitOrder` | super_otonom/kill_switch.py:78-85 | denies exactly when the pruned queue has reached the limit |
| `OrderRate.HardLimitTracker.RecordOrder` | super_otonom/kill_switch.py:87-89 | prunes and appends |
| `CircuitBreaking.CounterMeaning` | super_otonom/exchange_async.py:133-167 | on every history the counter is failures since the last success minus half-open trials since then; open implies the threshold is reached |
| `CircuitBreaking.FailedTrialReopens` | super_otonom/exchange_async.py:162-166 | after a half-open trial the very next failure reopens |
| `CircuitBreaking.BlockedUntilRecovery` | super_otonom/exchange_async.py:154-167 | without a success every call is blocked that comes no later than recovery_time after the latest failure so far, and the first later one is let through |
| `CircuitBreaking.FailedFetch` | super_otonom/exchange_async.py:318-344 | a fetch whose attempts all fail adds one failure each and opens exactly at the threshold |
| `CircuitBreaking.AnsweredFetch` | super_otonom/exchange_async.py:318-325 | a fetch answered at some attempt reports the failures before it and the success, nothing more, and leaves the breaker closed with nothing counted |
| `CircuitBreaking.FetchOne` | super_otonom/exchange_async.py:306-352 | the retry loop reports failures up to the first success, asks the breaker once, and answers exactly when some allowed attempt succeeded |
| `CircuitBreaking.ForwardIsRun` | super_otonom/exchange_async.py:318-331 | reporting attempts one by one is the same history read forwards |
| `CircuitBreaking.CircuitBreaker.constructor` | super_otonom/exchange_async.py:126-131 | starts closed |
| `CircuitBreaking.CircuitBreaker.RecordFailure` | super_otonom/exchange_async.py:133-145 | counts, stamps, opens at the threshold |
| `CircuitBreaking.CircuitBreaker.RecordSuccess` | super_otonom/exchange_async.py:147-152 | clears and closes |
| `CircuitBreaking.CircuitBreaker.CanProceed` | super_otonom/exchange_async.py:154-167 | blocks while open, until the strict recovery time; then takes one failure back |
| `Cusum.CusumTwoSided` | super_otonom/meta_learning_engine.py:117-147 | with the reference length below, drift is flagged if and only if some contiguous stretch after the reference sums, upwards or downwards, to more than the threshold; the strength comes from the largest such sum; fewer than 24 points never alarm |
| `Cusum.Reference` | super_otonom/meta_learning_engine.py:130-131 | the reference is the whole part of the fraction of the series, at least 4 points and at most all |
| `Cusum.ReferenceIsUnique` | super_otonom/meta_learning_engine.py:130-131 | that condition fixes its length |
| `Cusum.ReferenceIsCentred` | super_otonom/meta_learning_engine.py:132 | without slack the excesses of the reference itself cancel |
| `Cusum.UnitsDoNotMatter` | super_otonom/meta_learning_engine.py:140 | scaling and shifting the series leaves every excess as it is |
| `Cusum.QuietWithinSlack` | super_otonom/meta_learning_engine.py:141-146 | a series within the slack of the mean never alarms |
| `Cusum.SpikeIsSeen` | super_otonom/meta_learning_engine.py:141-146 | one point further from the mean than slack and threshold together always alarms |
| `Cusum.Peak` | super_otonom/meta_learning_engine.py:136-143 | the one-pass recursion computes the maximum over all contiguous stretches of both excess series |
| `Cusum.RecursionStep` | super_otonom/meta_learning_engine.py:141-142 | max(0, g + e) is the largest sum of a stretch ending here |
| `Cusum.PeakStep` | super_otonom/meta_learning_engine.py:143 | the running peak is the largest sum of any stretch so far |
| `Cusum.LargestExceeds` | super_otonom/meta_learning_engine.py:146 | the largest sum exceeds the threshold if and only if some stretch does |
| `Cusum.StrengthAtThreshold` | super_otonom/meta_learning_engine.py:144-146 | an alarm is exactly a strength above 1/1.35, about 0.74; strength lies in 0..1 and is 1 exactly from 1.35 times the threshold on |
| `Concentration.LimitsHoldForever` | super_otonom/concentration_risk.py:119-184 | at a fixed positive NAV, starting empty, accepted additions and reductions keep total, every coin and every sector within its limit forever |
| `Concentration.ScoreBounded` | super_otonom/concentration_risk.py:202-217 | within the limits the unrounded score is at most max_single * max_total |
| `Concentration.ScoreAdds` | super_otonom/concentration_risk.py:211-217 | each position adds the square of its share of NAV, and no position scores nothing |
| `Concentration.CheckIsExact` | super_otonom/concentration_risk.py:131-184 | from within the limits an addition is allowed if and only if the result is within the limits too, or NAV is not positive |
| `Concentration.VerdictNamesLimit` | super_otonom/concentration_risk.py:144-175 | a refusal names the first limit, in the order total, coin, sector, that the addition would break |
| `Concentration.UnknownCoinsShareALimit` | super_otonom/concentration_risk.py:115-117 | coins outside the sector map share one sector limit |
| `Concentration.NoNavNoLimit` | super_otonom/concentration_risk.py:131-132 | at NAV zero or below every addition is allowed although the result breaks the single-coin limit |
| `Concentration.AddStaysWithin` | super_otonom/concentration_risk.py:142-184 | an addition keeps all limits, because it is refused whenever it would not |
| `Concentration.ReduceStaysWithin` | super_otonom/concentration_risk.py:119-184 | a reduction keeps all limits |
| `Concentration.RunStaysWithin` | super_otonom/concentration_risk.py:119-184 | so does every run from a state within the limits |
| `Concentration.CheckConcentration` | super_otonom/concentration_risk.py:119-184 | the verdict, in the order total, coin, sector |
| `Concentration.Sums` | super_otonom/concentration_risk.py:142-167 | the loops compute total and sector exposure |
| `Concentration.SectorBreakdown` | super_otonom/concentration_risk.py:186-200 | the table holds each occupied sector's exposure |
| `Concentration.TableAddsUp` | super_otonom/concentration_risk.py:192-196 | the lines of the table add up to the total exposure |
| `Concentration.AddToTable` | super_otonom/concentration_risk.py:193-196 | one loop step adds one position to its sector's line |
| `Concentration.ConcentrationScore` | super_otonom/concentration_risk.py:202-217 | the loop computes the sum of squared weights |
| `Concentration.SquaresBounded` | super_otonom/concentration_risk.py:213-217 | a sum of squares of weights up to a cap is at most the cap times their sum |
| `Backtest.BacktestsAgree` | scripts/edge_raw_signal.py:56-88 | for all positive prices, all signals and fee, slip in [0,1): final cash is 10000 times the product of 1 + net return over the other backtest's trades, and both count the same trades |
| `Backtest.CostsNeverHelp` | scripts/edge_raw_signal.py:67-86 | for the same prices and signals the final cash with fees and slippage is at most the final cash without |
| `Backtest.CostsOnlyHurt` | scripts/edge_validate.py:138-142 | slippage raises the purchase price and lowers the sale price, so no trade gains from costs |
| `Backtest.RoundTripCost` | scripts/edge_validate.py:138-142 | a round trip at an unchanged price costs slippage and fee twice |
| `Backtest.HeldExactly` | scripts/edge_validate.py:133-143 | a position is held exactly when some purchase signal was not followed by a sale signal, at the price of the first such |
| `Backtest.StepMatches` | scripts/edge_raw_signal.py:67-79 | every bar keeps the two backtests matched |
| `Backtest.OneRoundTrip` | scripts/edge_raw_signal.py:68-79 | a buy and a sell multiply cash by one plus the net return |
| `Backtest.NetOfGross` | scripts/edge_raw_signal.py:77 | the gross returns kept by the cash backtest, net of both fees, are the other one's returns |
| `Backtest.NoLookAhead` | scripts/edge_validate.py:133-143 | trades closed by a bar depend only on the candles up to that bar |
| `Backtest.WindowIsLast` | scripts/edge_validate.py:134 | a signal sees the last 150 candles up to its bar, or all there are |
| `Backtest.CollectTrades` | scripts/edge_validate.py:127-148 | the loop collects exactly the trades of the specification, closing an open one at the last price |
| `Backtest.Simulate` | scripts/edge_raw_signal.py:56-87 | the loop keeps the specified cash account, and the equity line is cash plus units at the bar's price |
| `TimeframeConsensus.ConflictIsLowScore` | super_otonom/multi_timeframe_consensus_engine.py:212-221 | for every non-empty input the conflict flag is exactly a score below 35 |
| `TimeframeConsensus.StrongMinorityScoresLow` | super_otonom/multi_timeframe_consensus_engine.py:219-221 | a minority of 35% or more leaves a score of at most 30 |
| `TimeframeConsensus.ConsensusFacts` | super_otonom/multi_timeframe_consensus_engine.py:205-255 | the "avoid" timing is never given, data health lies in 0.45..0.90 so its block never applies, and a block is exactly a score below 30 at confidence 0.55 or more |
| `TimeframeConsensus.TimingExactly` | super_otonom/multi_timeframe_consensus_engine.py:223-233 | enter now from 75, wait for a pullback from 55, wait for confirmation below 35, and otherwise unknown: the timing follows from the score alone |
| `TimeframeConsensus.ScoreIsNetShare` | super_otonom/multi_timeframe_consensus_engine.py:205-210 | the score is the net share of all weights in percent, up to rounding |
| `TimeframeConsensus.HealthExactly` | super_otonom/multi_timeframe_consensus_engine.py:235-244 | data health and confidence as exact figures; the cap of 0.80 and the clamps never bind |
| `TimeframeConsensus.AlphaAndRisk` | super_otonom/multi_timeframe_consensus_engine.py:246-248 | alpha is score times data health, risk 85 percent of the smaller side's share plus half of the missing health, both up to rounding |
| `TimeframeConsensus.CountExactly` | super_otonom/multi_timeframe_consensus_engine.py:168-200 | the loop's sums are the weights of all frames and of each side's voters |
| `TimeframeConsensus.UnanimousVote` | super_otonom/multi_timeframe_consensus_engine.py:205-233 | frames all on one side score 100 without conflict: enter now |
| `TimeframeConsensus.WeightRange` | super_otonom/multi_timeframe_consensus_engine.py:173-181 | a vote weighs at most its timeframe's weight, all of it without score and confidence, and at least 30 percent of it |
| `TimeframeConsensus.WeightGrows` | super_otonom/multi_timeframe_consensus_engine.py:173-181 | more score or more confidence weighs strictly more |
| `TimeframeConsensus.RoundIsNearest` | super_otonom/multi_timeframe_consensus_engine.py:60-63 | rounding is to the nearest integer, ties to the even one |
| `TimeframeConsensus.CountIsSound` | super_otonom/multi_timeframe_consensus_engine.py:158-200 | signed = buy - sell and total >= buy + sell, with a positive total, for every input |
| `TimeframeConsensus.InferMtfConsensus` | super_otonom/multi_timeframe_consensus_engine.py:118-271 | the loop computes the tally and the first timeframe of largest contribution; the result follows from the tally |
| `TimeframeConsensus.EnterExactly` | super_otonom/autonomous_decision_core.py:383-420 | ENTER, for every input with a voted consensus, is exactly: all permissions ALLOW, no veto, no cooldown, manipulation below 80, score at least 55, freshness, alpha, confidence and risk in range; the conflict, timing and gate tests decide nothing |
| `TimeframeConsensus.OtherActionsExactly` | super_otonom/autonomous_decision_core.py:383-403 | HALT, HEDGE and EXIT, each if and only if, in terms of the permissions, the veto, the cooldown and the scores |
| `TimeframeConsensus.GateIsRedundant` | super_otonom/autonomous_decision_core.py:318-321 | risk at most 70 without conflict already opens the risk gate |
| `TimeframeConsensus.VoteFacts` | super_otonom/autonomous_decision_core.py:406 | a consensus out of the vote, the empty one included, has conflict exactly below 35 and never "avoid" |
| `TimeframeConsensus.CombineTradePermission` | super_otonom/autonomous_decision_core.py:90-95 | the running best is the worst permission |
| `TimeframeConsensus.WorstIsWorst` | super_otonom/autonomous_decision_core.py:82-95 | it outranks every permission given and is one of them, or ALLOW |
| `RiskLatch.LatchHolds` | super_otonom/risk_manager.py:495-519 | once tripped, every check is refused with the same reason, whatever else happens, until the reset |
| `RiskLatch.ReasonIsFirstCode` | super_otonom/risk_manager.py:238-246 | on every run the latch is set exactly when something tripped it since the last reset, and the reason is the first code since then |
| `RiskLatch.CheckTrips` | super_otonom/risk_manager.py:495-549 | a check trips the latch exactly when it refuses for a latching reason, and with that reason |
| `RiskLatch.MetersAreLossesSinceReset` | super_otonom/risk_manager.py:256-283 | daily_loss and weekly_loss are exactly the losses recorded since their own last resets |
| `RiskLatch.CountedLossesAreRecent` | super_otonom/risk_manager.py:256-265 | every loss counted was recorded less than one period after the current period began |
| `RiskLatch.HistoryIsRecent` | super_otonom/risk_manager.py:277-279 | on every run the profit history holds exactly the last 500 records, in order |
| `RiskLatch.HistoriesStayEqual` | super_otonom/risk_manager.py:285-288 | once the attached view has the manager's own history, the two stay equal on every run |
| `RiskLatch.MeterStep` | super_otonom/risk_manager.py:256-283 | one event resets or charges each meter as the clock says; a latched check does not look at the clock |
| `RiskLatch.AcceptedIsWithinLimits` | super_otonom/risk_manager.py:423-493 | without the shared view an accepted check means: not latched, daily (volatility-scaled or static) and weekly loss below their limits, exposure within its limit and equity within the drawdown limit of the peak |
| `RiskLatch.AcceptsExactly` | super_otonom/risk_manager.py:423-549 | without the shared view a check is accepted if and only if all conditions hold, each stated on the state before it |
| `RiskLatch.AcceptsExactlyWithView` | super_otonom/risk_manager.py:392-549 | with the shared view a check is accepted if and only if not latched, capital positive, none of the view's three verdicts, no VaR breach, exposure within its limit of the view's NAV, and no spike |
| `RiskLatch.RefusalCodes` | super_otonom/risk_manager.py:392-549 | on either path an unlatched manager refuses with the code of the first check that fails |
| `RiskLatch.OtherRefusals` | super_otonom/risk_manager.py:514-525 | a latched manager gives its reason, one without capital its own code |
| `RiskLatch.DynamicLimitRange` | super_otonom/risk_manager.py:341-388 | the volatility-scaled limit is twice the volatility, within two to five percent |
| `RiskLatch.SpikeExactly` | super_otonom/risk_manager.py:307-337 | a spike is more than twice the average of at least ten volatilities |
| `RiskLatch.VolatilityIsKept` | super_otonom/risk_manager.py:487-491 | a volatility enters the history, its last 200 kept, exactly when the check reaches it |
| `RiskLatch.AcceptedNearRunningPeak` | super_otonom/risk_manager.py:449-460 | an accepted equity is within the drawdown limit of a peak at least as high as every equity accepted or reported before |
| `RiskLatch.PeakCovers` | super_otonom/risk_manager.py:291-294 | the peak is at least every equity accepted or reported |
| `RiskLatch.PeakIsAttained` | super_otonom/risk_manager.py:291-294 | the peak is the initial capital or the equity of some event |
| `RiskLatch.PeakNeverFalls` | super_otonom/risk_manager.py:291-294 | no event lowers the peak |
| `RiskLatch.RiskManager.constructor` | super_otonom/risk_manager.py:46-70 | starts unlatched with both periods starting now |
| `RiskLatch.RiskManager.TriggerEmergency` | super_otonom/risk_manager.py:238-249 | the first code wins |
| `RiskLatch.RiskManager.ResetEmergencyStop` | super_otonom/risk_manager.py:578-582 | clears latch and reason |
| `RiskLatch.RiskManager.MaybeResetMeters` | super_otonom/risk_manager.py:256-265 | each meter restarts on its own period |
| `RiskLatch.RiskManager.RecordPnlAt` | super_otonom/risk_manager.py:269-288 | restarts due meters, keeps the last 500 records, charges a loss to both meters, and forwards the record to an attached view's history |
| `RiskLatch.RiskManager.SetOntology` | super_otonom/risk_manager.py:91-94 | attaches a view with the history it already has |
| `RiskLatch.RiskManager.UpdatePeakEquity` | super_otonom/risk_manager.py:291-294 | raises the peak |
| `RiskLatch.RiskManager.CheckLosses` | super_otonom/risk_manager.py:423-462 | daily (volatility-scaled or static), weekly and drawdown limits in order; the peak moves only when the first two pass |
| `RiskLatch.RiskManager.CheckView` | super_otonom/risk_manager.py:392-421 | the shared view's verdicts in order |
| `RiskLatch.RiskManager.CheckExposureAndVol` | super_otonom/risk_manager.py:464-493 | exposure, which latches only when configured, then the volatility spike on the bounded history |
| `RiskLatch.RiskManager.Check` | super_otonom/risk_manager.py:495-549 | the whole chain: result, remembered reason and new state |

## Left out

- Floating-point rounding, NaN and display rounding: every amount is an exact real, so
  re-summing against drift and the two- or four-digit values in snapshots and reports
  do not appear.
- Journal, log text, audit and report files, JSON encoding, file rotation and atomic
  replacement.
- Order routing: intent, recovery and retry of orders, fill simulation and slippage.
  A fill is any price, quantity and fee.
- Interleaving inside the trade executor: its waits on the exchange are taken as one
  atomic step.
- Position mismatch lists of the exchange reconciliation; they only produce warnings.
- WriteBuffer: several producers at once, and the timeouts of flush and join, are not
  modelled; a failed write leaves whole characters, not part of an encoded one.
- RiskLatch.RiskManager.RecordPnlAt: does not recompute the shared view's value at risk
  (super_otonom/risk_manager.py:289), because the view's figures are arguments here.
- The shared risk view, the VaR engine and the omega feedback of the risk manager.
- Cusum.CusumTwoSided: takes the standard deviation of the reference as an argument;
  square roots are not modelled.
- Backtest.NoLookAhead: the signal is a function of its window; an analyzer object that
  is kept across bars (scripts/edge_validate.py:57-69) and might remember earlier ones
  is not modelled.
- Backtest.Simulate: Sharpe ratio, drawdown and win rate of the result are not modelled.
- TimeframeConsensus.InferMtfConsensus: signal words arrive normalised, the weight of
  HOLD votes, which nothing reads, is not kept, and time stamps are dropped.
- TimeframeConsensus.EnterExactly: position sizing, block reasons and the derivation of
  the input figures from other phases are not modelled.
- Concentration.SectorBreakdown: the final scaling to rounded percentages is not modelled.
- Price-jump check and rate-limit storm counter of the kill switch: single comparisons.
- State files without a ledger section, and the start-up bookkeeping around loading.
- Exchange, HTTP, WebSocket, Redis, Vault and Telegram code, and both Go services.
- The weighted scorers of the remaining phases, and matrix, logarithm and learning code.
