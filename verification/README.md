# AutoTrader, verified

AutoTrader buys pairs of index options (one call, one put), watches them, and sells them again. This project models
the parts of it that hold money or decide about it, and proves what they promise for every input, every broker, every
interleaving and every run:

* **Orders at the broker** (`OrderBroker`, `Confirmation`, `BrokerExecutor`, `ExitProtocol`, `ExitBook`). The broker is
  an adversary: an arbitrary fate decides, order by order, what each placement, status query and cancel will answer and
  how many units really fill. An entry ends with both legs bought in full, flat, or with a call for manual
  reconciliation; exits never ask for more than is recorded open. For entries and for whole lives of trades it is proved
  exactly when what is recorded is what the broker holds.
* **One position at a time** (`PositionReservation`, `MultiIndexCoordinator`, `SlotProtocol`, `StaleSignals`,
  `RefusedRows`, `LiveEngine`). The engine thread and the queue worker of PAPER mode are interleaved one shared access at
  a time; the classes are proved to be runs of that protocol.
* **A trade's life and its money** (`Trading`, `NetOfClosed`, `TransactionCosts`, `Money`, `ExitManagers`, `SimulatedFill`,
  `PaperExecutor`, `BacktestEngine`, `ReplayOutcomes`). Prices are exact rationals, rounding to paise and to four decimals
  is half-even and explicit. `BacktestEngine` replays days with arbitrary strategy choices and keeps books that balance;
  `ReplayOutcomes` says what each kind of minute and the end of each day does to the open trade.
* **Choosing a pair** (`PairTemplates`, `EntrySignal`, `PositionSizer`, `PairRanker`, `Profitability`,
  `ScanDiagnostics`, `ExecutionValidator`, `IndexScanner`). Strike layout, entry gates, ranking, projection, sizing,
  validation, and the separate code that explains rejections, all on one fixed picture of the market.
* **Stores** (`CandleStore`, `DiagnosticCapture`, `ActivityJournal`) against batch definitions of what they should hold.
* **Capital** (`CapitalLedger`, `PaperAccount`, `LiveReadiness`): append-only rows, no double counting, drawdown in one
  pass.

`Common` holds shared small types. Objects the program updates in place are classes here, each method tied to a function
of the old state; the long proofs are about those functions.

## What the proofs assume

* Whatever else it does, the broker never reports or fills more units than an order asks for: what it reports and what
  it hides are cut off there.
* Of the main results only `EntryIsAtomic`, `EntryNotesAreTrue` and `ManualMeansUnconfirmedSell` assume an honest broker,
  and only for the two buys of an entry: status queries and cancels succeed, fills stop at the last query, filled plus remaining is what was
  ordered, and fills carry a positive price. `NoteIsTrueIffSafe`, `ContainedNoteIsTrueIffSafe`, `EntryReportIsTrueIff`
  and `HoldingIsRecordedIff` say without any of that exactly when the program's picture is true.
* `SlotProtocol` assumes fresh tokens and trade ids and that log and store calls do not raise; of the ledger's errors it
  models the refusal of a second, different result. A token is a counter value instead of a random identifier. The target
  a rotation signal carries there is history: the program's signal names no trade.
* A replayed bar has positive prices; the market cache refuses others.

## Findings

* An entry can report itself flat while units are held (`UnconfirmedCancelHidesFills`). `EntryReportIsTrueIff` says for
  every broker when the report is true of a leg: exactly when the note of that leg's entry order is safe, by the listed
  guards of the branch that ended the wait or the containment.
* The same unsafe notes make exits oversell: a sell whose cancel is not confirmed is retried in full, and the trade can be
  closed with the broker short a whole leg (`RetryCanOversell`). `TradeLifeIsRecorded` says exactly when it is not.
* An order filled in full but never reported TRADED leaves a trade partially exited with nothing left to sell, and no
  later attempt can close it (`SoldOutPartialExitIsReachable`, `SoldOutPartialExitIsStuck`); with units left some attempt
  always can (`ClosableIffUnitsLeft`).
* A hedge cut or a rotation queued behind a rotation is carried out on the replacement trade
  (`StaleHedgeCutHitsReplacement`, `StaleRotationSellsReplacement`). In every interleaving a rotation filled between the
  look and the signal is the only way to miss (`HedgeCutMissesIffRotated`, `RotationMissesIffRotated`); exits check the
  trade id and are safe (`StaleExitDoesNothing`).
* A stop between writing a trade's ledger row and saving the recovery state leaves a recovered open trade that will be
  sold again. If its second result differs, the ledger refuses it and the closed trade stays tracked with the slot
  (`SoldAgainIsStranded`, `StrandedForever`); nothing else leaks the slot (`StrandedIffRefused`, `StrandedHadOtherRow`).
  Restarts that recover the trade as open again do not help: no entry opens another trade until a sale brings exactly
  the booked amount (`RestartsDoNotFree`), and such a sale frees the slot (`SoldForItsRowIsFreed`).
* Raising an exit price by a paisa can lower net P&L, only ever for a single unit off the paise grid. `ClosedNetFallsIff`
  says exactly when, however the trade was closed; `CutNetFallsIff` and `NetPnlFallsIff` say it for trades cut before
  they were exited and for trades exited at once; the two do not fall at the same prices (`OneCutUnitCanLose`).
* A simulated target exit is documented to hit its target exactly without overshoot; it can miss either way by up to a
  paisa per unit (`TargetExitIsClose`, `TargetExitCanOvershoot`), and `TargetExitIsExactIff` says when it does not.
* The final validator refuses every pair with both legs out of the money, so a research pair that wins the ranking is
  never returned by a PAPER scan (`Scan`, `ValidatedPlanIsSafe`).
* The ranker's low-confidence rejection cannot happen (`VerdictIsTrue`), nor can the candle store's second ordering guard
  (`BucketNeverGoesBack`), nor, outside a replay, the early returns between ranking and validation (`PlanTop`).
* Adjusting the paper account to a target misses the target exactly when its equity had been cut off at zero
  (`AdjustmentReachesTarget`).

## Model

| member | source | states |
|---|---|---|
| Money.ComputeRoundHalfEven | core/transaction_costs.py:25-35 | floor-and-compare computes the nearest integer, ties to even, which is unique |
| Money.Round2FixedIffWholePaise | core/models.py:224-226 | rounding to paise changes nothing exactly for whole paise |
| Money.Round2Monotone | core/models.py:224-226 | rounding to paise preserves order |
| Money.ValueIsWholePaise | core/models.py:168-187 | whole paise per unit stay whole paise for any number of units |
| TransactionCosts.ComputeTotalCosts | core/transaction_costs.py:38-76 | the computed total is that of the itemised round-trip charges, nothing for no lots |
| TransactionCosts.TotalCostsIsItemisedTotal | core/transaction_costs.py:38-76 | for accepted prices the charges exist and P&L sees exactly their total |
| TransactionCosts.FourRoundingsGap | core/transaction_costs.py:55-76 | four separately rounded components drift by at most four units of the fourth decimal |
| TransactionCosts.TotalCostsGrowSlowly | core/transaction_costs.py:25-76 | a paisa more on the exit raises rounded charges by less than it brings from two units on, and by no more for one |
| TransactionCosts.ItemsAreCharged | core/transaction_costs.py:55-76 | each item is its own rate on its own turnover, to half a unit of the fourth decimal |
| TransactionCosts.ChargesAreNearlyLinear | core/transaction_costs.py:25-76 | a round trip costs 94.40 and 0.0450316% of what is bought and 0.1920316% of what is sold, within a paisa |
| Trading.LifecycleFixesUnits | backtest/simulated_fill.py:55-119 | at every step of a trade's life its phase fixes the open units and recorded exits |
| Trading.OpenGrossIsSaleAtQuotes | core/models.py:168-187 | gross P&L of an open trade, in either phase, is what selling its open legs at the quotes would gross |
| Trading.OpenNetIsSaleAtQuotes | core/models.py:201-226 | net P&L of an open trade is that of the same sale, where there are positive quotes to sell at |
| Trading.OpenGrossIsSumOfDifferences | core/models.py:170-176 | a whole pair makes the sum of its two price differences on every unit |
| Trading.OpenCostsAtQuotes | core/models.py:201-222 | an open pair is charged for selling at its quotes, or at its entry price where a leg has no positive quote |
| Trading.CloseIsPathIndependent | core/models.py:168-187 | at whole-paise prices exiting both legs, or cutting then exiting with any quotes in between, gross the same exact leg sum and the same net |
| Trading.CloseDiffersByAPaisa | core/models.py:168-187 | off the paise grid the two ways differ by at most a paisa |
| Trading.GrossOfClosed | core/models.py:168-187 | a closed trade whose loser, if cut, was booked at its sale grosses its leg sum rounded once, give or take a paisa, and exactly at whole-paise prices |
| Trading.HedgeCutIsContinuous | execution/paper_executor.py:174-211 | at whole-paise prices cutting the loser at its quote changes neither gross nor net P&L |
| Trading.HedgeCutMovesAPaisa | execution/paper_executor.py:174-211 | at any prices cutting the loser at its positive quote moves gross and net P&L by at most a paisa |
| Trading.LoserQuotesAreInvisible | core/models.py:168-187 | after the cut no quote of the sold leg changes gross or net P&L |
| Trading.NetPnlIsMonotone | core/models.py:201-226 | with both legs exited at once, one paisa more on either exit never lowers net P&L for two units or more, or for one at whole-paise prices |
| Trading.NetPnlFallsIff | core/models.py:201-226 | with both legs exited at once, for any positive unit count, net P&L falls exactly for one unit at a rounding tie whose charges also rise |
| Trading.OneUnitOffTheGridCanLose | core/models.py:201-226 | a concrete unit sold for a paisa more that nets a paisa less |
| NetOfClosed.PaisaIsLostTwiceRoundedIff | core/models.py:180-183 | rounding an amount, adding another and rounding again loses a paisa exactly at a tie of the second rounding that the first did not double, or at a tie of the first |
| NetOfClosed.ClosedNetIsMonotone | core/models.py:168-226 | however a trade was closed, cut loser included, a paisa more on either sale never lowers net P&L for two units or more at any prices, or for one at whole-paise prices |
| NetOfClosed.ClosedNetFallsIff | core/models.py:168-226 | however a trade was closed, net P&L falls exactly for one unit whose gross loses the paisa in rounding while its charges rise |
| NetOfClosed.CutNetFallsIff | core/models.py:180-226 | for a trade cut and then exited: exactly for one unit at a tie of the booked loser or of booked loser plus winner, with rising charges, whatever was quoted in between |
| NetOfClosed.OneCutUnitCanLose | core/models.py:180-226 | a concrete cut unit that nets a paisa less for a paisa more, while exiting both legs at once at the same prices does not |
| Trading.Trade.CombinedPnl | core/models.py:168-187 | computes gross P&L of the phase the trade is in |
| Trading.Trade.NetPnl | core/models.py:201-226 | computes gross less charges at exit, quote or entry prices |
| Trading.Trade.HedgeCut | backtest/simulated_fill.py:82-102 | sells the losing leg whole, books its rounded result, keeps the winner and everything else |
| Trading.Trade.SingleLegExit | backtest/simulated_fill.py:104-119 | sells the winning leg whole and closes, keeping the booked loser |
| Trading.Trade.ExitBoth | backtest/simulated_fill.py:74-80 | sells both legs whole and closes |
| OrderBroker.NotesAreTheTruth | execution/broker_executor.py:62-122 | where every note of an order is right, the net position by the notes is the net position at the broker |
| OrderBroker.Broker.GetOrder | execution/broker_executor.py:67-72 | a query gives the next answer of the order's fate and changes nothing but that |
| OrderBroker.Broker.CancelOrder | execution/broker_executor.py:98-106 | a cancel is confirmed as the fate says and changes nothing but that |
| Confirmation.NoteIsTrueIffSafe | execution/broker_executor.py:62-122 | the quantity the wait concludes equals the units really filled exactly in the listed cases of its last branch |
| Confirmation.FullIff | execution/broker_executor.py:73-97 | an order is fully confirmed exactly when the answer that ends the wait says so at a positive price |
| Confirmation.ConcludedAsSeen | execution/broker_executor.py:62-122 | the price concluded is that of the last answer seen, and the quantity the one it reported |
| Confirmation.WellBehavedIsSafe | execution/broker_executor.py:62-122 | an honest broker is always in one of those cases |
| BrokerExecutor.LiveExecutor.AwaitFill | execution/broker_executor.py:62-122 | the polling loop settles the order as the confirmation function says and touches no other order |
| BrokerExecutor.LiveExecutor.Authorize | execution/broker_executor.py:31-60 | lets an entry through exactly when asks, quantities, allocation, reserve and broker funds allow it |
| BrokerExecutor.AuthorizedIff | execution/broker_executor.py:31-60 | an entry is let through exactly when asks, sizes, ids and funds are usable and what it needs fits allocation, what the reserve leaves of it, and funds |
| BrokerExecutor.RequiredIsOutlayAndCharges | execution/broker_executor.py:31-60 | what it needs is both legs at their asks and the charges of buying and selling there |
| BrokerExecutor.LiveExecutor.ContainLeg | execution/broker_executor.py:137-162 | an accepted leg is read, cancelled if anything remains, and what filled is sold back |
| BrokerExecutor.LiveExecutor.ContainMixedPlacements | execution/broker_executor.py:124-167 | both legs are contained even when one fails, and failure is reported exactly then |
| BrokerExecutor.LiveExecutor.ConfirmEntry | execution/broker_executor.py:204-256 | both legs are confirmed, or all confirmed fills are sold back |
| BrokerExecutor.LiveExecutor.ExecuteEntry | execution/broker_executor.py:169-289 | a blocked entry places nothing; any other adds exactly the orders and the outcome the entry functions define |
| BrokerExecutor.OpenedAsFilled | execution/broker_executor.py:257-281 | an opened trade is the plan's whole pair, each leg entered at the price its own order was last seen at |
| BrokerExecutor.EntryEndsAs | execution/broker_executor.py:190-256 | which of the four ways an entry ends: opened exactly when both orders are accepted and fully confirmed, manual exactly when a leg came loose or a sale back was not confirmed, else contained or unwound by whether a placement failed |
| BrokerExecutor.ContainedAsSeen | execution/broker_executor.py:137-162 | a refused leg is left alone; an accepted one is looked at once, cancelled exactly when units remain, and noted with its reported fill unless the cancel failed |
| BrokerExecutor.EntryBooksAreAtomic | execution/broker_executor.py:169-289 | whatever the broker does, the program's books of a leg end at the ordered units, at zero, or at manual reconciliation |
| BrokerExecutor.FullFillIsReal | execution/broker_executor.py:73-79 | an order confirmed in full has really filled in full, for every broker |
| BrokerExecutor.ContainedNoteIsTrueIffSafe | execution/broker_executor.py:137-162 | the quantity containment takes an order to have filled is the real one exactly in the listed cases of the branch it took |
| BrokerExecutor.EntryReportIsTrueIff | execution/broker_executor.py:169-289 | for every broker: an opened trade holds the ordered units, a flat report is true of a leg exactly when the note of its entry order is safe, and manual reconciliation leaves at most the ordered units, and with a safe note not less than none |
| BrokerExecutor.EntryNotesAreTrue | execution/broker_executor.py:62-167 | with honest buys every order of an entry that needs no manual reconciliation is noted as it filled, sells included |
| BrokerExecutor.EntryIsAtomic | execution/broker_executor.py:169-289 | with honest buys, and sells that may do anything, an entry holds the ordered units of each leg, or reports flat and is flat on both, or asks for manual reconciliation with a holding between none and the ordered units |
| BrokerExecutor.ManualMeansUnconfirmedSell | execution/broker_executor.py:160-166 | with honest buys manual reconciliation is asked for exactly when a sell was not fully confirmed |
| BrokerExecutor.UnconfirmedCancelHidesFills | execution/broker_executor.py:98-106 | a concrete broker with which an entry reports flat and is not |
| BrokerExecutor.LiveExecutor.SellOpenLegs | execution/broker_executor.py:303-348 | every leg with open units gets one order for exactly those, and each result is recorded |
| BrokerExecutor.LiveExecutor.ExecuteExitBoth | execution/broker_executor.py:291-359 | the trade ends as one exit attempt, closed exactly when reported so, with one settled order for each open leg |
| BrokerExecutor.LiveExecutor.ExecuteHedgeCut | execution/broker_executor.py:361-407 | the trade ends as one hedge-cut attempt with at most one settled order for the losing leg |
| BrokerExecutor.LiveExecutor.ExecuteSingleLegExit | execution/broker_executor.py:409-451 | the trade ends as one single-leg attempt with at most one settled order for the winning leg |
| ExitProtocol.OpenedTradeKeepsInvariant | execution/broker_executor.py:258-281 | a whole pair starts with what exits keep |
| ExitProtocol.AttemptConserves | ui/app.py:829-850 | one dispatched attempt lowers each leg's open units by what is reported sold, never orders more than is open, and keeps the phase rules |
| ExitProtocol.AttemptRecordsFills | execution/broker_executor.py:338-451 | an attempt leaves on each leg it sold the price its own order brought, partial fills and hedge cuts included, and the other leg's prices as they were |
| ExitProtocol.AttemptOutcome | execution/broker_executor.py:291-451 | the phase, reason and booked loser an attempt leaves, by what its orders brought |
| ExitProtocol.ExitsConserveUnits | execution/broker_executor.py:291-451 | over any attempts open units are entry units less all units the executor reports sold; closed means none, single-leg means no loser left |
| ExitProtocol.SellingMakesProgress | execution/broker_executor.py:291-451 | total open units strictly fall on every attempt that sells anything and stay put on every other |
| ExitProtocol.ExitClosesIffAllConfirmed | execution/broker_executor.py:303-359 | an exit closes the trade exactly when it orders something and every order is confirmed full |
| ExitProtocol.ClosableIffUnitsLeft | execution/broker_executor.py:291-451 | an open trade has an attempt that closes it, with an honest broker, exactly while units are left |
| ExitProtocol.SoldOutPartialExitIsStuck | execution/broker_executor.py:296-297 | a partial exit with nothing left to sell is never changed by any attempts |
| ExitProtocol.SoldOutPartialExitIsReachable | execution/broker_executor.py:96-118 | an honest broker can lead there |
| ExitBook.OpenFollowsNotes | execution/broker_executor.py:291-451 | for every broker and any requests, recorded open units move exactly as the notes of the orders placed |
| ExitBook.HeldAgainstNotes | execution/broker_executor.py:62-122 | after any waited-for sells the broker holds at most what the notes say, and exactly that where all notes are safe |
| ExitBook.BehavedNotesAreSafe | execution/broker_executor.py:62-122 | an honest broker keeps every note safe |
| ExitBook.HoldingIsRecordedIff | execution/broker_executor.py:291-451 | over any requests on one order book, the holding of a leg moves exactly as its recorded open units if and only if the note of each of its sells is safe, and never stays above them |
| ExitBook.SellsAreCovered | execution/broker_executor.py:303-314 | with safe notes no sell of any request is for more than the broker holds when it is placed |
| ExitBook.TradeLifeIsRecorded | execution/broker_executor.py:169-451 | from an entry on a flat book through any requests: what is recorded open is held, closed means flat at the broker, exactly when the notes of the sells are safe |
| ExitBook.RetryCanOversell | execution/broker_executor.py:98-106 | a concrete broker with which a retried exit closes the trade and leaves the broker short a leg |
| ExitBook.HandleRequest | ui/app.py:829-875 | one request carried out by the live executor moves trade and order book as the request function says |
| PositionReservation.Reservation.TryReserve | application/position_reservation.py:28-36 | reserves an empty slot for a fresh token and otherwise changes nothing |
| PositionReservation.Reservation.Activate | application/position_reservation.py:38-43 | only the owner of a reservation makes it active |
| PositionReservation.Reservation.Release | application/position_reservation.py:45-52 | only the owner frees the slot |
| PositionReservation.OnlyOwnerMoves | application/position_reservation.py:28-52 | a taken slot is never reserved over, and only its owner's token activates or frees it |
| SlotProtocol.RunKeepsSlotInvariant | ui/app.py:225-282 | every interleaving keeps: a free slot has no holder, a taken one exactly one, whose token owns it |
| SlotProtocol.SlotIsSafe | ui/app.py:775-822 | in every interleaving, recovery included: at most one live entry, an open trade means a taken slot owned by the stored token, the already-active branch is never reached |
| SlotProtocol.SlotDoesNotLeak | ui/app.py:753-773 | at rest with an empty queue the slot is free exactly when no token is stored, and, unless a closed trade is stranded by a refused row, exactly when no trade is open, whatever was recovered at the start |
| SlotProtocol.FreeSlotCanBeEntered | ui/app.py:775-822 | from rest with a free slot some interleaving opens a new trade, holding the slot with a stored token |
| SlotProtocol.OpenTradeCanBeExited | ui/app.py:829-864 | from rest with an open trade some interleaving sells it, books and writes its result once and frees the slot |
| SlotProtocol.LooksAreTrue | ui/app.py:600-676 | a scan starts only after a look found no open trade, and only the open trade seen is watched |
| SlotProtocol.OnlyLooksStartScans | ui/app.py:600-751 | nothing else starts a scan or a watch, and rotating needs a tracked trade |
| SlotProtocol.GivingUpMovesNothing | ui/app.py:600-751 | a scan or a watch without a result moves nothing, and a thread does nothing that is not next for it |
| SlotProtocol.ActivationIff | application/position_reservation.py:38-43 | an activation is done exactly when the slot is reserved for its token |
| SlotProtocol.RunKeepsLedger | ui/app.py:852-864 | every interleaving keeps the books: the rows are the initial ones and the completed closing sales, in order, up to a row the ledger refuses because it held another for that trade |
| SlotProtocol.ProfitMatchesLedger | ui/app.py:852-864 | from any start, between closes and with no trade stranded: realized P&L less its start is the sum of the closing sales, one for each trade, and the rows written are those sales but for a recovered trade that had its row |
| SlotProtocol.FreshProfitMatchesLedger | ui/app.py:852-864 | where the recovered trade has no row yet nothing is refused or stranded, and realized P&L less its start is the sum of the rows written |
| SlotProtocol.StaleExitDoesNothing | ui/app.py:829-835 | an exit signal for a closed or other trade sells and writes nothing |
| StaleSignals.RunKeepsTargets | ui/app.py:600-751 | every interleaving keeps: between a look at a trade and the hedge cut or rotation raised for it no entry opens another trade |
| StaleSignals.HedgeCutMissesIffRotated | ui/app.py:672-676 | a hedge cut changes another trade than the one looked at exactly when a rotation was filled since and its replacement is still whole; it is that replacement |
| StaleSignals.RotationMissesIffRotated | ui/app.py:725-751 | a rotation sells another trade than the one handed to the rotation rule exactly when a rotation was filled since and its replacement is still open |
| StaleSignals.StaleHedgeCutHitsReplacement | ui/app.py:867-875 | a run from a recovered start in which a hedge cut queued behind a rotation cuts the replacement |
| StaleSignals.StaleRotationSellsReplacement | ui/app.py:893-930 | a run from a recovered start in which a second rotation sells the replacement of the first |
| RefusedRows.StrandedIffRefused | ui/app.py:852-864 | in every interleaving a closed trade is left tracked exactly when the ledger refused its row on the way |
| RefusedRows.StrandedForever | ui/app.py:852-864 | no later steps of either thread free a stranded trade or its slot |
| RefusedRows.StrandedHadOtherRow | database/capital_ledger.py:225-244 | only a trade that had a row with another amount at the start can be stranded |
| RefusedRows.SoldAgainIsStranded | ui/app.py:852-861 | a recovered trade whose row was already written is stranded when sold again for another amount |
| RefusedRows.RestartsDoNotFree | ui/app.py:433-438 | over any sessions that recover the trade as open, it keeps the slot, no other trade is opened and the ledger stays, as long as it is not sold for exactly the amount of its row |
| RefusedRows.SoldForItsRowIsFreed | ui/app.py:852-865 | a recovered trade sold again for the amount of its row is accepted without a new row and gives the slot back |
| LiveEngine.Engine.ReserveRecoveredPosition | ui/app.py:273-282 | an open recovered trade takes the empty slot, active, under the stored token; otherwise nothing changes |
| LiveEngine.Engine.ReleaseReservation | ui/app.py:252-257 | frees the slot for the given or stored token and forgets the stored token only if it was that one |
| LiveEngine.Engine.ExecutePaperPlan | ui/app.py:259-271 | a failed fill gives the slot back before the error travels on |
| LiveEngine.Engine.HandleEntryFailure | ui/app.py:753-773 | after a failed entry the slot is kept only if a trade is open |
| LiveEngine.Engine.ProcessNext | ui/app.py:775-973 | handling one signal is the protocol's worker run from dequeue to rest, with the same final state |
| LiveEngine.EntryHandled | ui/app.py:780-822 | the worker's accesses for an entry add up to: opened and stored, or released |
| LiveEngine.Engine.CloseActive | ui/app.py:852-864 | the result is added and its row written once and the trade cleared, or the row refused and the closed trade left tracked |
| LiveEngine.ExitHandled | ui/app.py:829-865 | the worker's accesses for an exit add up to: sold, booked, written once, cleared and released, or stranded by a refused row, or nothing |
| LiveEngine.RotationHandled | ui/app.py:893-973 | the worker's accesses for a rotation add up to a close and a new trade under the same token, a close and a release, or a trade stranded by a refused row |
| LiveEngine.DriveIsRun | ui/app.py:775-973 | what the worker does for a signal is a run of the protocol |
| LiveEngine.HandlingIsRun | ui/app.py:775-973 | a signal handled from dequeue to rest, as the engine class does it, is a run of the protocol |
| LiveEngine.DriveKeepsInvariants | ui/app.py:775-973 | so it keeps the slot invariant and the books |
| MultiIndexCoordinator.SelectWinner | application/multi_index_coordinator.py:62-80 | the winner is the first eligible scan that no eligible scan ranks above; none exactly when none is eligible |
| MultiIndexCoordinator.WinnerIff | application/multi_index_coordinator.py:61-79 | the winner is selected, tradable and has a candidate; no other such scan has a higher net, at equal net a higher confidence, at both equal a later symbol |
| MultiIndexCoordinator.Coordinator.Coordinate | application/multi_index_coordinator.py:52-97 | at most one candidate reaches the queue, and the new state is the protocol's reserve, dispatch, activate or reject run |
| ExitManagers.BestIsMaximum | strategy/exit_manager.py:48-50 | the running best is the start or a profit seen, and none exceeds it |
| ExitManagers.CheckAnswersIff | strategy/exit_manager.py:24-98 | with both legs open: stopped exactly when net has lost the stop; else given back exactly when profit fell from a positive best by more than its share; else at target exactly when a sideways trade grosses charges, 4, 5 or 6% of premium and 8.0, half as much again before the close |
| ExitManagers.SingleCheckAnswersIff | strategy/single_leg_exit_manager.py:21-59 | with the winner alone: stopped by the net of the whole trade, given back by the winner's own profit, never at target |
| ExitManagers.OtherPhasesAreLeft | strategy/exit_manager.py:24-25 | in the other phases a manager neither answers nor touches the trade |
| ExitManagers.StopIsFrozenOrShare | strategy/exit_manager.py:37-41 | the stop is the frozen amount, or the loss share of the capital at entry, or of the configured capital |
| ExitManagers.CheckRecords | strategy/exit_manager.py:27-98 | a check records both quotes, the best positive profit unless stopped, and the target it closed at |
| ExitManagers.TargetExitNetsProfit | strategy/exit_manager.py:62-96 | a trade closed at its target nets at least 7.0 and 3% of its premium at those quotes, all charges paid |
| ExitManagers.CheckIsDue | strategy/exit_manager.py:15-98 | the manager, remembering only the peak, decides at the next look what the whole history of looks decides |
| ExitManagers.QuietWatch | strategy/exit_manager.py:15-98 | while no look meets a rule nothing fires and the stored peak is the best positive gross seen |
| ExitManagers.WatchFiresAtFirst | strategy/exit_manager.py:15-98 | the first look that meets a rule fires, with the first rule in order as reason |
| ExitManagers.QuietSingleWatch | strategy/single_leg_exit_manager.py:14-59 | the same for the winning leg alone, unrounded |
| ExitManagers.SingleWatchFiresAtFirst | strategy/single_leg_exit_manager.py:14-59 | the single-leg manager fires at the first look that meets one of its two rules |
| ExitManagers.CheckExits | strategy/exit_manager.py:15-98 | one check moves quotes, peak and target as the step function says and leaves other phases alone |
| ExitManagers.CheckSingleLegExit | strategy/single_leg_exit_manager.py:14-59 | one check moves quotes and peak as the step function says and leaves other phases alone |
| SimulatedFill.FillEntry | backtest/simulated_fill.py:14-53 | an entry fills exactly when it is a market order or both limits lie inside their bars, at the open or the limits |
| SimulatedFill.EnteredAsPlanned | backtest/simulated_fill.py:16-53 | the trade is the plan's in every field, bought at its limits or at the opens |
| SimulatedFill.FillsIff | backtest/simulated_fill.py:16-53 | a plan fills exactly when each price it would be bought at lies in its own leg's bar |
| SimulatedFill.SharesAreProportional | backtest/simulated_fill.py:55-80 | before rounding, the two prices of a target exit stand in the proportion of the closes |
| SimulatedFill.FillExitBoth | backtest/simulated_fill.py:55-80 | exits at the closes, or at target prices; a target on no units changes nothing |
| SimulatedFill.TargetExitMisses | backtest/simulated_fill.py:56-69 | a target exit grosses the target plus the rounding slack on every unit |
| SimulatedFill.TargetExitIsClose | backtest/simulated_fill.py:56-69 | so it is within a paisa per unit and half a paisa of its target |
| SimulatedFill.TargetExitIsExactIff | backtest/simulated_fill.py:56-69 | it is exact exactly when the target is whole paise and the slack of all units rounds away |
| SimulatedFill.TargetExitCanOvershoot | backtest/simulated_fill.py:56-69 | a concrete target exit that overshoots |
| PaperExecutor.ExecuteExitBoth | execution/paper_executor.py:153-172 | sells both legs at positive bids, or changes nothing |
| PaperExecutor.ExecuteHedgeCut | execution/paper_executor.py:174-211 | cuts the loser at a positive bid, or changes nothing |
| PaperExecutor.ExecuteSingleLegExit | execution/paper_executor.py:213-241 | sells the winner at a positive bid, or changes nothing |
| PaperExecutor.Dispatch | ui/app.py:845-850 | one signal moves a paper trade as the attempt function says, partially exited trades included |
| PaperExecutor.ExitSellsAtBids | execution/paper_executor.py:132-172 | an exit sells each leg still held at its own bid and closes, or without executable bids does nothing |
| PaperExecutor.CutSellsAtBid | execution/paper_executor.py:174-211 | a hedge cut sells the losing leg of a whole pair at that leg's bid and books its result, or does nothing |
| PaperExecutor.AttemptsKeepUnits | execution/paper_executor.py:153-241 | over any attempts at any bids the phase fixes the open units and sold units stay sold |
| PaperExecutor.ClosedGrossIsLegSum | execution/paper_executor.py:153-241 | however a trade was closed, gross is the leg sum rounded once, give or take a paisa, and exact at whole-paise prices |
| BacktestEngine.DaySession.CloseTrade | core/models.py:258-259 | adds the trade's net P&L to the day, rounded |
| BacktestEngine.ClosingBalances | backtest/engine.py:462-466 | closing keeps the books balanced and moves total and day by the same amount |
| BacktestEngine.SignalKeepsBooks | backtest/engine.py:410-540 | every signal keeps books balanced and day in step, rotations that lose their replacement included |
| BacktestEngine.MinuteKeepsBooks | backtest/engine.py:95-348 | a minute of any market and any choices does too |
| BacktestEngine.ReplayBalances | backtest/engine.py:67-78 | over any days: all trades but one are closed, and realized P&L is the sum of closed trades' nets and of the days' results |
| BacktestEngine.ReplayGrossIsLegSum | backtest/engine.py:67-78 | over any days every closed trade, however cut, exited, targeted or rotated out, grosses its leg sum, give or take a paisa and exactly at whole-paise prices |
| BacktestEngine.Engine.Enter | backtest/engine.py:413-438 | fills a planned entry as the last and active trade, or changes nothing |
| BacktestEngine.Engine.CloseActive | backtest/engine.py:440-466 | sells the active trade, adds its net to day and total, and forgets it; without bars nothing changes |
| BacktestEngine.Engine.Rotate | backtest/engine.py:487-540 | closes, then enters at once; a failed entry leaves the engine flat |
| BacktestEngine.Engine.Decide | backtest/engine.py:196-344 | at most one signal is queued, an entry only with nothing open, and only quotes, peak and target of the open trade move |
| BacktestEngine.Engine.ProcessPending | execution/execution_queue.py:31-49 | drains the queue in order, each signal handled once |
| BacktestEngine.Engine.RunMinute | backtest/engine.py:95-348 | one minute moves the books as the minute function says and leaves the queue empty |
| BacktestEngine.Engine.Run | backtest/engine.py:67-78 | from any earlier state, a run's trades, total and day results are those of the replay function, balanced |
| ReplayOutcomes.ClosingSquaresOff | backtest/engine.py:210-217 | at or after the end of the day an open trade with both its bars is sold at the closes in that minute and its net booked |
| ReplayOutcomes.ReplayDayEndsFlatIff | backtest/engine.py:95-348 | any day of a replay ends with a trade open exactly when one was open after its hours and no later minute had both its bars |
| ReplayOutcomes.ManagedExitSells | backtest/engine.py:219-267 | a stop or giveback sells at the closes in the minute that meets it |
| ReplayOutcomes.TargetExitSells | backtest/engine.py:220-236 | a target that is met sells at the target prices in the same minute |
| ReplayOutcomes.CutMinute | backtest/engine.py:238-245 | a wished cut of a directional pair nothing else closes sells the loser at its own close and keeps the winner |
| ReplayOutcomes.QuietMinute | backtest/engine.py:198-271 | where nothing closes, cuts or rotates it, a minute leaves the trade as its manager saw it |
| ReplayOutcomes.EntryOpensIff | backtest/engine.py:413-438 | a plan opens exactly when both bars are there and its prices lie in them, each leg at its own price, with the stop today's equity allows |
| ReplayOutcomes.FlatMinute | backtest/engine.py:273-345 | with nothing open a minute enters exactly when entries are allowed and the strategy's plan fills |
| ReplayOutcomes.RotationMinute | backtest/engine.py:487-540 | a rotation sells at the closes and enters the replacement at once on the day's new total, else leaves the engine flat |
| ReplayOutcomes.NoBarsNoSale | backtest/engine.py:440-485 | without the bars of both legs nothing is sold, cut or rotated |
| CandleStore.SplitIsPartition | data/candle_store.py:64-116 | grouping ticks by interval loses and reorders nothing |
| CandleStore.SplitIntoGroups | data/candle_store.py:86-109 | each group lies in one interval |
| CandleStore.BucketHoldsTime | data/candle_store.py:45-48 | an interval starts at a multiple of its length and the time's second lies in it |
| CandleStore.SecondsCutTowardZero | data/candle_store.py:46 | the second of a time is cut toward zero, upward before the epoch |
| CandleStore.TicksShareGroupIff | data/candle_store.py:45-48 | two accepted ticks share a group exactly when their seconds lie between the same multiples of the interval |
| CandleStore.TicksOfOneMore | data/candle_store.py:77-86 | one more tick of a stream joins that stream's history and no other |
| CandleStore.CandleReadsItsTicks | data/candle_store.py:50-116 | a completed candle opens at the first and closes at the last price of its ticks, spans all their prices, and its volume is the greatest growth of their readings |
| CandleStore.VwapMovesTowardTick | data/candle_store.py:104-115 | one more tick pulls the VWAP toward its price by the share of its added volume, at least one |
| CandleStore.RisingReadingsWeighVolume | data/candle_store.py:104-115 | rising readings weigh every added unit once |
| CandleStore.CompletedTimesIncrease | data/candle_store.py:45-48 | completed candles of in-order ticks have strictly increasing timestamps |
| CandleStore.HighLowAreExtremes | data/candle_store.py:107-115 | high and low are the greatest and least price of the group |
| CandleStore.PeakVolumeIsRunningMaximum | data/candle_store.py:104-115 | the volume baseline is the maximum of the readings, the first clamped at zero, decreasing readings included |
| CandleStore.VwapIsBetweenLowAndHigh | data/candle_store.py:50-62 | the exact VWAP lies between low and high, the rounded one between their roundings |
| CandleStore.NextRowIsBatch | data/candle_store.py:104-115 | updating the open row tick by tick is its batch definition over the group, volume telescoped |
| CandleStore.BucketNeverGoesBack | data/candle_store.py:82-84 | no in-order tick falls before the open interval, so the second guard never fires |
| CandleStore.CompletedCandleStore.AddTick | data/candle_store.py:64-116 | refuses exactly non-positive prices and earlier ticks, changing nothing; otherwise every stream stays its batch definition and the tick completes exactly the returned candle |
| CandleStore.CompletedCandleStore.StoredCandlesIncrease | data/candle_store.py:86-91 | the stored candles of every stream are in strictly increasing interval order |
| CandleStore.CompletedCandleStore.CompletedCandle | data/candle_store.py:50-62 | the finished candle of a row, VWAP by its weights |
| CandleStore.CompletedCandleStore.Latest | data/candle_store.py:118-122 | the last completed candles of the whole history, capped by what is kept |
| CandleStore.CompletedCandleStore.LatestPair | data/candle_store.py:124-126 | the last two completed candles, if there are two |
| PairTemplates.EstablishedIff | strategy/pair_templates.py:21-46 | established pairs are exactly the quoted ones up to the depth into the money on each side |
| PairTemplates.UniverseIff | strategy/pair_templates.py:72-100 | a pair is offered exactly when both strikes are quoted and it is within the depth or, with research on, one the guard accepts |
| PairTemplates.AtmIsNearest | strategy/pair_templates.py:32 | the reference strike is a multiple of the step at most half a step from spot, from halfway the even one |
| PairTemplates.BoundedIff | strategy/otm_research_guard.py:72-81 | the guard accepts a call one or two steps above that strike with a put one or two below |
| PairTemplates.EstablishedSpansAtm | strategy/pair_templates.py:21-46 | an established pair has call at or below and put at or above the nearest strike, and is never both out of the money |
| PairTemplates.ResearchIffBounded | strategy/otm_research_guard.py:72-81 | research pairs are exactly the quoted ones the guard accepts, and each is both out of the money |
| PairTemplates.UniverseSplits | strategy/pair_templates.py:72-100 | within the universe: both out of the money, accepted by the guard, and not established are the same |
| PairTemplates.UniverseIsDistinct | strategy/pair_templates.py:72-100 | no pair is offered twice |
| PairTemplates.ComputeUniverse | strategy/pair_templates.py:72-100 | computes the universe from spot with half-even rounding |
| EntrySignal.EvaluateSignals | strategy/entry_signal.py:15-82 | keeps, in order, exactly the candidates that pass momentum, layout, band and direction |
| EntrySignal.SurvivesIff | strategy/entry_signal.py:36-82 | what passes, regime by regime: a rising leg, divergence in the regime's band, the trend's own winner; both out of the money only as PAPER research with the trend around the money |
| PositionSizer.LotsAreMaximal | strategy/position_sizer.py:12-44 | a number of lots is at most the size exactly when deployable capital and the unit ceiling both cover it |
| PositionSizer.LotsFit | strategy/position_sizer.py:12-44 | a number of lots is at most the size exactly when its units cost at most the deployed share of the capital and are within the ceiling; none without capital |
| PositionSizer.CalculateLots | strategy/position_sizer.py:12-44 | computes that size, none without prices, contract or capital |
| PairRanker.RecordedVerdict | strategy/pair_ranker.py:56-220 | for distinct pairs the record holds each candidate's own verdict |
| PairRanker.PassedIff | strategy/pair_ranker.py:58-220 | a candidate passes exactly when both legs are quoted, their prices pass, some lots fit and the projection of those lots has reached its thresholds |
| PairRanker.PriceGateIff | strategy/pair_ranker.py:78-108 | prices pass exactly when positive, neither dearer than the ratio allows, and for research pairs only in PAPER at a minimum ask |
| PairRanker.BufferedIff | strategy/pair_ranker.py:23-37 | a projection has to reach the stricter net and return exactly for a sideways candidate inside the buffer and outside the band, the ordinary ones otherwise |
| PairRanker.ConfidenceIff | strategy/pair_ranker.py:151-191 | full confidence takes two of tight spreads, volume and interest, a bookless pair both of the latter; the floor is a wide book with neither |
| PairRanker.BestIsUnique | strategy/pair_ranker.py:222-227 | as soon as any candidate passed there is exactly one first best |
| Profitability.Calculate | strategy/profitability.py:38-86 | computes the projection: price differences less charges of all slices and slippage, or names the refusal |
| Profitability.ProjectedIff | strategy/profitability.py:40-49 | a projection exists exactly for positive sizes and prices |
| Profitability.ReturnIsShare | strategy/profitability.py:50-71 | the projected return is the net as a share of what all units cost at both asks |
| Profitability.SlicesIff | strategy/profitability.py:50-52 | the slices of a leg are the fewest that hold its units |
| Profitability.SlicesCost | strategy/profitability.py:51-68 | each further slice of both legs costs 94.40, to two paise |
| Profitability.SizedIsOneSlice | strategy/pair_ranker.py:110-137 | a position sized by the position sizer is always one order for each leg |
| Profitability.ProjectionComesTrue | strategy/profitability.py:50-71 | a trade bought at the asks and sold at the projected bids nets its projection and the slippage it was spared, to a paisa |
| Profitability.PassedPairEarns | strategy/pair_ranker.py:110-150 | a candidate that passes nets its threshold at least when the projected bids come true, to a paisa |
| Profitability.InputFollowsLegs | strategy/pair_ranker.py:122-137 | each leg is projected from its own bid at its own velocity, never below 0.05 |
| PairRanker.Ranker.RankCandidates | strategy/pair_ranker.py:39-227 | records every verdict and returns the first passed candidate with the highest rounded net, none exactly when none passed |
| ScanDiagnostics.SortedIsInOrder | application/scan_diagnostics.py:174-180 | rows come passed first, then by projected net, then by divergence |
| ScanDiagnostics.DisplayOrder | application/scan_diagnostics.py:174-180 | of two displayed rows the earlier passed if the later did, then nets no less, a missing net last, then diverges no less |
| ScanDiagnostics.SortedKeepsTies | application/scan_diagnostics.py:174-180 | rows that tie are displayed in scan order |
| ScanDiagnostics.BuildScanDiagnostics | application/scan_diagnostics.py:57-183 | one ranked row for each scanned pair, in that order, ranks from one |
| ScanDiagnostics.RejectionIsTrue | application/scan_diagnostics.py:98-123 | a rejected pair's reason is true of it, and neither catch-all reason occurs |
| ScanDiagnostics.FactFailsAGate | strategy/entry_signal.py:36-82 | any true reason fails an entry gate, so none could be given for a survivor |
| ScanDiagnostics.VerdictIsTrue | strategy/pair_ranker.py:58-198 | a failed verdict's reason is true of the pair, and confidence is never it |
| ExecutionValidator.SizedPlanIsCovered | execution/execution_validator.py:92-104 | a plan sized from the same asks and capital is never blocked for quantity or outlay |
| ExecutionValidator.ApprovedIff | execution/execution_validator.py:18-127 | a plan is approved exactly when every gate passes; a replay has the first two only, a PAPER trade no daily loss limit |
| IndexScanner.ValidatedPlanIsSafe | application/index_scanner.py:242-270 | a validated plan for a pair of the universe spans the nearest strike and is affordable |
| IndexScanner.PlanTop | application/index_scanner.py:215-264 | outside a replay the scan sizes as the ranker did, so a plan always exists and is never blocked for quantity, outlay or a missing quote |
| IndexScanner.CandidatesIff | application/index_scanner.py:124-140 | a candidate is exactly a pair of the universe with both legs worth a look and what its candles measured |
| IndexScanner.UniverseOfDeskIff | application/index_scanner.py:74-91 | the universe is every pair of a quoted call and a quoted put within the depth or accepted as research |
| IndexScanner.PlanIsSized | application/index_scanner.py:220-243 | a plan buys the winner's pair in those lots of the contract in force, on that capital, with its share as stop |
| IndexScanner.StopIsShare | config/settings.py:113-114 | the planned stop is the loss share of the capital to half a paisa |
| IndexScanner.PassedPairIff | application/index_scanner.py:141-182 | a pair is recorded as passed exactly when its own candidate survived the gates and passed the ranker |
| IndexScanner.RankAndExplain | application/index_scanner.py:141-167 | gating, ranking and explaining any candidates leaves exactly the record, winner and rows of their definitions |
| IndexScanner.RankPairs | application/index_scanner.py:130-182 | the stages of a scan leave exactly that for its candidates, and the counts of each stage |
| IndexScanner.Scan | application/index_scanner.py:74-270 | a PAPER scan returns only plans with call at or below and put at or above the nearest strike and a covered outlay; its table is the ranked rows of the explanation, with the validator's refusal of the winner in front when there is one |
| IndexScanner.SurvivorRowIsTrue | application/scan_diagnostics.py:124-131 | a survivor's row passes exactly when the ranker passed it and otherwise gives its true reason |
| IndexScanner.RejectedRowIsTrue | application/scan_diagnostics.py:103-123 | a rejected pair's row fails with a true reason, never a catch-all |
| IndexScanner.FunnelNarrows | application/index_scanner.py:168-181 | generated, quotable, signal, economic and final counts never increase |
| IndexScanner.FunnelCounts | application/index_scanner.py:168-181 | what each count counts; the last is one exactly when any pair passed |
| IndexScanner.TableShowsRefusal | application/index_scanner.py:242-270 | a refused winner takes the first row and the ranked rows follow in order |
| IndexScanner.FirstRowIsWinner | application/scan_diagnostics.py:174-182 | row one passed and projects exactly the winner's net |
| IndexScanner.NoWinnerNoPassedRow | application/scan_diagnostics.py:124-131 | without a winner no row claims to have passed |
| DiagnosticCapture.OrderedIsUnique | application/diagnostic_capture.py:67-70 | recordings in strict order with the same rows are equal |
| DiagnosticCapture.RecordKeeps | application/diagnostic_capture.py:47-61 | recording a row keeps, for every index, exactly its last rows |
| DiagnosticCapture.DiagnosticCaptureService.Start | application/diagnostic_capture.py:32-40 | accepts five or ten and forgets everything, or changes nothing |
| DiagnosticCapture.DiagnosticCaptureService.Record | application/diagnostic_capture.py:47-61 | while capturing, appends to the history of which every index keeps its last rows |
| DiagnosticCapture.DiagnosticCaptureService.FullRows | application/diagnostic_capture.py:67-70 | strict recording order, and for each index exactly its last rows |
| DiagnosticCapture.DiagnosticCaptureService.FullIsUnique | application/diagnostic_capture.py:67-70 | there is only one such sequence |
| DiagnosticCapture.LatestIsNewest | application/diagnostic_capture.py:81-86 | the cycle chosen for an index is the one of its newest row |
| DiagnosticCapture.VisibleRows | application/diagnostic_capture.py:72-109 | index by index in name order, the shown rows of each one's newest cycle |
| DiagnosticCapture.ShownIsFromNewestCycle | application/diagnostic_capture.py:91-97 | a shown row is of its index's newest cycle, and ranked if that cycle has ranked rows |
| DiagnosticCapture.ShownIsTop | application/diagnostic_capture.py:98-108 | at most ten are shown, in rank order, and none left out comes before one of them |
| DiagnosticCapture.ShownCounts | application/diagnostic_capture.py:91-108 | ten rows of the newest cycle are shown or all there are, and at least one for every index with rows |
| ActivityJournal.WrittenAddsLine | application/activity_journal.py:17-39 | one append adds the line and drops only the oldest backup, only to rotate |
| ActivityJournal.JournalIsSuffix | application/activity_journal.py:17-39 | over any lines, backups oldest first and then the current file read as the end of everything before and since |
| ActivityJournal.JournalStaysWithin | application/activity_journal.py:17-39 | over any lines every file fits the limit or is one over-long line |
| ActivityJournal.FittingLinesStay | application/activity_journal.py:17-39 | nothing moves and nothing is lost while the current file and all that is appended fit the limit |
| ActivityJournal.SizeOfSum | application/activity_journal.py:17-20 | a file is as long as its lines together |
| ActivityJournal.FileAtAfter | application/activity_journal.py:17-31 | a written file reads back, a removed or missing one is empty |
| ActivityJournal.ActivityJournal.RotateIfNeeded | application/activity_journal.py:17-31 | the descending renames move every file up one slot, gaps included, and free the current one |
| ActivityJournal.ActivityJournal.Append | application/activity_journal.py:33-39 | the numbered files become those of one append and no others change |
| CapitalLedger.Ledger.Record | database/capital_ledger.py:106-170 | one row appended, or the first failing check named and nothing changed |
| CapitalLedger.Ledger.RecordTradePnl | database/capital_ledger.py:225-244 | a trade is booked once; again with the same amount returns its row, with another is refused; never two rows for a trade |
| CapitalLedger.Ledger.CashAdjustmentTotal | database/capital_ledger.py:204-215 | the sum of the account's deposits and withdrawals, trading excluded |
| CapitalLedger.CashMovesIff | database/capital_ledger.py:204-215 | exactly the account's own deposits and withdrawals move its cash |
| CapitalLedger.TradeRowIsPnlOf | database/capital_ledger.py:225-244 | a booked result belongs to its own trade on its own account and is not cash |
| CapitalLedger.Ledger.AdjustPaperToTarget | database/capital_ledger.py:246-265 | moves the cash total by the difference to the target, or names the first refusal and changes nothing |
| PaperAccount.LedgerRowOfStoredTrade | application/paper_account.py:45-64 | a ledger row of a stored trade changes nothing |
| PaperAccount.StoredTradeCountsIff | application/paper_account.py:38-52 | a stored trade counts exactly when closed and of PAPER or no recorded mode |
| PaperAccount.NewRowCountsIff | application/paper_account.py:53-64 | a row counts exactly when it is a paper result of no stored trade |
| PaperAccount.StoringBookedTrade | application/paper_account.py:45-64 | storing a trade already booked with the same result changes nothing |
| PaperAccount.LedgerNetIsTheRow | database/capital_ledger.py:225-244 | with one row for each trade, the ledger's word on a trade is that row |
| PaperAccount.ClosedTradeCountsOnce | application/paper_account.py:45-64 | a closed trade adds its result once, whichever of row and stored trade exists |
| PaperAccount.Snapshot | application/paper_account.py:94-113 | equity is capital, the lower of the two realized totals and cash moves, cut off at zero |
| PaperAccount.AdjustmentReachesTarget | application/paper_account.py:94-113 | adjusting from the account's own equity reaches the target exactly when the equity had not been cut off |
| PaperAccount.AdjustTo | database/capital_ledger.py:246-265 | the same through the ledger: written exactly for a new non-negative target with a note, else the first refusal named and nothing written, and short of the target after a cut-off |
| LiveReadiness.DrawdownIsUnique | strategy/live_readiness.py:52-58 | the deepest fall between an earlier and a later total is one number |
| LiveReadiness.MaxDrawdown | strategy/live_readiness.py:52-58 | the one-pass loop computes it |
| LiveReadiness.ByTimeIsInTime | strategy/live_readiness.py:34-42 | the record is taken in time order |
| LiveReadiness.ByTimeKeepsMoments | strategy/live_readiness.py:34-42 | results of one moment stay in the order they were booked |
| LiveReadiness.OtherRowsDoNotCount | strategy/live_readiness.py:34-43 | rows of other kinds or accounts, anywhere, leave the record alone |
| LiveReadiness.CountedOfOneMore | strategy/live_readiness.py:34-42 | a paper result counts as itself, any other row as nothing |
| LiveReadiness.GainsLessLosses | strategy/live_readiness.py:44-61 | net is gross profit less gross loss |
| LiveReadiness.GainsAndLosses | strategy/live_readiness.py:44-45 | every amount is a gain or a loss in full |
| LiveReadiness.FactorReachedIff | strategy/live_readiness.py:46-50 | the factor is reached exactly when profits are that many times the losses |
| LiveReadiness.EvaluateLiveReadiness | strategy/live_readiness.py:21-82 | the report's counts, net, drawdown and five verdicts are those of the record, ready exactly when all five hold; no report without a positive allocation |

## Left out

- CloseIsPathIndependent: stated at whole-paise prices, where both ways are exact; CloseDiffersByAPaisa covers all others, because the loser's result is rounded once more when it is booked.
- HedgeCutIsContinuous: stated at whole-paise entry prices and positive whole-paise quotes, the ones the exchange makes; HedgeCutMovesAPaisa covers all others.
- EntryIsAtomic: assumes honest buys; EntryReportIsTrueIff drops that. When manual reconciliation is asked for, the holding is only bounded.
- ClosedNetFallsIff: P&L through a partial exit is only that of the last price of each leg, since the program overwrites the exit price of a leg sold in two parts.
- SellOpenLegs: in the program the CE sale is already submitted when building the PE order can raise (execution/broker_executor.py:303-309); that error, which leaves a live and unrecorded CE sale, is not modelled.
- ExecuteEntry: order payloads, product types and limit prices of live orders are not modelled; a placement that returns no order id counts as refused, so one the broker accepted all the same is not seen.
- ConfirmEntry: the two waits, and the two sells of an exit, run at the same time in the program and one after the other here; each order has its own fate, so neither sees the other.
- ProfitMatchesLedger: what the program does after a stop between the ledger row and the recovery state is modelled from the next start on, as a recovered open trade that has its row; amounts are whole paise, and the stop itself is no step.
- SlotIsSafe: in the step between opening a trade and storing its token, the token is still with the worker; the statement names that step.
- ReplayBalances: strategy decisions are arbitrary choices, so regime windows, scan thresholds and the circuit breaker are not modelled; exit managers and fills are.
- RankCandidates: verified for any projection of candidate and lots; PassedPairEarns is about the program's own.
- RankCandidates: the descending sort of scored candidates is a loop that keeps the first best, which is all that is used of it.
- Scan: candle velocities are inputs; affordability columns, universe labels and time stamps of the rows are not modelled.
- RotationMissesIffRotated: of the program's reads of the tracked trade after the rotation scan the model has the check that there is one and the read handed to the rotation rule; the read between them, which only picks the market cache, is not modelled.
- RestartsDoNotFree: what the recovery file holds at each start is a parameter; the monitor may save the trade after the worker has closed it, and a trade recovered as closed holds no slot.
- VisibleRows: index names are numbered in alphabetical order, and ranks given as numeric text are numbers.
- AddTick: time zones and the wall clock; a timestamp is whole microseconds.
- Snapshot: today's and this month's results, which need a calendar and the report service.
- RoundTripCosts: a negative price is an error result; trades with a negative price are not followed further.
- Live and emergency control outside the engine class: the square-off button, a worker thread that outlives its stop, daily stop latches and LIVE entries through several indices, which the program refuses.
- PAPER entries: limit waits and entry asks of the paper executor are an arbitrary success or failure in `LiveEngine`.
- Floating-point error, NaN checks, wall clocks, time zones and random identifiers: exact numbers, integer times and fresh counters stand for them.
- Broker connection, market feed, instrument files, databases, web and desktop screens, spreadsheets and scripts: input, output and plumbing.
- Regime detection, index selection, market sessions, health reports and configuration files: small tables that would add only easy members.
