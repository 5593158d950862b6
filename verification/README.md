# Trading engine: order ledger, guards and sizing

A Dafny model of the parts of the trading engine that keep money safe, with proofs of what they promise. The model
follows the code branch by branch: the same gates in the same order, the same constants and defaults, the same error
paths. Where an object updates itself in place (`SimulatedBrokerConnector`, `OrderManager`, `FillExecutor`,
`ReconciliationEngine`, `CircuitBreakerTracker`, `PositionManager`, `StopModificationService`,
`SetupLifecycleService`, the recording half of `EntryOrderExecutor`) there is a class whose methods are proved equal to
functions on its state; the theorems are about those functions, over every state and every run.

`dafny verify dfyconfig.toml` checks the whole project.

## How the model is laid out

| file | what it is about |
|---|---|
| `Common.dfy`, `Models.dfy`, `Repository.dfy` | text keys, records, the stored rows and their queries |
| `SimulatedBroker.dfy` | the in-memory broker, as steps that also describe any other connector through its replies |
| `OrderManager.dfy`, `FillExecutor.dfy` | brackets, stops, cancellation, fills; functions and classes |
| `OrderLedger.dfy`, `LedgerSession.dfy`, `LedgerRepair.dfy`, `Reconciliation.dfy` | two stores that agree over every run, and the pass that repairs them |
| `BracketSafety.dfy` | the bracket at every broker step, under any replies |
| `StopModification.dfy`, `StopLedger.dfy` | the stop ratchet over position, order and broker, by itself and among order operations |
| `TradeGuards.dfy`, `KillSwitch.dfy`, `PdtWindow.dfy`, `EntryInterleaving.dfy` | daily breakers, day-trade window, overlapping executions |
| `BrokerReality.dfy`, `BrokerMatching.dfy`, `RealityReport.dfy`, `ReportAgeing.dfy` | the broker-reality report: rows, matching, coverage and ageing |
| `StateMachine.dfy`, `SetupLifecycle.dfy`, `LifecycleVerdicts.dfy` | the transition table, revalidation over whole runs, and its verdicts in prices and times |
| `RiskSizing.dfy`, `LimitAgreement.dfy` | approval, size, limit price, costs, loss bounds |
| `SessionPolicy.dfy`, `EntryExecution.dfy` | the session gates, and all gates in line up to the bracket |
| `ConfigMerge.dfy`, `ChronosQuantiles.dfy` | recursive merge, interpolated quantiles |

Money and prices are integer cents, so the code's roundings to two and four places are identities; ratios, percentages
and costs are exact reals. Times are integers. A broker call takes a reply (it raises, or it answers accepted or not,
with a status, with or without an id), so a statement about any connector quantifies over replies, and a statement about
the in-memory broker uses the replies that broker gives. Connections may be lost or found at every await.

## What turned out false, and what holds instead

- Several active BUY entries of one setup are possible: `place_manual_order` sends a BUY without looking at existing
  entries. An operation breaks the single entry exactly when it is a manual BUY that the broker takes for a setup that
  already has an active entry (`ApplyKeeps`, `SendDoublesExactly`, `DoubledEntryExample`); the agreement of the two
  books does not depend on it (`LedgerRefinement`). In the engine the one caller draws a fresh setup id for every manual
  order (`app/engine/manual_order_service.py:121`), so its runs are among those without a doubled entry.
- A bracket can end in ENTRY_ORDER_PLACED with no stop at the broker: exactly when the entry is taken and the stop is
  answered "not accepted" under a status other than REJECTED or ERROR (`BracketOutcome`, `NakedBracketExample`). A live
  connector gives such answers (`app/broker/tws_connector.py:849-875`).
- Stops only go up in sequential use. Two overlapping modifications can lower the order's and the broker's stop,
  exactly when the later write is below what stands by then; the position's own stop never goes down (`LateFinish`,
  `OverlapLowers`). An accepted modification can leave the position stop where it was: exactly when that stood higher
  (`AcceptedModification`, `PositionStopStays`).
- Computed remaining risk grows when a stop is raised exactly on a short position whose stop was below its average
  (`RiskGrowsExactly`).
- The daily cap can be overrun by overlapping executions, by at most one less than the number under way, and that many
  are reached (`DailyCapUnderInterleaving`, `CapIsAttained`).
- An unblocked report compares local and broker positions only as open or closed, not by size (`SizesAreNotCompared`);
  for every pair of open sizes there is an unblocked report over them (`UnblockedWithAnySizes`).
- Freshening a stored report is not idempotent backwards in time: the stale warning stays (`AgeingExactly`).
- Merging is not associative when a leaf stands between two mappings; the exact condition is `AssociativeExactly`.
- Permitting premarket entries has no effect at execution while regular hours are required
  (`PremarketPermissionIsVoid`); the two session gates disagree exactly as `ExecutionStricterExactly` and
  `SignalStricterExactly` say.
- A paper fill is booked on the far side of the price it is asked for and is not held to the limit, so at the limit it
  exceeds the approved risk whenever there is slippage (`PaperFillOverrun`).
- For short stop-limit entries revalidation takes the limit offset off the trigger while sizing adds it
  (`LimitsAgreeExactly`).
- A stored report whose time cannot be read is refused under the missing-report setting, but a report that is absent,
  or stores no time, under the stale-report setting (`UnreadableTime`).

## Model

| member | source | states |
|---|---|---|
| SimulatedBroker.Broker.SubmitOrder | app/broker/tws_connector.py:362-387 | raises when disconnected, refuses a quantity that is not positive, otherwise opens the order under the next id; the whole new state is given |
| SimulatedBroker.Broker.CancelOrder | app/broker/tws_connector.py:389-405 | takes exactly the named open order away, or answers that it is not there |
| SimulatedBroker.Broker.ModifyStopOrder | app/broker/tws_connector.py:407-431 | moves the stop of the named open order and, for a stop-limit, its trigger |
| SimulatedBroker.Broker.SimulateFill | app/broker/tws_connector.py:460-494 | moves an open order into the net position of its symbol and drops a position that becomes empty |
| SimulatedBroker.Broker.OpenOrders | app/broker/tws_connector.py:433-434 | lists every open order once and nothing else |
| SimulatedBroker.FillMovesHoldings | app/broker/tws_connector.py:460-494 | a fill raises the holdings of its own symbol by what a BUY asks for, lowers them by what a SELL does, and moves no other |
| SimulatedBroker.SubmitKeepsIds | app/broker/tws_connector.py:362-387 | under any connector reply ids stay fresh, are handed out once, and each is in exactly one of open, cancelled, filled |
| SimulatedBroker.FillKeepsConsistent | app/broker/tws_connector.py:460-494 | a fill keeps ids, holdings and the absence of empty positions |
| SimulatedBroker.PositionsAreConserved | app/broker/tws_connector.py:362-494 | over every run: holdings are what was bought minus what was sold, no stored position is empty, ids are never reused, each accepted id is in exactly one of open, cancelled, filled |
| Repository.ActiveStopOrder | app/storage/repositories.py:699-712 | the newest active SELL order of a symbol that carries a stop price, and none exactly if there is no such order |
| OrderManager.Manager.EntryRefusal | app/engine/order_manager.py:64-90 | which refusal is raised before the broker is asked, in the code's order |
| OrderManager.Manager.Send | app/engine/order_manager.py:113-141 | submits a row and stores it with the broker's answer; nothing is stored when the broker raises |
| OrderManager.Manager.PlaceEntryOrder | app/engine/order_manager.py:64-204 | the whole bracket, step by step over the in-memory broker, equals the bracket function under the connections met at its awaits |
| OrderManager.Manager.PlaceStopOrder | app/engine/order_manager.py:312-394 | places a stop under any connection and records the refusal or the placement on the setup |
| OrderManager.Manager.CancelParentForFailedProtection | app/engine/order_manager.py:527-563 | the compensation: cancels the parent if the broker accepts, records it, asks for manual review |
| OrderManager.Manager.PlaceManualOrder | app/engine/order_manager.py:239-310 | a manual order under any connection |
| OrderManager.Manager.AttachMissingStop | app/engine/order_manager.py:396-471 | attaching a stop to an existing entry, with its compensation, under the connections met |
| OrderManager.Manager.CancelLocalOrBrokerOrder | app/engine/order_manager.py:473-510 | cancelling a local row or a broker-only order, including the search of open orders when the broker does not know the id |
| FillExecutor.Executor.SimulateFillOrder | app/engine/fill_executor.py:38-133 | a fill through broker, row, position, setup and, if needed, a stop of last resort |
| FillExecutor.FillLeavesProtected | app/engine/fill_executor.py:68-133 | after a fill that returns, the position holds the broker's quantity, the fill price, the configured stop and the loss down to it, and the setup is in position with a working stop, or asks for review because the quantity is not positive |
| OrderLedger.SendKeeps | app/engine/order_manager.py:113-141 | submitting any fresh row keeps the books in agreement, and no stop goes down |
| OrderLedger.SendDoublesExactly | app/engine/order_manager.py:239-310 | a send breaks the single active entry exactly when it is an accepted BUY for a setup that has one |
| OrderLedger.DoubledEntryExample | app/engine/order_manager.py:239-310 | the same manual BUY placed twice leaves two active entries |
| OrderLedger.PlaceEntryKeeps | app/engine/order_manager.py:64-204 | a bracket keeps the books, the stops and the single entry on every path, including a broker that disconnects halfway |
| OrderLedger.AttachStopKeeps | app/engine/order_manager.py:396-471 | so does attaching a missing stop |
| OrderLedger.CancelKeeps | app/engine/order_manager.py:473-497 | so does cancelling a row, accepted, refused, or absent from the broker |
| OrderLedger.FillKeeps | app/engine/fill_executor.py:38-133 | so does a fill |
| OrderLedger.BrokerOnlyCancelExactly | app/engine/order_manager.py:476-510 | cancelling a broker-only id breaks the agreement exactly when some local row carries that id and it is open |
| OrderLedger.ApplyKeeps | app/engine/order_manager.py:64-510 | every operation keeps the books and lets no stop go down, and keeps entries single exactly unless it is a doubled manual BUY |
| OrderLedger.LedgerRefinement | app/engine/order_manager.py:64-510 | after every run: SUBMITTED rows and open broker orders correspond one to one with equal symbol, side, type, quantity, limit and trigger, and a broker stop exactly where the row has one; and each setup has at most one active BUY entry if no step doubled one |
| LedgerSession.Handle | app/engine/order_manager.py:64-519 | whatever request the classes handle is one step of such a run, with what a step keeps |
| BracketSafety.EntryPassesExactly | app/engine/order_manager.py:64-90 | a bracket is sent at all exactly when account and role fit, no working BUY exists, an open position has a working stop, and the stop is prepared |
| BracketSafety.AttachPassesExactly | app/engine/order_manager.py:396-431 | a missing stop is attached at all exactly for a working BUY known to the broker, of a stored setup with a positive stop, without a working stop under it |
| BracketSafety.BracketNeverNaked | app/engine/order_manager.py:113-204 | at every broker step, on every exit, under any replies: the entry is live only under an accepted stop of equal quantity at the configured price |
| BracketSafety.BracketOutcome | app/engine/order_manager.py:142-204 | on normal return the setup is ENTRY_ORDER_PLACED or ERROR_REQUIRES_MANUAL_REVIEW; placed without a stop of that type, size and price exactly for one family of answers |
| BracketSafety.NakedBracketExample | app/engine/order_manager.py:174-204 | that family occurs: a stop answered not accepted, CANCELLED |
| BracketSafety.BracketAllOrNothing | app/engine/order_manager.py:113-204 | with a connector that keeps its contract: exactly parent and stop were gained, each with the type, size and prices of its stored row, or no stop was gained and the setup asks for review |
| BracketSafety.EntryAsSent | app/broker/order_mapper.py:7-26 | with any connector: what the broker holds under the bracket's first id is the entry, with the type, size, limit, trigger and stop of its row |
| BracketSafety.BracketFault | app/engine/order_manager.py:113-204 | when the broker raises, nothing happened, or the parent alone is left, not live, under a stored row with its id |
| BracketSafety.ManualOrderAsAsked | app/engine/order_manager.py:239-310 | a manual order reaches the broker with the side, type, size and prices asked for, or nothing does, and the row says which |
| BracketSafety.CancelExactly | app/engine/order_manager.py:473-590 | a row becomes CANCELLED exactly if the broker accepts, or does not know the order and holds nothing under any of the row's ids |
| BracketSafety.BrokerOnlyCancel | app/engine/order_manager.py:476-510 | a name beginning with `broker_` that no row has takes away exactly the broker order it names, if the broker accepts, and touches no row |
| BracketSafety.AttachOutcome | app/engine/order_manager.py:396-471 | after attaching: a stop of the right type for the whole quantity and a placed setup, or review, no stop gained, and the cancellation recorded on both sides |
| Reconciliation.Engine.ReconcileLocalOrders | app/engine/reconciliation.py:325-367 | one pass over all rows, newest first, gives each row a status the broker's report allows and counts the changes |
| Reconciliation.Engine.MarkLocalOrderStatus | app/engine/reconciliation.py:369-410 | writes one status and counts it in its own column |
| Reconciliation.Engine.UpdateSetupAfterReconciledOrder | app/engine/reconciliation.py:412-465 | what a changed order does to its setup |
| Reconciliation.Engine.OpenOrderStatusesByKey | app/engine/reconciliation.py:544-550 | every key of an open order, with the status of the last order that has it |
| Reconciliation.Engine.FirstMatchingStatus | app/engine/reconciliation.py:575-580 | a status found under one of the row's keys, none exactly if no key matches |
| Reconciliation.RowOutcome | app/engine/reconciliation.py:333-367 | what a pass makes of a row, read off the report: an open order's status, a reported status, FILLED for a vanished BUY whose symbol is held, CANCELLED for any other vanished row, and no change otherwise |
| Reconciliation.SetupOutcome | app/engine/reconciliation.py:412-465 | what a pass makes of the setup of a changed row: restored, under review, cancelled, or as it was |
| Reconciliation.SetupStays | app/engine/reconciliation.py:325-410 | a setup none of whose rows changes is left as it is |
| Reconciliation.ReadsExactly | app/engine/reconciliation.py:583-594 | a status text is read as a status exactly when it is that status's name, blanks and case aside |
| Reconciliation.MissingExactly | app/engine/reconciliation.py:349-357 | a row is counted as missing exactly when it is active and the report has nothing on it |
| Reconciliation.ActiveRowsHaveEvidence | app/engine/reconciliation.py:333-367 | after a pass every active row has an open order or a reported status under one of its ids |
| Reconciliation.OpenOrdersAreFollowed | app/engine/reconciliation.py:333-367 | a row that shares an id with one open order only carries that order's status |
| Reconciliation.UpdatesArePartitioned | app/engine/reconciliation.py:369-410 | every update is counted in exactly one of cancelled, filled, rejected, reactivated, other |
| Reconciliation.RepeatExactly | app/engine/reconciliation.py:333-367 | a row stays put when the pass is repeated exactly if the report is coherent for it |
| Reconciliation.SecondPassIsIdle | app/engine/reconciliation.py:325-410 | a second pass over the same report changes nothing and counts nothing |
| LedgerRepair.RepairRestoresAgreement | app/engine/reconciliation.py:325-367 | whatever the local statuses were, one pass over the in-memory broker's report makes rows and open orders agree again |
| LedgerRepair.RepairAfterDrift | app/engine/reconciliation.py:325-367 | run, drift of local statuses, one pass: the ledger agrees |
| StopModification.PositionManager.Raise | app/engine/position_manager.py:72-122 | raises a position stop, never lowers it unless allowed, and recomputes the risk |
| StopModification.StopModificationService.Modify | app/engine/stop_modification_service.py:43-111 | broker first, local records second, under the connection found at each await |
| StopModification.StopsNeverGoDown | app/engine/stop_modification_service.py:54-88 | over every run, any connector: position, order and broker stops never go down, the broker stays at or below the order, risk of a non-negative quantity never grows |
| StopModification.RiskGrowsExactly | app/engine/position_manager.py:108-111 | raising a stop makes the computed risk grow exactly on a short whose stop was below its average |
| StopModification.ModificationExactly | app/engine/stop_modification_service.py:43-136 | when a modification goes through and why not, with the stop that was in force |
| StopModification.AcceptedModification | app/engine/stop_modification_service.py:72-111 | what an accepted modification leaves at order, broker and position |
| StopModification.PositionStopStays | app/engine/position_manager.py:84-98 | an accepted modification that moves the order and leaves a higher position stop |
| StopModification.AcceptedMeansEqual | app/engine/stop_modification_service.py:72-88 | accepted while connected: broker and local order stand at the same price |
| StopModification.RefusalChangesNothing | app/engine/stop_modification_service.py:43-84 | a refusal or an exception changes nothing |
| StopModification.LateFinish | app/engine/stop_modification_service.py:75-88 | finishing on an out-of-date check lowers the order exactly if it now stands higher, and never the position |
| StopModification.OverlapLowers | app/engine/stop_modification_service.py:64-88 | two overlapping modifications, both allowed, leave the lower price |
| StopLedger.StopsOverAllRuns | app/engine/stop_modification_service.py:54-88 | over every run of order operations and stop moves together: the books agree, the broker never holds a stop above the row's, and no row's or open broker stop goes down |
| StopLedger.MovesFromAnywhere | app/engine/stop_modification_service.py:54-88 | from any point of such a run, stop moves only raise stops and never add risk |
| TradeGuards.CircuitBreakerTracker.State | app/engine/trade_guards.py:136-166 | counters are kept within a day and rolled into a five-day history when it changes |
| TradeGuards.CircuitBreakerTracker.RecordEntrySubmitted | app/engine/trade_guards.py:174-182 | one record of an entry |
| TradeGuards.CircuitBreakerTracker.RecordPositionClosed | app/engine/trade_guards.py:184-205 | one record of a close |
| TradeGuards.CircuitBreakerTracker.Breaker | app/engine/trade_guards.py:241-271 | the breaker's verdict from the stored counters, saving nothing |
| TradeGuards.CircuitBreakerTracker.Pdt | app/engine/trade_guards.py:313-344 | the day-trade verdict from today's count and the last four stored days |
| TradeGuards.CircuitBreakerTracker.Cooldown | app/engine/trade_guards.py:273-311 | the cooldown verdict for a symbol |
| TradeGuards.MaxDailyLoss | app/engine/trade_guards.py:123-134 | the loss limit is never negative and is off exactly for an explicit zero |
| KillSwitch.LossLimitExactly | app/engine/trade_guards.py:123-134 | the loss limit is the size of the explicit amount, otherwise of units times the risk unit; 45.00 without any setting |
| KillSwitch.BreachExactly | app/engine/trade_guards.py:207-239 | what trips is the net loss reaching the limit, then the losing streak, then the number of entries, each judged from the records |
| KillSwitch.KillSwitch | app/engine/trade_guards.py:136-239 | over any history: stored counters are those of the current day, and the breaker is tripped exactly if some prefix of the day lost the limit, ended in too many losing closes or made too many entries, with the cause and time of the first such prefix |
| KillSwitch.TripOutlastsTheDay | app/engine/trade_guards.py:207-209 | no later record of the day clears or replaces a trip |
| KillSwitch.PausedExactly | app/engine/trade_guards.py:241-271 | any tracker on the same store answers PAUSED exactly on the day of a breach with breakers not switched off; switched off, nothing trips |
| KillSwitch.CooldownExactly | app/engine/trade_guards.py:273-311 | re-entry is refused exactly while the symbol's last loss of the day is younger than the cooldown |
| PdtWindow.RolledIsHistory | app/engine/trade_guards.py:142-166 | the stored history is the last five days with entries of the uncut history |
| PdtWindow.PdtRefusesExactly | app/engine/trade_guards.py:313-344 | the gate refuses exactly when the rule is on and some window ending today with at most four earlier active days is full |
| PdtWindow.PdtWindow | app/engine/trade_guards.py:142-182 | if every entry passed the gate, no range with at most five active days holds more entries than allowed |
| EntryInterleaving.BoundedConcurrency | app/engine/stock_market_monitor.py:710-713 | at least one slot, and otherwise the smaller of the configured number and the number of symbols |
| EntryInterleaving.EntryOrderExecutor.Gate | app/engine/entry_order_executor.py:92-107 | the guards up to the awaited submission, as one step |
| EntryInterleaving.EntryOrderExecutor.Finish | app/engine/entry_order_executor.py:254-297 | what follows the await: an entry is recorded only when the submission returned |
| EntryInterleaving.DailyCapUnderInterleaving | app/engine/entry_order_executor.py:92-297 | with c executions under way at most cap + c - 1 entries are recorded on any day, also across a change of day |
| EntryInterleaving.CapIsAttained | app/engine/entry_order_executor.py:92-297 | some run records exactly that many |
| EntryInterleaving.PdtUnderInterleaving | app/engine/trade_guards.py:313-344 | and five active days hold at most limit + c - 1 entries |
| BrokerReality.OrdersByKey | app/engine/broker_reality.py:1160-1167 | every key of the broker's orders with the last order that carries it |
| BrokerReality.MatchEntry | app/engine/broker_reality.py:1047-1065 | the matched entry: by key if any order shares one, otherwise the most preferred of symbol and side |
| BrokerReality.MatchStop | app/engine/broker_reality.py:1068-1092 | the matched stop: by key, otherwise a child of the entry, otherwise any stop of the symbol |
| BrokerReality.Prefer | app/engine/broker_reality.py:1095-1113 | the first candidate of the best preference; none exactly if there is no candidate |
| BrokerReality.StateExactly | app/engine/broker_reality.py:92-115 | working, turned down, held back, cancelled and filled in the broker's own words, case, blanks and underscores ignored |
| BrokerReality.CleanExactly | app/engine/broker_reality.py:747-845 | when a setup's row reports no mismatch, as one condition on what the broker says of its matched orders and positions |
| BrokerReality.ProtectionExactly | app/engine/broker_reality.py:747-780 | what each protection verdict means |
| BrokerReality.CriticalExactly | app/engine/broker_reality.py:783-870 | a row is critical exactly when it has a mismatch other than a disagreement on an open position |
| BrokerReality.RiskExactly | app/engine/broker_reality.py:1306-1345 | a row's risk is what the position, long or short, loses from its price to its live stop; when it is known |
| BrokerReality.OrphanExactly | app/engine/broker_reality.py:566-683 | what the row of a position without an active setup reports, and when it is critical |
| BrokerMatching.EntryMatchMeans | app/engine/broker_reality.py:1047-1113 | the matched entry shares an id with the local one, or is the best of its symbol and side: live first, then held back, then turned down, then finished |
| BrokerMatching.StopMatchMeans | app/engine/broker_reality.py:1068-1113 | the matched stop likewise, among the stops under the entry if there are any, otherwise among all stops of the symbol |
| BrokerMatching.LatestLocalMeans | app/engine/broker_reality.py:1132-1158 | the local order of a kind is the first active one, otherwise the first |
| RealityReport.BuildReport | app/engine/broker_reality.py:118-283 | the report: one row per active setup, one per orphan symbol, one per unused order, then a first reading |
| RealityReport.UnblockedExactly | app/engine/broker_reality.py:142-211 | a report lets entries through exactly when connected, queried, nothing is left over and every row is clean |
| RealityReport.UnblockedMeansCovered | app/engine/broker_reality.py:142-211 | then every broker order is matched to an active setup as an entry or stop it may be, every held symbol has an active setup whose matched stop may protect it, was transmitted and is live by the broker's words, and positions agree on being open |
| RealityReport.DeadStopsBlock | app/engine/broker_reality.py:747-845 | while a symbol is held and every order that may protect it is cancelled, turned down, filled, unknown or untransmitted, the report blocks |
| RealityReport.UnblockedPositions | app/engine/broker_reality.py:139-211 | with one named position for each symbol: every open broker position has an active setup, and active setups agree with the local book on which positions are open |
| RealityReport.SizesAreNotCompared | app/engine/broker_reality.py:841-844 | replacing local sizes by any others that are open where they were open changes nothing |
| RealityReport.UnblockedWithAnySizes | app/engine/broker_reality.py:783-845 | for every two open sizes, an unblocked report over a guarded position held in one and recorded in the other |
| RealityReport.FiguresExactly | app/engine/broker_reality.py:1263-1305 | the report's unrealized figure is worth minus cost of the open positions where the account gives none, and the total is unrealized plus realized |
| RealityReport.SumSkips | app/engine/broker_reality.py:1263-1305 | missing figures are passed over, and the sum is missing only if all are |
| ReportAgeing.Freshen | app/engine/broker_reality.py:286-393 | one reading of a stored report, row by row, equals the function the laws are about |
| ReportAgeing.SummaryLoop | app/engine/broker_reality.py:1346-1390 | the running totals of risk and protection equal their definitions over the rows |
| ReportAgeing.AgeingExactly | app/engine/broker_reality.py:286-393 | two readings equal the second alone exactly unless the first was stale, the second is not, and a row had no warning |
| ReportAgeing.AgeingLaw | app/engine/broker_reality.py:286-393 | forward in time two readings always equal the second alone |
| ReportAgeing.AgeingBackwards | app/engine/broker_reality.py:333-334 | backwards they need not |
| ReportAgeing.AgeingKeepsTotals | app/engine/broker_reality.py:356-393 | ageing leaves risk totals and mismatch counts as they are |
| ReportAgeing.ReasonsOnlyGrow | app/engine/broker_reality.py:366-384 | every reason that blocks now blocks at any later time |
| ReportAgeing.GateNeverReopens | app/engine/broker_reality.py:396-417 | without a new report the gate never reopens |
| ReportAgeing.GateOpensExactly | app/engine/broker_reality.py:286-417 | the gate lets an entry pass exactly when the tracker is off, or nothing is stored and that is not guarded, or the report is connected, complete, unobjectionable and recent |
| ReportAgeing.FiguresAreCurrent | app/engine/broker_reality.py:331-349 | the profit figures of a reading count as current exactly while the tracker is fine and some figure is there |
| ReportAgeing.CountsExactly | app/engine/broker_reality.py:1346-1390 | mismatches, critical rows, live stops and unprotected positions and orders are counted row by row, and the total risk is unknown exactly if some row leaves it open |
| ReportAgeing.UnreadableTime | app/engine/broker_reality.py:396-417 | which setting refuses a report without a time, and one whose time cannot be read |
| ReportAgeing.StaleReportBlocks | app/engine/broker_reality.py:396-417 | a report older than allowed, or whose time cannot be read, lets nothing pass |
| StateMachine.NoReturnBeforeTheOrder | app/engine/state_machine.py:8-201 | after ENTRY_ORDER_PLACED no earlier status is ever seen again |
| StateMachine.PositionProvenance | app/engine/state_machine.py:135-167 | IN_POSITION is reached only after placed order, fill and placed stop in that order, or after reconciling a position |
| StateMachine.ManagementPositions | app/engine/state_machine.py:269-302 | a MANAGEMENT_ONLY setup reaches it only through reconciliation |
| StateMachine.ManagementStaysOut | app/engine/state_machine.py:276-282 | and never enters the entry flow: after its first step it is only ever in one of sixteen statuses |
| StateMachine.ValidatedFirst | app/engine/state_machine.py:8-201 | whatever waits, trades or is managed was validated before |
| StateMachine.TerminalIsFinal | app/engine/state_machine.py:187-209 | terminal statuses are absorbing |
| StateMachine.ErrorsDoNotTradeAgain | app/engine/state_machine.py:191-200 | after an error or a review only errors, reviews and cancellation follow |
| StateMachine.TerminalReachable | app/engine/state_machine.py:8-201 | from every status, under every role, a terminal one stays reachable |
| SetupLifecycle.VerdictAllowed | app/engine/setup_lifecycle_service.py:143-265 | a verdict on a managed entry setup does not depend on its status, and the table lets it through |
| SetupLifecycle.LifecycleClosedForm | app/engine/setup_lifecycle_service.py:348-426 | the status after any sequence of revalidations: first final verdict, else last verdict seen, else the start |
| SetupLifecycle.FirstFinalMeans | app/engine/setup_lifecycle_service.py:348-426 | the first final verdict, by position in the sequence |
| SetupLifecycle.TableNeverRefuses | app/engine/setup_lifecycle_service.py:397-406 | along such a run the table refuses no target |
| SetupLifecycle.ManagementClosedForm | app/engine/setup_lifecycle_service.py:268-301 | management-only setups follow the last input seen between BLOCKED and RECONCILING |
| SetupLifecycle.ClosedMarketDoesNotBlock | app/engine/setup_lifecycle_service.py:112-117 | while the market is closed nothing about broker or spread degrades a setup |
| SetupLifecycle.SessionOnlyBlocks | app/engine/setup_lifecycle_service.py:240-256 | opening the market only ever turns a healthy verdict into BLOCKED |
| LifecycleVerdicts.InvalidatedExactly | app/engine/setup_lifecycle_service.py:170-213 | a setup is INVALIDATED exactly when its stop is on the wrong side, or in due time the close is past its invalidation level, its zone or its stop, below for a long and above for a short |
| LifecycleVerdicts.BreakIsNamed | app/engine/setup_lifecycle_service.py:597-635 | which of the three breaks an invalidation names |
| LifecycleVerdicts.ExpiredExactly | app/engine/setup_lifecycle_service.py:184-187 | EXPIRED exactly when the stop is in place and the time is up |
| LifecycleVerdicts.StaleExactly | app/engine/setup_lifecycle_service.py:189-236 | STALE_SETUP exactly when too old, or chased too far without a zone to retest |
| LifecycleVerdicts.MissedExactly | app/engine/setup_lifecycle_service.py:214-232 | MISSED_BREAKOUT_WAIT_RETEST exactly when a sound setup is chased and has a zone to retest |
| LifecycleVerdicts.StatusExactly | app/engine/setup_lifecycle_service.py:120-265 | from the verdict to the status, for every status, and when the setup may be armed |
| LifecycleVerdicts.ManagementExactly | app/engine/setup_lifecycle_service.py:268-304 | a management-only setup is blocked exactly while the broker is unsound in an open session or its position is known to be gone, comes back through reconciliation, and cannot be armed while blocked |
| LifecycleVerdicts.AppliedExactly | app/engine/setup_lifecycle_service.py:348-426 | what is stored: the verdict, unless nothing was seen or the status is not revalidated |
| LifecycleVerdicts.CanSendInPrices | app/engine/setup_lifecycle_service.py:120-140 | an order may be sent exactly when all conditions hold at once, in the input's own prices, times and switches |
| SetupLifecycle.SetupLifecycleService.RevalidateAndApply | app/engine/setup_lifecycle_service.py:348-426 | writes at most that setup's status, and only a target the table allows |
| RiskSizing.ApprovedExactly | app/engine/risk_engine.py:68-163 | an entry is approved exactly when role, switch, stop, direction and account allow it and one share fits every budget |
| RiskSizing.QuantityIsLargest | app/engine/risk_engine.py:276-305 | a quantity fits the risk budget, the money budget and the exposure exactly if it is at most the approved one |
| RiskSizing.OrdersCarryTheDecision | app/engine/order_manager.py:206-237 | the rows sent carry the sized limit, trigger, quantity, stop and types in the fields their type uses |
| RiskSizing.LossBound | app/engine/risk_engine.py:52-163 | any fill at or below the limit of the broker's order, stopped at the initial stop, loses at most the risk budget |
| RiskSizing.NoGoExactly | app/engine/transaction_costs.py:79-109 | the cost gate refuses exactly when what the two orders cost exceeds the allowed share of the risk, and warns exactly between the two shares |
| RiskSizing.LossAndCostBound | app/engine/transaction_costs.py:79-109 | loss and costs together are at most (1 + allowed share) times the risk budget |
| RiskSizing.PaperFillOverrun | app/engine/transaction_costs.py:112-132 | a paper fill at the limit, long or short, exceeds the approved risk exactly if there is slippage, by the slippage on every share |
| RiskSizing.RatchetIsExtreme | app/engine/risk_engine.py:197-210 | after any sequence of calculated stops the trailing stop is the best of them, in both forms of the ratchet |
| LimitAgreement.LimitsAgreeExactly | app/engine/setup_lifecycle_service.py:496-510 | when revalidation and sizing mean the same highest price |
| LimitAgreement.PassedPriceIsWithinSize | app/engine/setup_lifecycle_service.py:208-236 | a live price that revalidation lets through is at most the price the size was computed from |
| SessionPolicy.PolicyIsDecisive | app/engine/session_policy.py:35-206 | applied twice the policy changes nothing more, and what it blocks is recognised as blocked |
| SessionPolicy.ExecutionPassesExactly | app/engine/session_policy.py:243-334 | when execution lets an entry pass, in clock times |
| SessionPolicy.SignalPassesExactly | app/engine/session_policy.py:78-189 | when the signal gate does, in clock times and volume |
| SessionPolicy.GatesRefine | app/engine/session_policy.py:78-334 | regular-hours policies: a signal passes exactly when execution passes and no reinforced lunch rule refuses |
| SessionPolicy.ExecutionStricterExactly | app/engine/session_policy.py:243-334 | for every policy, when execution blocks what the signal gate passed |
| SessionPolicy.SignalStricterExactly | app/engine/session_policy.py:432-532 | and when the signal gate blocks what execution would pass |
| SessionPolicy.PremarketPermissionIsVoid | app/engine/session_policy.py:281-293 | the premarket permission has no effect at execution while regular hours are required |
| EntryExecution.GatesPassExactly | app/engine/entry_order_executor.py:47-254 | a signal passes all gates exactly when every one of them holds |
| EntryExecution.ReachedMeansAllGates | app/engine/entry_order_executor.py:47-254 | whatever reaches the broker passed every gate: signal, session and clock, breakers, day trades, cooldown, switches, role, lifecycle, size, costs, broker report, and the order manager's own conditions |
| EntryExecution.PassedReachesBroker | app/engine/entry_order_executor.py:47-254 | and whatever passes them reaches a broker that takes it |
| EntryExecution.StoppedIsRecorded | app/engine/entry_order_executor.py:108-147 | what a stopped signal leaves on its setup |
| EntryExecution.PlacedGainsSizedBracket | app/engine/entry_order_executor.py:254-297 | a placed signal gained exactly a BUY of the approved size with the sized limit and trigger, and under it a SELL at the configured stop, and is counted once |
| EntryExecution.RefusalIsRecorded | app/engine/entry_order_executor.py:264-277 | an entry refused because its setup only manages sends nothing and asks for review |
| EntryExecution.PlacedIsBounded | app/engine/entry_order_executor.py:185-254 | what it can lose, costs included, at the limit the broker holds, is bounded by the risk budget, with any connector |
| ConfigMerge.DeepMerge | app/settings.py:713-720 | the loop over the override computes the recursive merge |
| ConfigMerge.DeepMergeCanonical | app/conversion/canonical_model_builder.py:582-590 | the canonical builder's loop computes the same merge |
| ConfigMerge.LookupLaw | app/settings.py:713-720 | what a merge holds at every path, in terms of its two arguments |
| ConfigMerge.MergeSelf | app/settings.py:713-720 | merging a configuration with itself is the identity |
| ConfigMerge.MergeTwice | app/settings.py:713-720 | merging an override twice is merging it once |
| ConfigMerge.AbsorbedExactly | app/settings.py:713-720 | a base disappears in an override exactly if it adds nothing to it |
| ConfigMerge.AssociativeExactly | app/settings.py:713-720 | merging is associative exactly on triples that regroup |
| ConfigMerge.AssociativeWithoutConflicts | app/settings.py:713-720 | in particular when no path is a mapping in one and a leaf in another |
| ConfigMerge.NotAssociative | app/settings.py:713-720 | a leaf between two mappings breaks it |
| ConfigMerge.OwnStopSettingsWin | app/conversion/canonical_model_builder.py:569-579 | every leaf of a setup's own trailing-stop section is kept; the rest comes from the defaults |
| ChronosQuantiles.QuantileEnvelope | app/forecasting/chronos_worker.py:185-192 | a quantile lies between two of the samples |
| ChronosQuantiles.QuantileMonotone | app/forecasting/chronos_worker.py:185-192 | it is monotone in the level |
| ChronosQuantiles.QuantileAtRank | app/forecasting/chronos_worker.py:185-192 | at the level of a rank it is the sample of that rank |
| ChronosQuantiles.QuantileIsLinear | app/forecasting/chronos_worker.py:185-192 | between two neighbouring ranks it is linear in the level |
| ChronosQuantiles.QuantileOfMultiset | app/forecasting/chronos_worker.py:185-192 | only the samples count, not their order |
| ChronosQuantiles.CompleteInOrder | app/forecasting/chronos_worker.py:136-152 | completion fails exactly on a short median; otherwise three paths of the horizon's length hold the given values at every step, in order |
| ChronosQuantiles.PointForecast | app/forecasting/chronos_worker.py:114-122 | a flat list is a point forecast: all three paths are its first values |
| ChronosQuantiles.SamplesKeepQuantiles | app/forecasting/chronos_worker.py:114-152 | on samples the reordering is the identity: the paths are the quantiles of each step's samples; as many rows as steps are read as the steps, any other number as runs |
| ChronosQuantiles.SamplesSucceedExactly | app/forecasting/chronos_worker.py:114-152 | lists of samples give paths exactly when there are as many as steps and none is empty, or another number, each as long as the horizon |

## Left out

- Faults of a real connector beyond raising and answering: partial fills, asynchronous status events and the transmit
  semantics of `IbAsyncTwsConnector` are not part of this model; that an untransmitted parent is not live until a child
  of it is transmitted is taken as the meaning of the flag.
- Overlap of two brackets or fills on the same setup: only the connection may change at an await of an order operation.
  Overlap is modelled for entry executions and for stop modifications.
- Aliasing of stored rows and dictionaries: rows are values, so a caller that keeps and mutates a row it was given is
  not seen.
- Orders in which Python iterates sets and dictionaries: where the code takes the first key of a set, the model allows
  any key; orphan position rows come in any order instead of sorted by symbol.
- Display titles, messages, event-store records, audit entries and the safety-gate summary derived from the reasons.
- Adoption and closing of positions in `ReconciliationEngine.run`, account and execution queries, and the report it
  stores afterwards.
- Halt and exposure guards of `TradeGuardsService`: they stand as one condition in `EntryExecution`, and a stop
  modification takes their verdict as given.
- Reading configuration: values are given as present or absent and of the right type; numbers that are text, booleans
  or not finite, and times that cannot be read, count as absent or are outside the model.
- `PositionManager.open_or_update_position` and its close notification: plain bookkeeping; closes enter the breakers as
  recorded events.
- Signal overrides of a setup and the analysis metadata they come from: the effective setup is an input.
- SELL fills through `FillExecutor` and short entries through `OrderManager`: the code treats every fill as an entry
  and every entry as BUY.
- Float rounding: bounds are exact in integer cents and in reals, and are not claimed for floats.
- Text beyond ASCII upper case and ordinary blanks.
- Quantile paths that do not come from samples (`_quantile_paths`) beyond the order that completion gives them.
- OrderLedger.LedgerRefinement: ids are assumed to look as the code makes them ("ord_", "stp_" locally, numerals at the
  broker) and to be new, and broker-only cancellations name ids that no row carries.
- StopLedger.StopsOverAllRuns: speaks of row and broker stops; a fill books its position anew with the configured stop,
  so a position stop is a ratchet between fills only.
- Reconciliation.ActiveRowsHaveEvidence: stated for rows whose id is not blank; the code skips rows without an id.
- SetupLifecycle.LifecycleClosedForm: the setup's status is read afresh before every revalidation.
- EntryExecution.ReachedMeansAllGates: the gates that run between two awaits are one step, and the exposure and profit
  figures handed to sizing are inputs.
