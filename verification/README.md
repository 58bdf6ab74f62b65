# A verified model of the trading core

This project models the three stateful cores of the trading system and proves what they promise over whole runs.

* **Order management.** Any number of threads submit intents; they are validated, tracked and enqueued without any
  limit check. One worker drains the queue through the global and the portfolio risk gate, sends to the venue, and
  applies inbound updates to the tracked orders and the position ledger. `OrderCore`, `RiskGates`, `LedgerModel`,
  `KalshiAdapter` and `PaperVenue` are the pieces on values; `OrderManagerCore`, `PositionLedger`,
  `PaperVenue.PaperOrderTransport` and `OrderManager` are the mutable objects, each proved against its value form;
  `OmsMachine` and, with venue and ledger wired in, `PaperMachine` interleave the threads. `OmsExposure`,
  `OmsConservation`, `OmsRestart`, `OrderCoreProperties`, `OrderFills`, `LedgerProperties`, `GateProjection`,
  `Redelivery`, `PaperTheorem` and `PaperCounterexample` hold the results over runs. `OrderAcceptance`, `GateVerdicts`
  and `LedgerSides` say what each operation accepts, decides and books in terms of the statuses, sides, markets and
  numbers of the intents and updates themselves.
* **Lock-free ingest.** A generation-checked slot pool, a single-producer single-consumer ring of handles, the sink, the
  pump, the router and one ring per shard. `FramePool` and `SpscRing` hold the two data structures; `PipelineMachine`
  interleaves sink, pump and shards by single loads, writes and publishing stores, with index views that may lag.
  `PipelineProofs` and `PipelineOrder` hold the results, `MarketBooks` joins them to the books. `IngestPipeline` and
  `ShardConsumer` are the same code as objects whose calls run to their end.
* **Order books.** `BookModel` is one book and the store of books on values, `BookStore` the mutable objects,
  `BookProperties` the results. `BookReference` is a second account of a book, by lists of levels, deltas and sequence
  ids, that every run of the book follows.

A run is any sequence of actions; an action that is not enabled leaves the state as it is, so the runs are exactly the
interleavings. Inbound updates are arbitrary: `Receive` carries any message the Kalshi adapter may read, `Notice` any
update at all. Fields named as history (`sent`, `published`, `refused`, `events`, `places`, `settled`, `threatened`,
`log`, `fate`, and the manager object's `history`) record what happened. No step looks at them, with two exceptions that
stand for state kept elsewhere: the position ledger is the fold of `published`, so the sink's answers and the snapshots
of `PaperMachine` and `OrderManager` are computed from it, and a ring's `pushed` and `popped` bound how far a view may
lag.

Five findings about the code as it stands, each with an input that shows it and the exact condition under which the
expected property holds:

* **Fills are taken whole.** The adapter reports every fill message as a complete fill, so the first one fills its order
  for all it asked, whatever its quantity, while the ledger books each quantity as it comes. An order agrees with what
  the ledger booked for it if and only if the fills applied to it total what it asked for, or there are none
  (`OrderFills.OrderAgreesWithLedgerIff`); one fill of 3 on an order for 10 leaves 10 filled and 3 booked
  (`OrderFills.ShortFillDisagrees`). A message received twice in a row leaves orders and index as
  the first receipt left them, and the positions too if and only if it is not both applied and a bookable fill
  (`Redelivery.RepeatedMessage`).
* **A cancel can end a later place.** A cancel carries a client id of its own, and the paper venue rejects that id. With
  the venue connected throughout, a sent place is Filled and booked if no cancel with its id was under way when it was
  submitted, and Rejected although the venue filled it otherwise (`PaperTheorem.ConnectedRunIsExact`,
  `PaperTheorem.AllFilledIffNoneThreatened`, `PaperCounterexample.CancelAheadOfPlaceBreaksAgreement`).
* **A restart forgets.** `start()` resets the tracked orders and keeps the outbound queue and the request ids. In a
  manager restarted any number of times with nothing left over, the exposure limits survive one more restart if and only
  if no intent left over can still be sent and no sent order is still live (`OmsRestart.LimitsSurviveRestartIff`,
  `OmsRestart.LeftoversBreakTheLimit`). Without a provider of portfolio snapshots this is exact for the manager as is.
  With one it is exact over all answers the provider may give; as long as its answers let no order pass, say because a
  realised loss has breached an enforced floor, the limits hold whatever is left over
  (`OmsRestart.RefusingProviderKeepsLimits`). The counter equations survive under the conditions of
  `OmsRestart.CountersAgreeAfterRestartIff`. The other results about runs are stated from a first start.
* **Replay is stricter than live.** Buffered deltas replay to the same book as live ones if and only if replay meets no
  malformed delta with a passing sequence id: a malformed delta desyncs the book in replay but is only rejected live
  (`BookProperties.BufferedReplayKeepsMeaning`, `BookProperties.MalformedReplayDesyncs`).
* **A malformed delta holds up the sequence.** A live book advances its sequence id before it looks at a delta's
  payload. So it compares a delta with every id heard since the last accepted snapshot, those of refused malformed
  deltas included (`BookReference.LiveDeltaAcceptedIff`). It compares with the accepted ids alone if and only if each id that a
  malformed delta carried is below some accepted one (`BookReference.FilterSeesOnlyAcceptedIff`); after snapshot 10 and
  a malformed delta 20, a good delta 15 is refused (`BookReference.MalformedDeltaMakesGoodOneStale`).

`dafny verify dfyconfig.toml` checks the whole project.

## Model

| member | source | states |
|---|---|---|
| `OmsExposure.SentOrdersStayWithinLimits` | cpp/src/oms/order_manager.cpp:168-252 | In every interleaving of submits, drains and arbitrary inbound updates from an empty queue the sent orders that are still live number at most `max_active_orders_global`, and their open quantity is at most `max_outstanding_qty_global`, each when switched on |
| `OmsExposure.SentOrdersStayWithinMarketLimits` | cpp/src/oms/global_risk_gate.cpp:46-65 | The per-market limits hold likewise in every interleaving in which no step changes an order's market and every replace names its market |
| `OmsExposure.TrackingIgnoresLimits` | cpp/src/oms/order_manager_core.cpp:63-82 | In every state a fresh place raises the tracked live count by one and the tracked open quantity by its size, so the tracked totals may pass the limits that the sent orders keep |
| `OmsExposure.SnapshotCoversSent` | cpp/src/oms/order_manager_core.cpp:413-432 | The gate's snapshot, which leaves out the intent's own id, counts at least everything already sent |
| `OmsExposure.SettlingLowersExposure` | cpp/src/oms/order_manager_core.cpp:270-330 | Updates can only lower the live count and open quantity of the sent orders |
| `OmsExposure.StepKeepsSafe` | cpp/src/oms/order_manager.cpp:69-284 | Every step keeps: whatever may still be sent is tracked, waits once and is unsent, and an intent past the global gate still fits the limits together with all sent orders |
| `OmsExposure.ExposureCounts` | cpp/src/oms/order_manager_core.cpp:396-432 | The summed snapshot is the number of live orders and the sum of their open quantities |
| `OmsMachine.CoreFollowsItsEvents` | cpp/src/oms/order_manager.cpp:69-284 | Every interleaving drives the core through one sequence of its events, so all results on cores hold in every interleaving |
| `OmsMachine.ChainsHoldInEveryInterleaving` | cpp/src/oms/order_manager_core.cpp:139-171 | In every interleaving following replace targets stays inside the tracked orders, never returns to its start, and reaches a placed order |
| `OmsMachine.IndexAgreesInEveryInterleaving` | cpp/src/oms/order_manager_core.cpp:306-312 | In every interleaving every index entry names a tracked order and every order's exchange id is in the index |
| `OmsConservation.CountersAgreeWhenQuiescent` | cpp/src/oms/order_manager.cpp:69-137 | At every quiescent point: submitted = queued + sent + send-failed + global rejects + portfolio rejects; applied + transition-rejected + unknown = received - parse-failed + global rejects + portfolio rejects; request ids = submitted + policy rejects; drops = transition-rejected + unknown + sink refusals |
| `OmsConservation.AlwaysBalanced` | cpp/src/oms/order_manager.cpp:168-284 | The same balances in every state, with staged, uncounted and held intents as further terms; one publication per applied update |
| `OmsConservation.RunKeepsGaps` | cpp/src/oms/order_manager.cpp:69-284 | From whatever state a run starts, no step of any thread changes by how much any balance is off |
| `OmsRestart.CountersAgreeAfterRestartIff` | cpp/src/oms/order_manager.cpp:25-52 | After a restart the equation of the intents holds if and only if the queue held nothing but intents not yet counted, that of the request ids if and only if all ids belonged to submissions under way, the other two always |
| `OmsRestart.CountersAgreeFromQueueIff` | cpp/src/oms/order_manager.cpp:30-41 | From a queue q and nothing else the intents' equation holds if and only if q is empty |
| `OmsRestart.LimitsSurviveRestartIff` | cpp/src/oms/order_manager.cpp:25-52 | For a manager with a global limit on, started and then restarted any number of times with nothing left over: the limits hold in all runs after one more restart, for forgotten and new orders together and over all answers of a configured snapshot provider, if and only if no intent left over can be sent and no sent order is still live |
| `OmsRestart.LivesAreHealthy` | cpp/src/oms/order_manager.cpp:25-64 | What the restart theorem needs of a state holds at the end of any number of such lives, the first from a fresh start |
| `OmsRestart.LimitsSurviveFromHealthyIff` | cpp/src/oms/order_manager.cpp:38-41 | The same equivalence for any one state with those properties |
| `OmsRestart.LimitsBreakAfterDirtyRestart` | cpp/src/oms/order_manager.cpp:168-252 | With something left over there is a run, in which a configured provider answers each question with a passing snapshot, that takes the orders at the venue past a limit |
| `OmsRestart.LimitsSurviveCleanRestart` | cpp/src/oms/order_manager.cpp:38-41 | With nothing left over the limits hold in every run after the restart |
| `OmsRestart.LeftoversBreakTheLimit` | cpp/src/oms/order_manager.cpp:168-252 | Two places left in the queue under a limit of one: both pass the gate untracked and are sent, none is counted as submitted |
| `OmsRestart.RefusingProviderKeepsLimits` | cpp/src/oms/order_manager.cpp:206-232 | Whatever a restart leaves over, while a configured provider's answers let no order pass nothing is sent and the limits hold |
| `OmsRestart.BelowFloorRefuses` | cpp/src/oms/portfolio_risk_gate.cpp:59-64 | A snapshot below an enforced floor lets no order pass |
| `OrderCoreProperties.OrdersOnlySettle` | cpp/src/oms/order_manager_core.cpp:332-407 | Over every run no order is forgotten, identity and requested quantity stay, a terminal status never changes, and outstanding quantity never rises |
| `OrderCoreProperties.ReplaceChainsAreWellFounded` | cpp/src/oms/order_manager_core.cpp:139-171 | Following replace targets stays inside the tracked orders, never returns to its start, and reaches a placed order in fewer links than there are orders |
| `OrderCoreProperties.AlwaysChained` | cpp/src/oms/order_manager_core.cpp:54-174 | The tracked orders are exactly the inserted ones, each once, and a replace points to an earlier insertion |
| `OrderCoreProperties.IndexHoldsLatestReports` | cpp/src/oms/order_manager_core.cpp:279-312 | The index holds the last client reported for each exchange id, and each order the last exchange id reported for it |
| `OrderCoreProperties.IndexAndOrdersAgree` | cpp/src/oms/order_manager_core.cpp:306-312 | Every index entry names a tracked order and every order's exchange id is in the index |
| `OrderCoreProperties.IndexLeadsBack` | cpp/src/oms/order_manager_core.cpp:98-107 | An order's exchange id leads back to it if and only if it was the last order reported under that id; always when no id is reported for two orders |
| `OrderCore.SplitSum` | cpp/src/oms/order_manager_core.cpp:413-432 | The snapshot does not depend on the order in which the map is traversed |
| `OrderCore.Outstanding` | cpp/src/oms/order_manager_core.cpp:396-407 | Outstanding is the requested quantity less what is filled, never below zero |
| `OrderManagerCore.CoreState.ValidateAndTrackSubmission` | cpp/src/oms/order_manager_core.cpp:54-174 | The method computes `Track`, in the same order of checks; `OrderAcceptance` says what that accepts, refuses and adds |
| `OrderManagerCore.CoreState.ApplyUpdateTransition` | cpp/src/oms/order_manager_core.cpp:270-330 | The method computes `Apply`: outcome, updated order, index and the side passed on; `OrderAcceptance` says which updates are applied and what they write |
| `OrderAcceptance.SubmissionAcceptedIff` | cpp/src/oms/order_manager_core.cpp:54-174 | On every core a submission is accepted if and only if its client id is not empty and: a place's id is unused; a cancel's or replace's targets all resolve to one tracked order that is Pending, Accepted, PartiallyFilled or Replaced, and for a replace the id is unused and no two different markets are named |
| `OrderAcceptance.SubmissionAdds` | cpp/src/oms/order_manager_core.cpp:63-82 | A refused submission only counts, an accepted cancel changes nothing, an accepted place adds one Pending order with the intent's own fields, an accepted replace one order |
| `OrderAcceptance.ReplaceInherits` | cpp/src/oms/order_manager_core.cpp:139-171 | An accepted replace adds a Pending order that points at its target and takes over the market, side and quantity that the intent does not say |
| `OrderAcceptance.RefusalIsExplained` | cpp/src/oms/order_manager_core.cpp:57-158 | Each policy error is true of the intent and core it is reported for |
| `OrderAcceptance.UpdateAppliedIff` | cpp/src/oms/order_manager_core.cpp:270-298 | On every core an update is applied if and only if it is for a tracked order, by client id or else through the index, and its status is a move: Filled, Canceled and Rejected from any live status or itself, Accepted from Pending, Replaced or Accepted, PartiallyFilled from any live status, Replaced from Accepted, PartiallyFilled or Replaced; otherwise only the matching counter moves |
| `OrderAcceptance.LiveOrdersCanBeFinished` | cpp/src/oms/order_manager_core.cpp:367-395 | A report that a live order is filled, canceled or rejected is always applied and ends it |
| `OrderAcceptance.UpdateWrites` | cpp/src/oms/order_manager_core.cpp:300-329 | Field by field what an applied update writes into its order and the index, and that nothing else changes |
| `OrderAcceptance.UpdateIsPassedOn` | cpp/src/oms/order_manager_core.cpp:315-321 | The update is passed on as it came, except that a fill without a side takes the order's |
| `OrderAcceptance.SidelessFillIsBookedOnTheOrdersSide` | cpp/src/oms/order_manager_core.cpp:315-318 | A fill without a side is booked by the ledger as bought or sold according to its order's side |
| `OrderAcceptance.FilledIsHighestReported` | cpp/src/oms/order_manager_core.cpp:322-326 | Over every run, until an order is Filled its filled quantity is the highest any applied fill reported, not their sum |
| `OrderManagerCore.CoreState.BuildRiskSnapshot` | cpp/src/oms/order_manager_core.cpp:413-432 | The accumulating loop yields the sum over all counted orders |
| `OrderManagerCore.CoreState.EvaluateGlobalRisk` | cpp/src/oms/order_manager_core.cpp:201-212 | The decision on the current orders; a reject is counted, nothing else changes |
| `OrderManagerCore.CoreState.EvaluatePortfolioRisk` | cpp/src/oms/order_manager_core.cpp:214-226 | The decision on a given snapshot; a reject is counted, nothing else changes |
| `RiskGates.EvaluateGlobal` | cpp/src/oms/global_risk_gate.cpp:30-68 | Allowed if and only if the intent creates nothing or every switched-on limit holds with the intent counted in |
| `RiskGates.EvaluatePortfolio` | cpp/src/oms/portfolio_risk_gate.cpp:48-91 | Allowed if and only if the intent creates nothing or the PnL floor, a valid side and quantity, and both projected limits hold |
| `GateVerdicts.SnapshotCountsOthers` | cpp/src/oms/order_manager_core.cpp:413-432 | The gate's snapshot is the number and the open quantity of the open orders other than the intent's own, over all markets and in its market |
| `GateVerdicts.GlobalVerdict` | cpp/src/oms/global_risk_gate.cpp:30-86 | The first of the four limits, in the code's order, that the intent would break is named by its reason code; none broken, or a cancel, passes |
| `GateVerdicts.PortfolioVerdict` | cpp/src/oms/portfolio_risk_gate.cpp:48-91 | Floor, then quantity and side, then the net moved up by a buy or down by a sell, then the gross: the first that fails is named by its reason code |
| `GateVerdicts.GlobalGateDecides` | cpp/src/oms/order_manager_core.cpp:201-212 | In every state the held intent passes or is turned down for the first limit broken by the other open orders and itself; turned down, its open order is Rejected, the sink gets the reason and nothing is sent |
| `GateVerdicts.PortfolioGateDecides` | cpp/src/oms/order_manager_core.cpp:214-226 | Likewise at the portfolio gate |
| `GateVerdicts.TurnDownRejects` | cpp/src/oms/order_manager_core.cpp:228-268 | Turning an intent down empties the worker's hand, sets its open order to Rejected and publishes one reject update with the reason |
| `GateVerdicts.RequestIdsAreDistinct` | cpp/src/oms/order_manager.cpp:68-104 | In every interleaving no two tracked orders share a request id, and every one lies between 1 and the ids handed out |
| `GateProjection.AllowedIntentStaysWithinLimits` | cpp/src/oms/portfolio_risk_gate.cpp:66-88 | However an allowed intent fills, net stays within the larger of its old size and the market limit, gross within the larger of its old value and the gross limit, and after a full fill the recomputed gross is the projected one |
| `GateProjection.UpdatesMove` | cpp/src/oms/position_ledger_core.cpp:54-75 | Fills of one market move its net by their signed sum and the gross by the change in its size |
| `LedgerProperties.PnlIdentity` | cpp/src/oms/position_ledger_core.cpp:133-185 | Realised PnL minus (sell cash - buy cash + net times average) is exactly the signed sum of the truncation remainders; closes and flips add nothing |
| `LedgerProperties.RemainderIsSmall` | cpp/src/oms/position_ledger_core.cpp:144-156 | Each remainder is smaller in size than the position just averaged |
| `LedgerProperties.AverageStaysInRange` | cpp/src/oms/position_ledger_core.cpp:142-185 | While a position is open its average lies between the lowest and highest fill price since it opened or flipped |
| `LedgerProperties.Int64IsWideEnough` | cpp/src/oms/position_ledger_core.cpp:142-173 | With prices in [0, P], P >= 1 and P times the traded quantity within int64, no intermediate of the next fill leaves int64 |
| `LedgerProperties.PnlBoundedByClosed` | cpp/src/oms/position_ledger_core.cpp:158-173 | With prices in [0, P], realised PnL of a market is at most P times its closed quantity in size |
| `LedgerProperties.AlgebraAlwaysHolds` | cpp/src/oms/position_ledger_core.cpp:77-189 | After any updates net = bought - sold, closed = min(bought, sold), an open price exists exactly when net is not 0, and the PnL and fill totals are the sums over markets |
| `LedgerProperties.PositionFollowsOwnFills` | cpp/src/oms/position_ledger_core.cpp:97-189 | A market's position depends only on that market's own fills, in order |
| `LedgerModel.TruncDivIsDivision` | cpp/src/oms/position_ledger_core.cpp:151-151 | The model's division truncates toward zero, also on negative notionals |
| `PositionLedger.PositionLedgerCore.OnOrderUpdate` | cpp/src/oms/position_ledger_core.cpp:8-24 | The method computes `OnUpdate`: ignored, rejected or booked; `LedgerSides` says on which side and in which counter |
| `PositionLedger.PositionLedgerCore.ApplyFill` | cpp/src/oms/position_ledger_core.cpp:97-189 | A fill changes one market's position, the totals and the counters as `BookFill` says; `LedgerSides.UpdateBooksOnItsSide` gives the side |
| `PositionLedger.PositionLedgerCore.Booked` | cpp/src/oms/position_ledger_core.cpp:125-185 | Opening, averaging, closing and flipping, step by step, give `FillPosition` |
| `PositionLedger.PositionLedgerCore.PortfolioSnapshot` | cpp/src/oms/position_ledger_core.cpp:54-75 | The loop yields the snapshot of which `LedgerSides` says: the market's own net, and the gross and realised PnL over all markets of the exchange |
| `LedgerSides.UpdateBooksOnItsSide` | cpp/src/oms/position_ledger_core.cpp:8-24 | An update is taken unless it reports a fill without market, positive quantity or side; a bookable one grows its market's bought by its quantity on Buy or Bid, sold on Sell or Ask, moves net accordingly and touches no other market |
| `LedgerSides.LedgerFollowsSides` | cpp/src/oms/position_ledger_core.cpp:97-206 | After any updates each market's bought and sold are the sums over its buying and its selling fills, and net their difference |
| `LedgerSides.LedgerCounts` | cpp/src/oms/position_ledger_core.cpp:8-24 | After any updates processed, ignored, rejected and closed positions are exactly the bookable fills, the updates that report no fill, the rest, and the fills that left their market flat |
| `LedgerSides.SnapshotMovesByRealised` | cpp/src/oms/position_ledger_core.cpp:54-75 | An update moves the snapshot's realised PnL, whatever market the snapshot is for, by exactly what its fill realises against the average price on that exchange |
| `LedgerSides.SnapshotHoldsAllRealised` | cpp/src/oms/position_ledger_core.cpp:67-72 | After any updates the snapshot's realised PnL is all that was realised on the exchange, the same for each of its markets |
| `LedgerSides.SnapshotHoldsNetAndGross` | cpp/src/oms/position_ledger_core.cpp:54-72 | After any updates the snapshot's net is its market's bought less sold, and its gross the summed sizes of all markets of the exchange |
| `LedgerSides.SnapshotsAddUp` | cpp/src/oms/position_ledger_core.cpp:67-72 | The realised PnL of the snapshots of the three exchanges adds up to the ledger's total |
| `LedgerSides.BreachedFloorBlocksTheExchange` | cpp/src/oms/portfolio_risk_gate.cpp:59-64 | Once the PnL realised on an exchange is below an enforced floor, no place or replace there passes, whatever its market |
| `LedgerSides.ProjectionBySide` | cpp/src/oms/portfolio_risk_gate.cpp:14-29 | The projected net is the current net plus the quantity of a Buy or Bid, minus that of a Sell or Ask |
| `Redelivery.RepeatLeavesOrdersAlone` | cpp/src/oms/order_manager_core.cpp:314-326 | In every reachable core an applied update, repeated, is applied again and leaves orders and index as they are |
| `Redelivery.RepeatedMessage` | cpp/src/oms/order_manager.cpp:255-284 | In every run a readable message received twice in a row leaves orders and index as they were after the first, leaves the positions alone if and only if it is not both applied and a bookable fill, and moves each market's net by what it books each time |
| `Redelivery.RepeatedFillMuchLater` | cpp/src/oms/order_manager_core.cpp:367-370 | However much happens in between, a repeated fill of a tracked order is applied again, and the positions stay if and only if it is not bookable then |
| `Redelivery.PositionsStayIff` | cpp/src/oms/position_ledger_core.cpp:97-131 | An update leaves the positions alone if and only if it is no bookable fill |
| `OrderFills.OrdersFillAllOrNothing` | cpp/src/oms/order_manager_core.cpp:321-325 | In every interleaving with updates read by the adapter an order is Filled, and for all it asked, if and only if a fill was applied to it, and has nothing filled before |
| `OrderFills.OrderAgreesWithLedgerIff` | cpp/src/oms/order_manager_core.cpp:314-326 | In every interleaving with updates read by the adapter an order's filled quantity is what the ledger booked for it if and only if the fills applied to it total what it asked for, or there are none |
| `OrderFills.LedgerIsSumOverOrders` | cpp/src/oms/position_ledger_core.cpp:97-189 | In every interleaving a market's net in the ledger is the sum, over the orders, of the fills applied to each |
| `OrderFills.OneFillIsTakenWhole` | cpp/src/adapters/exchanges/kalshi/oms_adapter.cpp:164-197 | One fill on an order without fills: the order counts all it asked as filled, the ledger books the fill's quantity |
| `OrderFills.ShortFillDisagrees` | cpp/src/adapters/exchanges/kalshi/oms_adapter.cpp:177-195 | The input: a fill of 3 on an order for 10 leaves 10 filled and 3 booked |
| `KalshiAdapter.BuildRequest` | cpp/src/adapters/exchanges/kalshi/oms_adapter.cpp:210-320 | A request is built if and only if the intent is supported and its action has its required fields; its action is `place_order`, `cancel_order` or `replace_order` exactly for a place, cancel or replace, and it carries the intent's id, targets, market, side, quantity and price |
| `KalshiAdapter.BuildsIff` | cpp/src/adapters/exchanges/kalshi/oms_adapter.cpp:210-320 | Field by field which intents get a request |
| `KalshiAdapter.RequestReadsBack` | cpp/src/adapters/exchanges/kalshi/oms_adapter.cpp:11-55 | Every request built reads back as the intent it was built from: action, ids, targets, market, side, quantity and price, as far as its action sends them |
| `KalshiAdapter.SideNameRoundTrip` | cpp/src/adapters/exchanges/kalshi/oms_adapter.cpp:25-55 | Exactly the known sides survive being written and read back |
| `KalshiAdapter.ParseUpdate` | cpp/src/adapters/exchanges/kalshi/oms_adapter.cpp:104-197 | A message is read if and only if it has the fields of its kind; ack, reject and fill give Accepted, Rejected and Filled, with the message's ids, market, accepted quantity, reason, and fill quantity, price and side |
| `PaperVenue.PlaceRoundTrip` | cpp/src/oms/paper_order_transport.cpp:68-114 | What the adapter reads in the venue's answer to a place is an ack and a fill with the placed id, market, quantity, price and side |
| `PaperVenue.OtherRoundTrip` | cpp/src/oms/paper_order_transport.cpp:115-134 | A cancel or replace is answered with one reject of the request's own client id |
| `PaperVenue.PaperOrderTransport.SendText` | cpp/src/oms/paper_order_transport.cpp:41-137 | The method computes `SendTo`: every refusal and the messages queued |
| `PaperVenue.PaperOrderTransport.RecvText` | cpp/src/oms/paper_order_transport.cpp:139-147 | Messages leave in the order they were queued, and only while connected |
| `PaperVenue.VenueTakesIff` | cpp/src/oms/paper_order_transport.cpp:41-147 | The venue takes a request if and only if it is connected, the text is an object with an action and a client id, and the action is a cancel, a replace or a place with market, side, price and positive quantity; otherwise only the error changes, and it says why |
| `PaperVenue.ExchangeIdsAreDistinct` | cpp/src/oms/paper_order_transport.cpp:79-80 | Over every sequence of calls no two acknowledged places get the same exchange id |
| `PaperTheorem.ConnectedRunIsExact` | cpp/src/oms/paper_order_transport.cpp:68-147 | With auto-fill and the venue connected throughout, whenever its queue is empty: a sent place is Filled for all it asked if no cancel with its id was under way when it was submitted, else Rejected, and each market's ledger net is what the former bought (Buy, Bid) less what they sold (Sell, Ask) |
| `PaperTheorem.AllFilledIffNoneThreatened` | cpp/src/oms/paper_order_transport.cpp:115-134 | So every sent place is Filled if and only if none was submitted while a cancel with its id was under way |
| `PaperTheorem.PaperRunAgrees` | cpp/src/oms/paper_order_transport.cpp:68-147 | In every run, the venue coming and going: if no sent place was submitted while a cancel with its id was under way, then whenever the venue's queue is empty every sent place is Filled for all it asked and each market's ledger net is what its sent places bought less what they sold |
| `PaperCounterexample.CancelAheadOfPlaceBreaksAgreement` | cpp/src/oms/order_manager_core.cpp:91-96 | The input: a run where a cancel uses the id of a later place ends with an empty venue queue and a sent place that is Rejected |
| `PaperTheorem.StepKeepsInv` | cpp/src/oms/order_manager.cpp:168-284 | Every step keeps orders, messages under way and ledger in agreement, as long as no cancel is lost or no threatened place is sent |
| `PaperSteps.ReceiptAgrees` | cpp/src/oms/order_manager.cpp:255-284 | Whatever the venue sent first can be read, concerns a known order or names no exchange id, and keeps the agreement |
| `PaperSteps.RejectKeepsOpen` | cpp/src/oms/paper_order_transport.cpp:115-134 | A reject ends the threatened place it reaches first and leaves every other place as it is |
| `PaperSteps.SubmittedIsOpen` | cpp/src/oms/order_manager.cpp:88-101 | A place is met first by a reject exactly if one with its id was on its way when it was submitted |
| `PaperMachine.PaperRunStaysWithinLimits` | cpp/src/oms/order_manager.cpp:69-284 | In every paper run the live sent orders and their open quantity stay within the limits switched on |
| `PaperMachine.PaperStepKeepsSafe` | cpp/src/oms/order_manager.cpp:69-284 | Every paper step is made of steps of the order manager and keeps what they keep |
| `OrderManager.Manager.SubmitIntent` | cpp/src/oms/order_manager.cpp:69-104 | A submission is one step of the machine; an id is returned exactly when the intent is supported and passes policy |
| `OrderManager.Manager.DrainOutboundIntents` | cpp/src/oms/order_manager.cpp:168-252 | Draining handles every queued intent, in order, through both gates and the venue |
| `OrderManager.Manager.HandleIntent` | cpp/src/oms/order_manager.cpp:179-249 | One turn of the loop: both gates with their reject paths, then build and send |
| `OrderManager.Manager.PumpIncomingUpdate` | cpp/src/oms/order_manager.cpp:255-284 | At most one message is received, parsed, applied and published |
| `OrderManager.Manager.Start` | cpp/src/oms/order_manager.cpp:25-52 | The whole state after a start: counters and core reset, venue connected, outbound queue and request ids kept, and the sent orders not known to have ended recorded as adrift |
| `OrderManager.DrainIsARun` | cpp/src/oms/order_manager.cpp:168-252 | The drain loop is a run of the machine, so every run result holds of the object |
| `PipelineProofs.SlotOwnership` | cpp/src/pipeline/live_pipeline.cpp:83-117 | In every interleaving each slot is in exactly one of free list, sink, frame queue and pump; sink and pump never hold the same slot, the pump's handle is live and its frame is the message written, and no release fails |
| `PipelineProofs.StepKeepsSound` | cpp/src/ingest/ws_message_sink.cpp:13-41 | Every step of every thread keeps the ownership invariant |
| `PipelineOrder.EndToEndOrder` | cpp/src/router/router.cpp:22-51 | What a shard has popped is the routing of an in-order subsequence of the messages offered, all of markets of that shard |
| `MarketBooks.MarketBookFollowsItsMessages` | cpp/src/parsers/exchanges/kalshi/parser.cpp:341-345 | In every interleaving a market's book at its shard is a fresh book fed the parses of an in-order subsequence of the messages offered for that market, and at every shard but the one numbered by the market's hash modulo the shard count it is fresh |
| `PipelineMachine.RoutedMeans` | cpp/src/router/router.cpp:22-51 | A decoded message is routed with its market, sequence id and payload to the shard given by the hash of its market modulo the shard count, or to shard 0 without a market; an undecodable one is not routed |
| `PipelineOrder.EveryMessageHasOneFate` | cpp/src/pipeline/live_pipeline.cpp:83-117 | Every message is exactly one of dropped at the sink, with the sink, queued, with the pump, dropped at routing, in a shard queue, or popped; the drop counters count exactly the dropped ones and the success counter those in a shard or popped |
| `SpscRing.StepRefinesFifo` | cpp/include/trading/ingest/spsc_frame_queue.hpp:22-56 | Under every interleaving and every lagging view each step leaves the queue alone, appends one item below capacity, or removes the front item |
| `SpscRing.RefusalsAreExact` | cpp/include/trading/ingest/spsc_frame_queue.hpp:26-41 | A push gives up exactly when its view shows capacity - 1 items, a pop when its view shows none |
| `SpscRing.NoUnreadSlotIsOverwritten` | cpp/src/router/shard_dispatch.cpp:17-29 | The slot a producer is about to write holds no unread item |
| `SpscRing.PopsArePrefixOfPushes` | cpp/src/router/shard_dispatch.cpp:17-48 | In every reachable state the pops are a prefix of the pushes, at most one less than the requested capacity behind (one, if 2 or less was requested) |
| `SpscRing.SpscQueue.TryPush` | cpp/include/trading/ingest/spsc_frame_queue.hpp:22-34 | Succeeds exactly below capacity - 1 items and then appends |
| `SpscRing.SpscQueue.TryPop` | cpp/include/trading/ingest/spsc_frame_queue.hpp:36-47 | Succeeds exactly on a non-empty queue and then removes the front |
| `FramePool.StaleHandles` | cpp/src/ingest/frame_pool.cpp:49-82 | From a moment where a handle is live, over every later run, `frame` and `release` accept it if and only if its slot is in use and was released a multiple of 2^64 - 1 times in between |
| `FramePool.AcquireKeeps` | cpp/src/ingest/frame_pool.cpp:26-47 | The free list stays a duplicate-free list of exactly the slots not in use, and the new handle is live |
| `FramePool.ReleaseKeeps` | cpp/src/ingest/frame_pool.cpp:49-68 | A release succeeds exactly on a live handle, kills it, and keeps the free list exact |
| `FramePool.AcquireClears` | cpp/src/ingest/frame_pool.cpp:26-47 | A slot is found if and only if one is not in use; its frame is cleared and no other slot changes |
| `FramePool.LastReleasedIsNext` | cpp/src/ingest/frame_pool.cpp:49-68 | The slot released last is the next one acquired, under the next generation |
| `FramePool.NewPoolCountsUp` | cpp/src/ingest/frame_pool.cpp:15-24 | A new pool hands out slots 0, 1, 2 and so on with generation 1, and then none |
| `FramePool.FramePool.AcquireSlot` | cpp/src/ingest/frame_pool.cpp:26-47 | The method computes `Acquire` in place |
| `FramePool.FramePool.ReleaseSlot` | cpp/src/ingest/frame_pool.cpp:49-68 | The method computes `Release` in place, with the 64-bit wrap that skips 0 |
| `FramePool.FramePool.Frame` | cpp/src/ingest/frame_pool.cpp:70-82 | A slot is returned exactly for a live handle |
| `IngestPipeline.MessageSink.PushMessage` | cpp/src/ingest/ws_message_sink.cpp:13-41 | A message is accepted exactly when fewer wait than the pool has slots and the ring has room for; otherwise it is counted as dropped and its slot is back in the pool |
| `IngestPipeline.LivePipeline.PumpIngest` | cpp/src/pipeline/live_pipeline.cpp:83-117 | The pump moves min(max, pending) messages to the shards in order, success and drop counters add up to the number popped, and no release fails |
| `IngestPipeline.LivePipeline.Route` | cpp/src/router/router.cpp:22-43 | An undecodable frame goes nowhere; any other is appended to its market's shard if there is room |
| `IngestPipeline.ShardedEventDispatch.Dispatch` | cpp/src/router/shard_dispatch.cpp:60-75 | Only the named shard's queue grows, and only if it exists and has room; every refusal is counted |
| `IngestPipeline.ShardedEventDispatch.TryPop` | cpp/src/router/shard_dispatch.cpp:77-82 | The front of the named shard's queue is removed, all others stay |
| `ShardConsumer.Shard.ConsumeOne` | cpp/src/shards/shard.cpp:57-89 | One turn pops at most one event, applies its parse to the shard's books, calls the handler if it was applied, and counts all of it |
| `ShardConsumer.BooksFollowTheQueue` | cpp/src/shards/shard.cpp:57-89 | A shard's books are its parsed events applied in order; consumed = applied + errors; the handler is called for exactly the applied events |
| `ShardConsumer.TallyIsExact` | cpp/src/shards/shard.cpp:57-89 | Applied counts the events the books took, the errors the rest, the handler errors those the handler answered with false |
| `BookProperties.BufferedReplayKeepsMeaning` | cpp/src/shards/book_store.cpp:97-181 | At most 512 deltas before a valid snapshot give the same bids, asks, sequence id, delta count and mode as after it, if and only if replay meets no malformed delta with a passing sequence id |
| `BookProperties.WellFormedReplaysClean` | cpp/src/shards/book_store.cpp:97-116 | Well-formed deltas always meet that condition |
| `BookProperties.MalformedReplayDesyncs` | cpp/src/shards/book_store.cpp:106-109 | One malformed buffered delta throws the snapshot away, while live it is only rejected |
| `BookProperties.LevelsInClosedForm` | cpp/src/shards/book_store.cpp:40-95 | In every run the quantity at each side and price is S_n - min(0, min_k S_k) over the running sums of the last loaded level and the deltas accepted since |
| `BookProperties.AcceptedSnapshotIsBase` | cpp/src/shards/book_store.cpp:132-147 | After an accepted snapshot that starting point is the whole snapshot |
| `BookProperties.RejectedSnapshotLeavesPrefix` | cpp/src/shards/book_store.cpp:41-56 | A rejected snapshot leaves exactly the levels listed before the first invalid one, bids first; if all are valid the book is desynced and empty |
| `BookProperties.LowestIsMinimum` | cpp/src/shards/book_store.cpp:59-95 | The `min_k` of the closed form is the least of the running sums |
| `BookProperties.DeltaAccounting` | cpp/src/shards/book_store.cpp:97-181 | Buffered deltas + overflows = pending + replayed + dropped; pending is at most 512 and empty with a snapshot or when desynced; a desynced book has no snapshot and no sequence id; levels have price >= 0 and quantity > 0 |
| `BookProperties.MarketsAreIsolated` | cpp/src/shards/book_store.cpp:120-129 | A market's book in the store is the book of that market's own events |
| `BookReference.BookIsItsReference` | cpp/src/shards/book_store.cpp:120-202 | After any events the book's mode, buffer, last trade and every counter are those of an independent reference that filters by all ids heard, and each price holds the closed form over the deltas it kept, Bid and Buy on one side, Ask and Sell on the other; the next event is taken exactly if the reference takes it |
| `BookReference.StoreIsItsReferences` | cpp/src/shards/book_store.cpp:120-129 | In a store each market's book follows the reference of its own events; an event without market or type is refused and changes nothing, and no event changes another market's book |
| `BookReference.AcceptedIdsIncrease` | cpp/src/shards/book_store.cpp:19-38 | In every run the sequence ids of the deltas and trades accepted since the last accepted snapshot strictly increase and exceed the snapshot's, and the book's last id is the highest one heard |
| `BookReference.LiveDeltaAcceptedIff` | cpp/src/shards/book_store.cpp:175-183 | In every run a live book takes a delta if and only if its price is not negative, its side is known, and it has no id or one above every id heard since the last accepted snapshot; a stale one leaves levels and last id, a taken one moves the level of its own side |
| `BookReference.FilterSeesOnlyAcceptedIff` | cpp/src/shards/book_store.cpp:175-180 | The filter compares with the accepted ids alone if and only if every id carried by a malformed delta is below some accepted one |
| `BookReference.MalformedDeltaMakesGoodOneStale` | cpp/src/shards/book_store.cpp:175-180 | Snapshot 10, malformed delta 20: the good delta 15 is refused, and would have been taken without the malformed one |
| `BookReference.ReplayIsSifted` | cpp/src/shards/book_store.cpp:97-116 | Replay keeps, in order, the buffered deltas that pass every id heard, stops at the first malformed one among them, and counts kept, stale and dropped ones exactly |
| `BookReference.IdIsSeq` | cpp/include/trading/internal/normalized_event.hpp:53-61 | An event's own sequence id takes precedence over the connection's, and the connection's counts only if it is not 0 |
| `BookStore.BookState.ApplySnapshotData` | cpp/src/shards/book_store.cpp:40-57 | The loops load levels up to the first invalid one |
| `BookStore.BookState.ReplayPendingDeltas` | cpp/src/shards/book_store.cpp:97-116 | The loop computes `Replay`; `BookReference.ReplayIsSifted` says what that keeps and drops |
| `BookStore.BookState.ApplyEvent` | cpp/src/shards/book_store.cpp:131-201 | The method computes `Step` for every event type; `BookReference.BookIsItsReference` says what that is over every run |
| `BookStore.BookStore.Apply` | cpp/src/shards/book_store.cpp:120-202 | One market's book changes, created on first use, and no other |

## Left out

- Websocket client, session, feed runner, TLS, auth signing, logging, heartbeat and `main`: I/O and wiring.
- JSON text: requests, messages and payloads are records of optional fields; the decoder, the parser and the ticker hash are arbitrary pure functions.
- Timestamps, clocks, sleeps, stop tokens, thread lifecycle, time in force, liquidity flags, raw payloads and error texts.
- Wrap-around of counters, sequence ids, book quantities and request ids, and int64 overflow outside the position ledger: these are unbounded integers here.
- Memory orders weaker than the lagging-view model: a load of the other side's index may be stale but never goes backwards, and a published index makes the slot contents visible.
- Pools of 2^32 slots or more: the slot count is truncated to 32 bits, so the pool's constructor asks for a smaller capacity.
- `supports` of adapters other than Kalshi's, the Polymarket code, strategies, the shard risk gate and the code inside shard event handlers: stubs or one-step checks.
- `stats()` of core and ledger: plain counts over the maps.
- OmsRestart.LimitsSurviveRestartIff: orders forgotten by a restart count as live with the open quantity they had then, since the manager learns nothing more about them; with a snapshot provider it ranges over all answers, and says nothing of the answers one particular provider gives.
- IngestPipeline.LivePipeline.PumpIngest: each call runs to its end here; its interleaving with the other threads is `PipelineMachine`, where the counters move per frame and not per batch.
- ShardConsumer.Shard.ConsumeOne: one turn of the loop; waiting and stopping are not modelled, and the handler's answer is a pure function of the event.
- OrderManager.Manager.DrainOutboundIntents: the object's calls run to their end over the paper venue and the ledger; other transports and sinks appear only in `OmsMachine`, as arbitrary answers.
- OrderFills.OrdersFillAllOrNothing: for updates the Kalshi adapter reads; an adapter that reports partial fills would give orders partly filled.
- PaperTheorem.ConnectedRunIsExact: tracking and enqueueing are one step, since a cancel could otherwise overtake the place it names.
- PaperTheorem.PaperRunAgrees: one way only where the venue may close, since a cancel lost to a closed venue does no harm.
