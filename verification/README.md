# Trading core: a verified model

This project models the parts of the trading application where money, orders and
subscriptions have to agree across many events, and proves that they do. To check it, run
`dafny verify dfyconfig.toml`.

Most components come in two layers. A value layer (datatypes and functions) says what each
event does; the invariants and the statements about whole runs are proved there. An object
layer (classes with the source's fields and loops) is proved to do, method by method, what
the value layer says. For the Buy Dip strategy, the HP strategy and the broker a method over a
sequence of events is proved to be a run; for the portfolio and the top detector, whose events
arrive one call at a time, a run is those calls in turn.

| part | files |
|---|---|
| Buy Dip strategy: one budget, many positions, the order map, delayed placements | Budgets, BuyDipPositions, BuyDipEngine, BuyDipInvariants, BuyDipChanges, BuyDipSteps, BuyDipEvents, BuyDipRuns, BuyDipEffects, BuyDipLateRun, BuyDipStaleSale, BuyDipStrategy |
| HP strategy: the guarded transition table over buy side, sell side and one or two legs | HpMachine, HpRuns, HpEffects, HpStuckBuy, HpStrategy |
| Inventory lots: selling the cheapest first, locking, account synchronisation | Lots, LotLocks, Portfolio |
| Market-data subscriptions: broker table, signals, counters, reconnects | Subscriptions, BrokerSpot |
| Recovery after a restart | Recovery, OrderRestoring |
| Drawdown, top detection, symbol names | Drawdown, TopDetection, KrakenSymbols |
| shared | Options, Money, MapSums |

## Hypotheses

Money, prices and quantities are exact reals. Identifiers are structural where the source
concatenates strings.

- Buy Dip. An event is handled as a whole; only delayed placements come between events.
  Fill prices and quantities and candle highs are positive. A delayed placement of
  `process_candle` wakes while its position is POTENTIAL_TOP, or is turned down by a pending
  order, the cooldown or the budget (`BuyDipEvents.WakesSafely`); `PlacementDueSafeIff` shows
  that this is exactly what is needed. Cancelled and expired orders are events of the strategy's
  interface (`handle_order_cancel`, `handle_order_expire`); the executor's own cancel callback
  only sends a budget update (src/strategies/buy_dip/executor.py:392-401). The millisecond of a first
  fill, which stamps the next placeholder, stamps no position yet. For the locked budget only:
  a buy fill costs what was locked (`FillsWhatWasLocked`); `LedgerKeptIff` shows this too is
  exact. Distances are sorted and between 0 and 100, the order percentage is in (0, 100],
  `invalidation_min_delta_pct` is not negative.
- HP. Create and cancel calls succeed, at once. The exchange gives non-empty ids, and
  reports an order as filled, cancelled or expired only when it is no longer open; it may
  close an order at any time, and reports may come late, twice or never. Signals may come at
  any time. A guard or action that raises ends the run. For `BalanceIsNeverOverdrawn`
  executions stay within the order's quantity and stable amount. Rounding is an arbitrary
  function of each symbol.
- Subscriptions. Waiting signal tasks run in the order they were created, and tasks change
  over only where one waits; a send may wait after it has written its frame. Frames sent on an
  open socket arrive. The steps also allow a change between listing a channel's symbols and its
  first frame, where the source does not wait; what is proved for all runs covers more runs than
  the source has, and the run of `LeakIsReached` does not use it.

## What the proofs found

- A placement delayed by `process_candle` looks again at the pending order and the cooldown but
  not at the state. Fired after the first fill it puts a first-level order at a later level
  (`LatePlacementBreaksRules`), and a run of seven events gets there and orders a level that is
  not configured (`LatePlacementIsReached`). The handler's own delayed replacement does look. The
  placement's price is that of the top at scheduling, which a new high may have raised since
  (`MayDelay`, `DelayedOrderIsPlaced`).
- Replacement orders of `process_candle` reuse the id of a cancelled order; a fill or cancel is
  entered in the first order with that id. It is the right one exactly when no earlier order
  carries the id (`FillEntersItsOrderIff`, `CancelEntersPendingIff`); `LatePlacementIsReached` is a run
  where a fill, and `CancelEntersOlderOrder` one where a cancel is entered in the wrong order.
- The executor passes quantity 1.0 with every buy fill (src/strategies/buy_dip/executor.py:377-379).
  By `LedgerKeptIff` the locked budget is then wrong unless the order's cost happens to be
  the fill price; `FillOfOneBreaksLedger` is on a run where it is not.
- The executor's candles have no `timestamp` (src/strategies/buy_dip/executor.py:323-332), on which
  the branch of `_handle_rising_pattern` that opens a new position raises. It does so exactly when
  an order can be afforded and the symbol has no position (`RaisesForTimestampIff`). By
  `StamplessRunDoesNothing` no run without a runtime configuration update then ever opens a
  position. The update creates a WATCHING position (src/strategies/buy_dip/executor.py:468-477),
  and from there on candles without a timestamp do (`RisingPromotesWatching`,
  `UpdateThenCandleOpens`).
- A sale books what the position holds when it is filled, not what was ordered. The two differ
  exactly when a further level filled in between (`BookedQuantityIff`, `StaleSaleIsReached`).
- The last transition out of BUYING reads the two sides the wrong way round
  (src/strategies/hp_manager/hp_manager.py:1486-1492): no run reaches it, so a buy sent again
  after the sale completed cannot be cancelled by price (`ResentBuyOfSoldPositionStays`,
  `StuckBuyIsReached`). `LiveBuyIsCancelledIff` says exactly when a live buy can.
- A partial fill takes its cost off the stable amount of the buy order, and what the order has left is
  then counted as the unrealized share of that (src/strategies/hp_manager/hp_manager.py:579-587). A
  cancel gives back all that is not spent only when nothing is realized or nothing is left
  (`CancelReturnsUnspentIff`, `CancelReturnsTooLittle`).
- A ticker at or above the cancel price, handled between the report of a buy's fill and the signal
  that all is filled, takes the position to PARTIALLY_BOUGHT for good, or to PART_SOLD_PART_BOUGHT
  when something was sold before, and the signal then stops the worker
  (`FilledBuyReachesBoughtIff`, `FilledBuyIsStopped`).
- The same race exists for a filled sale of a bought position: the signal closes it only if every
  ticker that reached the cancel price was undone at once by one at the send price
  (`FilledSaleClosesIff`, `FilledSaleIsStopped`).
- The first of two legs is cancelled at 0.92 of the whole position's sell price, although its own
  ticker is on another scale (src/strategies/hp_manager/hp_manager.py:1805-1808): a ticker of the
  leg's symbol that is under that cancels it, whatever the leg's price
  (`FirstLegIsCancelledByItsTickerIff`). The second leg's side is SELLING after the hand-over, which no
  guard of a cancel asks for: until it is partly filled, no price cancels it (`SecondLegStays`).
- When rounding puts the cancel price of a first buy order at or under the price it is sent at,
  the next ticker at that price cancels it (`SendIsCancelledAtOnceIff`, `RoundingCancelsAtOnce`).
- A cancel frees the first locked lots of a coin, which need not be the ones that were locked
  (`CancelRestoresLotsIff`).
- A partial lot sale makes everything left available, even what is still locked
  (`PartlySoldAddsUpIff`, `PartlySoldMayNotAddUp`).
- An unsubscribe during a replay can leave a topic subscribed for nobody (`ExactIffUndisturbed`,
  `DisturbedReplayLeaks`, `LeakIsReached`).
- Restoring orders takes a rejected order for an open one, recovering positions does not: a live
  order followed by a rejected one of its price and quantity is not restored (`LiveComesBackIff`,
  `RejectionHidesLive`).
- Comments and code differ in places; the model follows the code. Lots are sold cheapest
  first where the comments say FIFO, locked in list order where they say proportionally, and
  restored orders carry the chosen order's realized quantity where the docstring says the sum.

## Model

| member | source | states |
|---|---|---|
| BuyDipRuns.LockedIsAccountedFor | src/strategies/buy_dip/strategy.py:445-765 | On every run from an empty start whose buy fills cost what was locked, the locked budget is the sum of the pending orders' costs and of what is invested in positions not COMPLETED; the minimum order size times the number of unreleased buys is covered by available plus locked. |
| BuyDipRuns.BudgetIsInitialPlusProfit | src/strategies/buy_dip/strategy.py:706-765 | On every run, whatever the fill prices and quantities, available is never negative and available plus locked is the initial budget plus the profits of the COMPLETED positions, each of which is what the position reports (except a sale at price 0, for which it reports none). |
| BuyDipRuns.LedgerKeptIff | src/strategies/buy_dip/strategy.py:524-591 | A buy fill leaves the locked budget accounted for if and only if its cost is the cost locked for the order. |
| BuyDipRuns.OrderMapIsExact | src/strategies/buy_dip/strategy.py:445-522 | At every point of every run the order map holds exactly the pending buy and the unfilled sale of each position, filed under their owner, and no position has two pending buys. |
| BuyDipRuns.Lifecycle | src/strategies/buy_dip/position.py:136-189 | POTENTIAL_TOP means no fill, level 0 and no confirmed top; ACTIVE and COMPLETED mean the confirmed top is the top; the level is the number of filled buys and at most the number of distances; average entry times quantity is what was invested; INVALIDATED is never reached. |
| BuyDipRuns.PositionsOnlyMoveForward | src/strategies/buy_dip/position.py:21-30 | Between any two moments of a run a position only moves on through WATCHING, POTENTIAL_TOP, ACTIVE, COMPLETED; its top never falls and never moves once confirmed; a completed position does not change. |
| BuyDipRuns.OneOpenPerSymbol | src/strategies/buy_dip/strategy.py:105-146 | Per symbol at most one position is WATCHING or POTENTIAL_TOP, and exactly one as soon as the symbol has any position. |
| BuyDipRuns.PlacementDueSafeIff | src/strategies/buy_dip/strategy.py:237-301 | A delayed placement keeps the rules of the engine if and only if, when it wakes, its position is still POTENTIAL_TOP, has a pending order, is cooling down, or no order can be afforded; the source looks at the last three only. |
| BuyDipRuns.LatePlacementBreaksRules | src/strategies/buy_dip/strategy.py:255-279 | The failing half: otherwise the position gets a pending order that carries the first level's id at its present, later level. |
| BuyDipLateRun.LatePlacementIsReached | src/strategies/buy_dip/strategy.py:281-301 | Such a run exists: with one level and a cooldown of 90 seconds, two candles a minute apart after a cancelled order each schedule a replacement; the first one is placed and fills, which leaves the cancelled order FILLED and the filled one NEW; the second then orders a level that is not configured. |
| BuyDipLateRun.Fills | src/strategies/buy_dip/position.py:136-189 | The fill on that run: it is entered in the cancelled order, which carries the same id, and uses up the only level. |
| BuyDipRuns.FillEntersItsOrderIff | src/strategies/buy_dip/position.py:136-189 | On every run a buy fill is entered in the order it is for if and only if no earlier order of the position carries its id. |
| BuyDipChanges.FillEntersPendingIff | src/strategies/buy_dip/position.py:136-189 | The same for any consistent record; otherwise the first order with the id becomes FILLED and the pending one stays as it is. |
| BuyDipChanges.CancelEntersPendingIff | src/strategies/buy_dip/position.py:191-214 | And for a cancel. |
| BuyDipLateRun.CancelEntersOlderOrder | src/strategies/buy_dip/position.py:191-214 | An allowed run on which the cancel fails it: two orders share an id, the first was cancelled, and the cancel of the second is entered in the first, so that the second stays NEW with nothing pending. |
| BuyDipRuns.StamplessRunDoesNothing | src/strategies/buy_dip/executor.py:323-332 | If no candle carries a timestamp, as the executor's do not, no run from an empty start without a runtime configuration update ever changes the engine: no position is opened. |
| BuyDipRuns.RaisesForTimestampIff | src/strategies/buy_dip/strategy.py:322-369 | On every reachable state a rising candle raises for its missing timestamp if and only if an order can be afforded and the symbol has no position at all. |
| BuyDipRuns.RisingPromotesWatching | src/strategies/buy_dip/strategy.py:341-363 | With a WATCHING position and an affordable order, a rising candle, with a timestamp or without, puts that position at its high and places the first level. |
| BuyDipRuns.UpdateThenCandleOpens | src/strategies/buy_dip/executor.py:468-477 | So after the WATCHING position that a configuration update creates, the first affordable rising candle opens the symbol, without a timestamp as well. |
| BuyDipRuns.RisingOpensIff | src/strategies/buy_dip/strategy.py:322-397 | A rising candle for a symbol without positions opens one if and only if an order can be afforded and the candle carries a timestamp. |
| BuyDipStaleSale.BookedQuantityIff | src/strategies/buy_dip/strategy.py:751-758 | A sale books the quantity of its sell order if and only if no buy of the position filled since the order was placed. |
| BuyDipStaleSale.FillOfOneBreaksLedger | src/strategies/buy_dip/executor.py:377-379 | An order that locked 100, filled with the executor's quantity of 1 at 90, leaves 10 more locked than is accounted for. |
| BuyDipStaleSale.SaleIsPlacedForAll | src/strategies/buy_dip/strategy.py:673-681 | A sell order is placed for all the position holds. |
| BuyDipStaleSale.SaleBooksHoldings | src/strategies/buy_dip/strategy.py:706-765 | Its fill books what the position holds by then. |
| BuyDipStaleSale.StaleSaleIsReached | src/strategies/buy_dip/strategy.py:751-758 | A run of four events leads to a sell order for 1 whose fill books 2. |
| BuyDipRuns.CompletedPositionEarns | src/strategies/buy_dip/strategy.py:322-397 | On every run whose buys of a position filled at or below their limits, selling it at its sell price or better earns at least invested times d0/(100-d0), which is positive, d0 being the smallest distance. |
| BuyDipRuns.SaleEarnsMargin | src/strategies/buy_dip/position.py:288-302 | The profit of one completed position whose buys were under the ceiling of its top, from the position's own record. |
| BuyDipRuns.RunKeepsMargin | src/strategies/buy_dip/strategy.py:572-591 | Through re-invalidations and later levels, everything bought stays at or below top times (1 - d0/100). |
| BuyDipEffects.LaterLevelsAreOnPrice | src/strategies/buy_dip/strategy.py:572-591 | On every run the pending order of an ACTIVE position is for its next level, at top * (1 - distances[level] / 100) under the confirmed top. |
| BuyDipEffects.RunKeepsOnLevel | src/strategies/buy_dip/strategy.py:572-591 | The invariant behind it. |
| BuyDipEffects.FillOrdersNextLevel | src/strategies/buy_dip/strategy.py:524-591 | A fill adds its cost and quantity, fixes the top, and leaves an order for the next level pending, at that distance under the top and for the percentage of what is available, if and only if there is such a level and the budget for it; the other positions stay as they are. |
| BuyDipEffects.FillMarksFirst | src/strategies/buy_dip/position.py:136-189 | The fill is entered, with its price and quantity, in the first order with the id, and only there. |
| BuyDipEffects.CandleAtWaiting | src/strategies/buy_dip/strategy.py:148-235 | What a candle does on a reachable state to the waiting position of its symbol: if and only if its high is above the top by at least the configured percentage, the top is the high, the cooldown starts, the old order is cancelled and its money free, and the first level at high * (1 - distances[0] / 100) is ordered when affordable; otherwise top and order stay and at most a delayed placement is left. |
| BuyDipEffects.CandleAtWatching | src/strategies/buy_dip/strategy.py:322-397 | And to a WATCHING one: with a rising pattern and the budget it waits at the high with its first level ordered, otherwise it stays. |
| BuyDipEffects.CandleAtNewSymbol | src/strategies/buy_dip/strategy.py:322-397 | And to a symbol without positions: with a rising pattern, the budget and a timestamp one position waits at the high with its first level ordered, otherwise nothing changes. |
| BuyDipEffects.TickerManagesSales | src/strategies/buy_dip/strategy.py:821-884 | A ticker places a missing sale, at the top and for all holdings, if and only if (top - price) * 100 <= sell placement * top, and cancels an existing one if and only if (top - price) * 100 >= sell cancellation * top, for the ACTIVE positions of its symbol and no others. |
| BuyDipEffects.FilledSaleCompletes | src/strategies/buy_dip/strategy.py:706-765 | A filled sale completes its position at the reported price, cancels its pending buy, and frees what was locked together with the profit. |
| BuyDipEffects.OtherSaleReports | src/strategies/buy_dip/strategy.py:706-765 | A sale reported under the id of a pending buy only gives up that buy, under an unknown id nothing. |
| BuyDipEffects.ClosedOrderIsReleased | src/strategies/buy_dip/strategy.py:593-649 | A cancelled or expired buy is no longer pending, its money is free, and the first order with its id is marked. |
| BuyDipEffects.DelayedOrderIsPlaced | src/strategies/buy_dip/strategy.py:237-279 | A delayed placement places its order if and only if nothing is pending, the cooldown is over and the budget is there. |
| BuyDipEffects.DelayedReplacementIsPlaced | src/strategies/buy_dip/invalidation_handler.py:339-401 | A delayed replacement orders the first level under the top of a position that still waits with nothing pending, and otherwise does nothing. |
| BuyDipEffects.PriceCheckInvalidates | src/strategies/buy_dip/strategy.py:399-433 | In any state the price check would invalidate exactly the waiting positions whose confirmed top is under the price. |
| BuyDipRuns.RunKeeps | src/strategies/buy_dip/strategy.py:148-929 | Every run keeps the engine's invariant (positions, order map, symbol index, waiting placements), one open position per symbol, and the ledger when its fills are exact. |
| BuyDipEvents.StepKeeps | src/strategies/buy_dip/strategy.py:148-929 | One event, whichever of the eight it is, keeps all of that. |
| BuyDipEvents.BuyFilledKeeps | src/strategies/buy_dip/strategy.py:524-591 | A buy fill keeps the invariant and moves the gap between locked budget and reservations by exactly the difference between locked and actual cost. |
| BuyDipEvents.SellFilledKeeps | src/strategies/buy_dip/strategy.py:706-765 | A sale keeps the invariant, the ledger and the equity. |
| BuyDipEvents.CandleKeeps | src/strategies/buy_dip/strategy.py:148-320 | A candle with its invalidations, rising pattern, scheduled placements and flag clearing keeps the invariant and the ledger. |
| BuyDipEvents.PlacementDueKeeps | src/strategies/buy_dip/strategy.py:237-301 | A delayed placement keeps them whenever its position is POTENTIAL_TOP or one of the checks before placing turns it down. |
| BuyDipEvents.ReplacementDueKeeps | src/strategies/buy_dip/invalidation_handler.py:351-437 | A delayed replacement of the handler keeps them in any state, because it looks at the state again. |
| BuyDipEvents.TickerKeeps | src/strategies/buy_dip/strategy.py:821-884 | Placing and cancelling sales by price keeps them. |
| BuyDipEvents.PriceCheckNeverInvalidates | src/strategies/buy_dip/strategy.py:399-433 | The price check never changes anything on a reachable state. |
| BuyDipSteps.PlaceOrderKeeps | src/strategies/buy_dip/strategy.py:445-522 | Placing an order at or under the ceiling keeps the invariant, the equity and the ledger. |
| BuyDipSteps.OrderClosedKeeps | src/strategies/buy_dip/strategy.py:593-649 | A cancelled or expired buy gives back exactly what was locked for it. |
| BuyDipSteps.InvalidateKeeps | src/strategies/buy_dip/invalidation_handler.py:103-131 | Cancelling, raising the top and replacing the order keep the invariant and the ledger. |
| BuyDipSteps.SignificantIsHigher | src/strategies/buy_dip/invalidation_handler.py:133-167 | With a non-negative delta, a significant new high is never below the old top. |
| BuyDipChanges.FillOk | src/strategies/buy_dip/position.py:136-189 | A fill of the pending order keeps the position's record consistent and changes its totals by the fill's cost and quantity. |
| BuyDipChanges.AverageStaysExact | src/strategies/buy_dip/position.py:136-189 | The average entry times the quantity stays the invested amount. |
| Budgets.OrderSizeIff | src/strategies/buy_dip/budget_manager.py:32-39 | An order is sized if and only if the percentage of what is available reaches the minimum, and then at that percentage. |
| Budgets.OrderSizeIsCovered | src/strategies/buy_dip/budget_manager.py:32-39 | An order size lies between the minimum and what is available. |
| Budgets.BudgetManager.CalculateOrderSize | src/strategies/buy_dip/budget_manager.py:32-39 | The percentage of what is available, or nothing below the minimum. |
| Budgets.BudgetManager.LockFunds | src/strategies/buy_dip/budget_manager.py:41-48 | Moves the amount from available to locked. |
| Budgets.BudgetManager.ReleaseFunds | src/strategies/buy_dip/budget_manager.py:50-58 | Moves it back together with the profit. |
| BuyDipPositions.BuyDipPosition.PlaceBuyOrder | src/strategies/buy_dip/position.py:98-134 | Appends the order and makes it pending, unless one is pending. |
| BuyDipPositions.BuyDipPosition.IndexOf | src/strategies/buy_dip/position.py:136-189 | The search loop finds the first order with the id. |
| BuyDipPositions.BuyDipPosition.HandleOrderFill | src/strategies/buy_dip/position.py:136-189 | A fill changes the record as the value `Fill` says; an unknown order changes nothing. |
| BuyDipPositions.BuyDipPosition.HandleOrderCancel | src/strategies/buy_dip/position.py:191-214 | A cancel likewise. |
| BuyDipPositions.BuyDipPosition.SetPotentialTop | src/strategies/buy_dip/position.py:232-239 | Sets the top and the state. |
| BuyDipPositions.BuyDipPosition.PlaceSellOrder | src/strategies/buy_dip/position.py:241-260 | Replaces the sell order. |
| BuyDipPositions.BuyDipPosition.HandleSellFill | src/strategies/buy_dip/position.py:262-286 | Completes the position when the id is its sell order's. |
| BuyDipPositions.BuyDipPosition.GetProfit | src/strategies/buy_dip/position.py:288-302 | The sale's value less what was invested, or none. |
| BuyDipStrategies.BuyDipStrategy.PlaceOrder | src/strategies/buy_dip/strategy.py:445-522 | Sizes, locks, places and files an order, or changes nothing. |
| BuyDipStrategies.BuyDipStrategy.HandleOrderCancelOrExpire | src/strategies/buy_dip/strategy.py:593-649 | Both handlers, which do the same. |
| BuyDipStrategies.BuyDipStrategy.CancelPendingOrder | src/strategies/buy_dip/invalidation_handler.py:169-259 | Cancels, releases and unfiles the pending order. |
| BuyDipStrategies.BuyDipStrategy.UpdatePositionState | src/strategies/buy_dip/invalidation_handler.py:261-301 | New top, flag, stamp and cooldown. |
| BuyDipStrategies.BuyDipStrategy.PlaceReplacementOrder | src/strategies/buy_dip/invalidation_handler.py:439-467 | The first level under the new top, under a stamped id. |
| BuyDipStrategies.BuyDipStrategy.InvalidatePosition | src/strategies/buy_dip/invalidation_handler.py:65-131 | The handler's steps for one position, immediate or delayed. |
| BuyDipStrategies.BuyDipStrategy.HandleTopInvalidation | src/strategies/buy_dip/invalidation_handler.py:46-63 | For every waiting position of the symbol. |
| BuyDipStrategies.BuyDipStrategy.CheckNewHigh | src/strategies/buy_dip/strategy.py:171-179 | Runs the handler once when a waiting top is beaten. |
| BuyDipStrategies.BuyDipStrategy.DecideOnRising | src/strategies/buy_dip/strategy.py:322-397 | Which branch a rising pattern takes. |
| BuyDipStrategies.BuyDipStrategy.HandleRisingPattern | src/strategies/buy_dip/strategy.py:322-397 | And what it does. |
| BuyDipStrategies.BuyDipStrategy.ScheduleReplacements | src/strategies/buy_dip/strategy.py:194-301 | Which delayed placements a candle leaves behind. |
| BuyDipStrategies.BuyDipStrategy.ProcessCandle | src/strategies/buy_dip/strategy.py:148-320 | The whole candle is the engine's candle step. |
| BuyDipStrategies.BuyDipStrategy.RunDelayedPlacement | src/strategies/buy_dip/strategy.py:237-301 | A delayed placement waking up. |
| BuyDipStrategies.BuyDipStrategy.RunDelayedReplacement | src/strategies/buy_dip/invalidation_handler.py:351-437 | A delayed replacement waking up. |
| BuyDipStrategies.BuyDipStrategy.CreatePlaceholderWatchingPosition | src/strategies/buy_dip/strategy.py:105-146 | One WATCHING position unless there is one. |
| BuyDipStrategies.BuyDipStrategy.PlaceNextDcaOrder | src/strategies/buy_dip/strategy.py:572-591 | The next level under the confirmed top. |
| BuyDipStrategies.BuyDipStrategy.HandleOrderFill | src/strategies/buy_dip/strategy.py:524-591 | A buy fill is the engine's fill step. |
| BuyDipStrategies.BuyDipStrategy.HandleSellFill | src/strategies/buy_dip/strategy.py:706-765 | A sell fill closes the position, drops its pending buy and releases invested plus profit. |
| BuyDipStrategies.BuyDipStrategy.PlaceSell | src/strategies/buy_dip/strategy.py:651-704 | Files a sale at the top. |
| BuyDipStrategies.BuyDipStrategy.CancelSell | src/strategies/buy_dip/strategy.py:886-929 | Unfiles it. |
| BuyDipStrategies.BuyDipStrategy.ManageSellOrder | src/strategies/buy_dip/strategy.py:840-884 | Places or cancels by the distance from the top. |
| BuyDipStrategies.BuyDipStrategy.ProcessTicker | src/strategies/buy_dip/strategy.py:821-838 | For every active position of the symbol. |
| BuyDipStrategies.BuyDipStrategy.CheckInvalidation | src/strategies/buy_dip/strategy.py:399-433 | The price check. |
| BuyDipStrategies.BuyDipStrategy.WorkerLoop | src/strategies/buy_dip/executor.py:224-250 | Handling events one at a time is a run of the engine. |
| HpRuns.AtMostOneOpenOrder | src/strategies/hp_manager/hp_manager.py:146-383 | From any state with nothing open, on every run with successful calls and truthful reports, at most one of the strategy's orders is open; an open buy implies BUYING and an open sale SELLING. |
| HpRuns.RunKeepsOneOpen | src/strategies/hp_manager/hp_manager.py:146-383 | The invariant behind it: the open order is the current one, live and known under its id. |
| HpRuns.StepKeepsOneOpen | src/strategies/hp_manager/hp_manager.py:1825-1867 | Every event keeps it, the exchange closing an order by itself included. |
| HpRuns.TickerKeepsOneOpen | src/strategies/hp_manager/hp_manager.py:146-383 | Sends, cancels and resends keep it in the order of the table. |
| HpRuns.SignalKeepsOneOpen | src/strategies/hp_manager/hp_manager.py:1271-1294 | So does the hand-over from the first leg to the second. |
| HpRuns.ReportKeepsOneOpen | src/strategies/hp_manager/hp_manager.py:1504-1803 | And every report. |
| HpRuns.CancelledBuyIsClosed | src/strategies/hp_manager/position_buy.py:62-89 | A cancelled buy side leaves no order open. |
| HpRuns.CancelledSellIsClosed | src/strategies/hp_manager/position_sell.py:267-294 | Nor does a cancelled sell side. |
| HpRuns.HeldIsConstant | src/strategies/hp_manager/hp_manager.py:579-793 | Over any stretch of tickers in any run, balance plus what the live buy order reserves is constant. |
| HpRuns.TickerKeepsHeld | src/strategies/hp_manager/hp_manager.py:579-793 | One ticker keeps the sum, whichever transition it takes. |
| HpRuns.RunKeepsUnfilled | src/strategies/hp_manager/position_buy.py:187-207 | Until its first fill the buy order is the one prepared from the configuration. |
| HpRuns.SendKeepsHeldIff | src/strategies/hp_manager/hp_manager.py:628-636 | The first send keeps the sum if and only if the old order had the whole budget left. |
| HpRuns.BalanceIsNeverOverdrawn | src/strategies/hp_manager/hp_manager.py:741-793 | When executions stay within the order, the balance is never negative, although two of the three resends do not look at it. |
| HpRuns.StepKeepsSolvent | src/strategies/hp_manager/hp_manager.py:732-793 | Outside NEW and BUYING a partly bought position always has enough for its rest. |
| HpRuns.SentOrderStays | src/strategies/hp_manager/hp_manager.py:568-805 | When the price band of the side whose order is sent is strict after rounding, that order is not touched by any number of further tickers at the price it was sent at. |
| HpRuns.BuyBandWithoutRoundingIff | src/strategies/hp_manager/hp_manager.py:568-577 | Without rounding the buy band is strict if and only if order price and trigger are of one sign. |
| HpRuns.SellBandWithoutRoundingIff | src/strategies/hp_manager/hp_manager.py:795-805 | And the sell band if and only if there is a positive sell price. |
| HpRuns.FirstOrderStays | src/strategies/hp_manager/hp_manager.py:589-667 | So the first buy order of a position, with a sale configured or without, is left alone by every further ticker at the price it was sent at, when the trigger is positive and nothing is rounded. |
| HpRuns.TwoLegsSellAtTarget | src/strategies/hp_manager/sell_strategies/multihop.py:168-209 | Where rounding is exact, the two legs together sell at the target price, and the second sells exactly what the first brings. |
| HpRuns.SendIsCancelledAtOnceIff | src/strategies/hp_manager/position_buy.py:209-216 | A first buy sent at a price, at or under its trigger, is cancelled by the next ticker at that price if and only if rounding put the cancel price at or under it. |
| HpStuckBuy.RoundingCancelsAtOnce | src/strategies/hp_manager/position_buy.py:209-216 | With prices in whole units, a limit of 100 and a trigger of a tenth of a percent, two tickers at 100 send the order and cancel it. |
| HpRuns.BuySideIsNeverSold | src/strategies/hp_manager/hp_manager.py:1486-1492 | The guard of the last transition out of BUYING asks for a SOLD buy side, which no run reaches. |
| HpEffects.SidesAlwaysMatch | src/strategies/hp_manager/hp_manager.py:146-383 | On every run, whatever the market and the exchange do, the states of the two sides are among those that go with the state of the strategy; states outside the table are not reached. |
| HpEffects.TickerKeepsSides | src/strategies/hp_manager/hp_manager.py:146-383 | Every transition of a ticker keeps that. |
| HpEffects.SignalKeepsSides | src/strategies/hp_manager/hp_manager.py:146-383 | Every transition of a signal keeps that. |
| HpEffects.BuyIsSentIff | src/strategies/hp_manager/hp_manager.py:589-667 | A ticker sends the buy if and only if it is within one trigger of the order price and, by state, the balance covers the budget or the rest, the buy is partly filled, and no sale goes first. |
| HpEffects.BuyAsSent | src/strategies/hp_manager/position_buy.py:187-216 | What is sent: from NEW a new order for the budget, otherwise the old order under a new id, with the cancel price two triggers above; the balance falls by what the order had left. |
| HpEffects.BandIsAbove | src/strategies/hp_manager/hp_manager.py:568-577 | A trigger price is the rounded price so many percent above the order price. |
| HpEffects.BuyAsCancelled | src/strategies/hp_manager/hp_manager.py:694-739 | Where a ticker that ends BUYING leads, what it marks and what it gives back. |
| HpEffects.LeftIsShare | src/strategies/hp_manager/hp_manager.py:579-587 | What an order has left is the unrealized share of its stable amount. |
| HpEffects.PartialFillsSpend | src/strategies/hp_manager/position_buy.py:133-157 | Over any number of partial fills the stable amount falls by what they cost, and price and realized quantity are the last ones. |
| HpEffects.CancelReturnsUnspentIff | src/strategies/hp_manager/hp_manager.py:579-587 | After partial fills a cancel gives back what is not spent if and only if nothing is realized or nothing is left. |
| HpStuckBuy.CancelReturnsTooLittle | src/strategies/hp_manager/hp_manager.py:579-587 | A truthful run that fails it: 400 of 1000 are spent, and the cancel gives back 360 of the other 600. |
| HpEffects.SaleIsSentIff | src/strategies/hp_manager/hp_manager.py:795-827 | A ticker sends the sale if and only if it is of the right symbol, at 0.96 of the sell price for a direct leg or at the sell price otherwise, and no buy goes first. |
| HpEffects.SaleAsSent | src/strategies/hp_manager/hp_manager.py:829-893 | For none, one or two legs: a sale set up without a quantity is sent for what was bought less what is sold, with the stable amount that makes, so that both never exceed what was bought; one with a quantity keeps it. |
| HpEffects.SaleAsResent | src/strategies/hp_manager/hp_manager.py:1108-1130 | A partly sold sale is sent again as it was. |
| HpEffects.PartIsSold | src/strategies/hp_manager/hp_manager.py:838-858 | A part of the buy is filled, the rest is cancelled by a ticker, and the sale that follows is for exactly the part. |
| HpEffects.WholeIsSold | src/strategies/hp_manager/hp_manager.py:838-858 | A buy is filled, its signal comes, and the sale that follows is for exactly what was filled. |
| HpEffects.SaleAsCancelled | src/strategies/hp_manager/hp_manager.py:1041-1158 | Where a ticker that ends SELLING leads and what it marks. |
| HpEffects.SecondLegAsSent | src/strategies/hp_manager/hp_manager.py:1271-1294 | The signal after the first leg sends the second, repriced. |
| HpEffects.LegsAfterRepricing | src/strategies/hp_manager/sell_strategies/multihop.py:168-209 | With any rounding the second leg sells what the first one brings, at the market price, and the first takes the rest of the target. |
| HpEffects.LastLegFinishes | src/strategies/hp_manager/hp_manager.py:1174-1294 | After the second leg the original position is current, filled and SOLD. |
| HpEffects.SaleExecution | src/strategies/hp_manager/position_sell.py:204-265 | An execution of the sale is entered with its price and the quantity sold so far. |
| HpEffects.StatusIsEntered | src/strategies/hp_manager/hp_manager.py:1696-1803 | A report of a new, cancelled or expired order gives its status to each current order with the id, and changes nothing else. |
| HpRuns.TickerEndsBuyingIff | src/strategies/hp_manager/hp_manager.py:146-327 | A ticker ends BUYING if and only if it reaches the cancel price and either nothing is bought or sold and the order is live, or the buy is partly filled and the sale is untouched or partly filled. |
| HpRuns.LiveBuyIsCancelledIff | src/strategies/hp_manager/position_buy.py:62-89 | And exactly then a live buy order is taken off the exchange. |
| HpRuns.ResendFromSoldIsNotCancellable | src/strategies/hp_manager/hp_manager.py:770-793 | A buy sent again from SOLD_PART_BOUGHT is in none of these states. |
| HpRuns.ResentBuyOfSoldPositionStays | src/strategies/hp_manager/hp_manager.py:311-326 | So it is cancelled by no ticker, however often and at whatever price. |
| HpStuckBuy.StuckBuyIsReached | src/strategies/hp_manager/hp_manager.py:311-326 | A truthful run from NEW gets there: a part is bought and sold, the rest is sent again, and no further run of tickers touches that open order. |
| HpRuns.TickerEndsSellingIff | src/strategies/hp_manager/hp_manager.py:194-282 | A ticker ends SELLING if and only if it is of the current leg's symbol, at or under the cancel price, and the sides are in one of three cases: partly bought with an untouched sale; bought with a sale untouched or no longer NEW; partly bought and partly sold. |
| HpRuns.LiveSaleIsCancelledIff | src/strategies/hp_manager/position_sell.py:267-294 | And exactly then a live sale is taken off the exchange. |
| HpRuns.FirstLegIsCancelledByItsTickerIff | src/strategies/hp_manager/hp_manager.py:1805-1808 | The untouched sale of a first leg is cancelled by a ticker of the leg's own symbol if and only if it is at or under 0.92 of the whole position's price, whatever the leg's price. |
| HpRuns.HandOverLeavesSelling | src/strategies/hp_manager/hp_manager.py:1271-1294 | The hand-over sends the second leg's order and leaves its side SELLING. |
| HpRuns.SecondLegStays | src/strategies/hp_manager/hp_manager.py:1041-1064 | So until something of it fills, a second-leg order is cancelled by no ticker, at whatever price. |
| HpRuns.FilledBuyReachesBoughtIff | src/strategies/hp_manager/hp_manager.py:732-739 | A filled buy reaches BOUGHT, or PARTIALLY_SOLD when something was sold before, if and only if no ticker handled between the report of the fill and the signal is at or above the cancel price; otherwise it ends in PARTIALLY_BOUGHT or PART_SOLD_PART_BOUGHT and the signal stops the worker. |
| HpStuckBuy.FilledBuyIsStopped | src/strategies/hp_manager/hp_manager.py:732-739 | A truthful run from NEW that fails it: the whole buy fills, a ticker at the cancel price comes before the signal, and the worker stops in PARTIALLY_BOUGHT. |
| HpRuns.WaitsForSignalIff | src/strategies/hp_manager/hp_manager.py:714-739 | The tickers in between: all under the cancel price change nothing, the first other one moves the position for good, whether or not something was sold before. |
| HpRuns.FilledSaleClosesIff | src/strategies/hp_manager/hp_manager.py:1132-1172 | A filled sale of a bought position is closed by its signal, or handed over to the second leg, if and only if every ticker of its symbol at or under the cancel price that comes before the signal is followed at once by one of its symbol at or above the send price; otherwise the worker stops in PARTIALLY_SOLD. |
| HpStuckBuy.FilledSaleIsStopped | src/strategies/hp_manager/hp_manager.py:1132-1172 | A truthful run from NEW that fails it: buy and sale fill in full, a ticker at the cancel price comes before the signal, and the worker stops in PARTIALLY_SOLD. |
| HpRuns.FilledSaleWaits | src/strategies/hp_manager/hp_manager.py:1066-1158 | What the tickers in between leave: under the same condition the filled sale, still SELLING, and otherwise a position in PARTIALLY_SOLD. |
| HpRuns.PartBoughtSaleStays | src/strategies/hp_manager/hp_manager.py:1410-1426 | While the buy is only partly filled, no ticker comes between a filled sale and its signal. |
| HpStrategies.HPPositionBuy.PrepareOrder | src/strategies/hp_manager/position_buy.py:187-207 | The order for the whole budget at the configured price. |
| HpStrategies.HPPositionBuy.OpenPosition | src/strategies/hp_manager/position_buy.py:35-60 | Fixes the cancel price and sends the order unless it is filled. |
| HpStrategies.HPPositionBuy.CancelPosition | src/strategies/hp_manager/position_buy.py:62-131 | Cancels a live order and reads the side's state off it. |
| HpStrategies.HPPositionBuy.HandleOrderFilled | src/strategies/hp_manager/position_buy.py:159-185 | Takes over status, price and quantity of a fill. |
| HpStrategies.HPPositionBuy.HandleOrderPartiallyFilled | src/strategies/hp_manager/position_buy.py:133-157 | And of a partial one, whose cost leaves the stable amount. |
| HpStrategies.HPPositionSell.OpenPosition | src/strategies/hp_manager/position_sell.py:128-164 | Sends the current leg's order unless it is filled. |
| HpStrategies.HPPositionSell.CancelPosition | src/strategies/hp_manager/position_sell.py:267-294 | Cancels it if it is live. |
| HpStrategies.HPPositionSell.HandleOrderFilled | src/strategies/hp_manager/position_sell.py:235-265 | Takes over a fill. |
| HpStrategies.HPPositionSell.HandleOrderPartiallyFilled | src/strategies/hp_manager/position_sell.py:204-233 | And a partial one. |
| HpStrategies.HPPositionSell.RecalculateMultihopPrices | src/strategies/hp_manager/sell_strategies/multihop.py:141-217 | Both legs take the market price of the second leg. |
| HpStrategies.HPPositionSell.SizeOrder | src/strategies/hp_manager/hp_manager.py:838-858 | A sale set up with quantity 0 takes what was bought and not yet sold. |
| HpStrategies.HPPositionSell.NextLeg | src/strategies/hp_manager/hp_manager.py:1271-1294 | The second leg becomes current. |
| HpStrategies.HPPositionSell.FinishLegs | src/strategies/hp_manager/hp_manager.py:1213-1225 | The original position counts as sold. |
| HpStrategies.HpStrategy.SendBuyOrders | src/strategies/hp_manager/hp_manager.py:628-667 | Reserve, prepare, send. |
| HpStrategies.HpStrategy.ResendBuyOrders | src/strategies/hp_manager/hp_manager.py:770-793 | Reserve what is left and send again. |
| HpStrategies.HpStrategy.CancelUnfilledBuyOrders | src/strategies/hp_manager/hp_manager.py:694-712 | Give back and cancel. |
| HpStrategies.HpStrategy.CancelPartiallyBoughtOrders | src/strategies/hp_manager/hp_manager.py:732-739 | The same for a partly bought position. |
| HpStrategies.HpStrategy.CloseFilledPositionBuy | src/strategies/hp_manager/hp_manager.py:911-947 | The buy side is BOUGHT; without an order the source raises. |
| HpStrategies.HpStrategy.SendSellOrder | src/strategies/hp_manager/hp_manager.py:829-893 | Reprice, size, send; a leg already filled is SOLD. |
| HpStrategies.HpStrategy.ResendSellOrder | src/strategies/hp_manager/hp_manager.py:1108-1130 | Send the rest again. |
| HpStrategies.HpStrategy.CancelUnfilledSellOrders | src/strategies/hp_manager/hp_manager.py:971-991 | Cancel and go back to BOUGHT or PARTIALLY_BOUGHT by the buy order. |
| HpStrategies.HpStrategy.CancelPartiallySoldOrders | src/strategies/hp_manager/hp_manager.py:1153-1158 | Cancel and stay PARTIALLY_SOLD. |
| HpStrategies.HpStrategy.CloseFilledPositionSell | src/strategies/hp_manager/hp_manager.py:1174-1294 | Close one leg, hand over, or finish. |
| HpStrategies.HpStrategy.HandleOrderFilledBuy | src/strategies/hp_manager/hp_manager.py:1520-1557 | A filled buy, which also reopens a sold sell side. |
| HpStrategies.HpStrategy.ConfirmStatus | src/strategies/hp_manager/hp_manager.py:1715-1803 | A confirmed status goes to whichever order has the id. |
| HpStrategies.HpStrategy.ProcessOrder | src/strategies/hp_manager/hp_manager.py:327-375 | The first report transition whose guard holds. |
| HpStrategies.HpStrategy.ProcessTicker | src/strategies/hp_manager/hp_manager.py:146-383 | The first ticker transition whose guard holds; raising guards stop the worker. |
| HpStrategies.HpStrategy.ProcessSignal | src/strategies/hp_manager/hp_manager.py:200-310 | The first signal transition whose guard holds. |
| HpStrategies.HpStrategy.Worker | src/strategies/hp_manager/hp_manager.py:1816-1870 | Handling the queue is a run of the machine. |
| Lots.SellRemoves | src/portfolio/portfolio_gui.py:464-583 | A sale removes exactly the smaller of what was asked for and what there is. |
| Lots.SellsPrefixAndPart | src/portfolio/portfolio_gui.py:487-556 | It removes a prefix of the price-sorted lots and a part of the next; the rest is untouched. |
| Lots.SellIsCheapest | src/portfolio/portfolio_gui.py:477-485 | No way of taking the same quantity out of the lots gives up less cost basis. |
| Lots.AverageNeverFalls | src/portfolio/inventory_manager.py:54-65 | So the weighted average buy price of what is left never falls. |
| Lots.PartlySoldAddsUpIff | src/portfolio/portfolio_gui.py:520-533 | After a partial sale available plus locked is the lot's quantity if and only if no more was locked than sold. |
| Lots.PartlySoldMayNotAddUp | src/portfolio/portfolio_gui.py:520-533 | A lot of 10 with 5 locked: selling 2 leaves 8, all available, and 3 locked. |
| Lots.SortStable | src/portfolio/portfolio_gui.py:477-485 | Sorting by price keeps lots of equal price in order. |
| Lots.SortContents | src/portfolio/portfolio_gui.py:477-485 | And keeps all of them. |
| Lots.InsertExchange | src/portfolio/portfolio_gui.py:487-556 | The exchange step behind the optimality. |
| LotLocks.LockIsAllOrNothing | src/portfolio/portfolio_gui.py:1428-1461 | A lock moves all of its amount from available to locked or nothing at all, and only for its coin. |
| LotLocks.UnlockIsCapped | src/portfolio/portfolio_gui.py:2112-2142 | A cancel moves back its amount, at most what is locked. |
| LotLocks.RequestsKeepLots | src/portfolio/portfolio_gui.py:1486-1522 | Over any sequence of locks and cancels every lot keeps its quantity and the sum of its two parts, and neither part is ever negative. |
| LotLocks.CancelUndoesLock | src/portfolio/portfolio_gui.py:2112-2142 | A successful lock and a cancel of the same amount, with any requests for other coins between, restore the coin's totals. |
| LotLocks.CancelRestoresLotsIff | src/portfolio/portfolio_gui.py:2112-2142 | A successful lock and its cancel put every single lot back if and only if no lot of the coin before the last one the lock took from had anything locked. |
| LotLocks.UnlockRestoresIff | src/portfolio/portfolio_gui.py:2131-2142 | The same for the two loops. |
| LotLocks.CancelMayFreeAnotherLot | src/portfolio/portfolio_gui.py:2131-2142 | Two lots for which it fails: the cancel frees the first, the lock was on the second. |
| LotLocks.SyncMatchesExchange | src/portfolio/portfolio_gui.py:1363-1384 | After an account update the lots of a reported coin add up to exactly its free and locked amounts; other coins are untouched. |
| LotLocks.SyncFollowsList | src/portfolio/portfolio.py:399-425 | The same by the exchange's list: for the last entry of each coin the lots add up to its free and its locked amount, each lot with the share quantity / total; lots of coins without an entry or a quantity are untouched. |
| LotLocks.SyncIsIdempotent | src/portfolio/portfolio.py:404-425 | Doing it twice, as screen and backend do, changes nothing more. |
| Portfolios.Portfolio.UpdateLotsAfterSell | src/portfolio/portfolio_gui.py:464-583 | The loop over the sorted lots does what the sale says, to the coin's lots and to the inventory. |
| Portfolios.Portfolio.SellLots | src/portfolio/portfolio_gui.py:487-556 | Its loop: whole lots leave both lists, the next is sold in part. |
| Portfolios.Portfolio.SellPart | src/portfolio/portfolio_gui.py:520-533 | One lot is sold in part. |
| Portfolios.Portfolio.RemoveItem | src/portfolio/portfolio_gui.py:505-508 | An item leaves the inventory by id. |
| Portfolios.Portfolio.LockQuantity | src/portfolio/portfolio_gui.py:1486-1522 | The lock loop over the inventory. |
| Portfolios.Portfolio.UnlockQuantity | src/portfolio/portfolio_gui.py:2112-2142 | The unlock loop. |
| Portfolios.Portfolio.HandleAccountPosition | src/portfolio/portfolio.py:395-425 | The sync loops do what the exchange's list says to each lot and to the sums of each coin; of two balances for a coin the later counts. |
| Portfolios.Portfolio.TotalAvailable | src/portfolio/inventory_manager.py:36-40 | The sum of a coin's available quantities. |
| Portfolios.Portfolio.TotalLocked | src/portfolio/inventory_manager.py:42-44 | And of its locked ones. |
| Subscriptions.CounterIsEntries | src/websocket/manager.py:173-194 | On every run a topic's counter plus the waiting signals is its number of entries in the broker's table; with no signal waiting they are equal. |
| Subscriptions.TableIsHistory | src/broker/spot.py:123-232 | On every run a system's entries are exactly the subscriptions it made since it last unsubscribed, each once. |
| Subscriptions.ClampIsNeverUsed | src/websocket/manager.py:181-186 | A signal always moves the counter by exactly one: the clamp at 0 never acts. |
| Subscriptions.NoSubscriberIsLost | src/websocket/manager.py:219-268 | However subscribes and unsubscribes interleave with drops, reconnects and replayed frames, once a replay has ended every topic with a positive counter is subscribed on the socket. |
| Subscriptions.EverySubscriptionIsServed | src/broker/spot.py:123-170 | From the broker's table to the server: then every subscription of every system is served. |
| Subscriptions.ServerIsExact | src/websocket/manager.py:188-226 | If no signal ends the last subscription of a topic that the replay has listed and not yet sent, the server sends exactly the topics with a positive counter. |
| Subscriptions.ExactIffUndisturbed | src/websocket/manager.py:173-226 | One step keeps every topic exact if and only if it is not such a signal. |
| Subscriptions.DisturbedReplayLeaks | src/websocket/manager.py:219-226 | Otherwise, on either channel and wherever the topic stands in the list, the server ends the replay sending a topic nobody is subscribed to. |
| Subscriptions.LeakIsReached | src/websocket/manager.py:219-226 | A run from an empty start gets there, for any two ticker and any two kline subscriptions: the second subscriber leaves while the replay waits after its first frame; in the end nothing is waiting, and the server sends the second topic, to which nobody is subscribed. |
| Subscriptions.SubscribeKeepsCounted | src/broker/spot.py:123-138 | A subscribe keeps the count. |
| Subscriptions.UnsubscribeKeepsCounted | src/broker/spot.py:222-232 | An unsubscribe keeps it, and keeps every waiting decrease backed. |
| Subscriptions.SignalKeepsCounted | src/websocket/manager.py:181-186 | So does running a signal. |
| Brokers.WebSocketManager.Adjust | src/websocket/manager.py:173-194 | Moves a counter and sends a frame when it leaves or reaches 0. |
| Brokers.WebSocketManager.SendPublicChannelMessage | src/websocket/manager.py:196-217 | A frame when there is a socket. |
| Brokers.WebSocketManager.ResubscribeNext | src/websocket/manager.py:219-226 | One pause-free stretch of the replay. |
| Brokers.WebSocketManager.ResubscribePublicChannels | src/websocket/manager.py:219-226 | The whole replay undisturbed subscribes exactly the counted topics. |
| Brokers.WebSocketManager.Connect | src/websocket/manager.py:232-245 | A new socket starts with nothing and a listed replay. |
| Brokers.WebSocketManager.Drop | src/websocket/manager.py:260-268 | A lost socket. |
| Brokers.BrokerSpot.Subscribe | src/broker/spot.py:123-138 | Enters a subscription once and signals it. |
| Brokers.BrokerSpot.SignalWs | src/broker/spot.py:142-170 | Which signals a subscription gives. |
| Brokers.BrokerSpot.Unsubscribe | src/broker/spot.py:222-232 | Removes a system's entries and signals each. |
| Brokers.BrokerSpot.RunNextSignal | src/broker/spot.py:142-170 | The event loop runs the first waiting signal. |
| Brokers.BrokerSpot.RunLoop | src/broker/spot.py:142-170 | Handling events one at a time is a run of the system. |
| Recovery.RecoveredState | src/recovery/position_verifier.py:126-165 | For any non-empty list of sensible orders with positive total: BOUGHT if and only if everything was realized, PARTIALLY_BOUGHT if and only if something but not everything was, and otherwise BUYING, SELLING or NEW as the orders and the stored strategy state say. |
| Recovery.StoredTotals | src/recovery/position_verifier.py:126-165 | The stored quantity and realized quantity are the two sums, and the status is what these and the orders say. |
| Recovery.LoadedState | src/recovery/position_converter.py:69-139 | What any stored position loads as: BOUGHT if and only if it is filled or complete, PARTIALLY_BOUGHT if and only if it is neither and something is filled. |
| Recovery.VerifyingTwice | src/recovery/position_verifier.py:126-165 | Verifying again changes nothing. |
| Recovery.Position.UpdateFromOrders | src/recovery/position_verifier.py:126-165 | The loops and branches that update the stored position. |
| Recovery.Position.ConvertToBuyData | src/recovery/position_converter.py:69-139 | The state given to the trading side, with the corrected completeness. |
| OrderRestoring.OnePerKey | src/recovery/order_restorer.py:128-183 | Exactly one restored order for each price and quantity that occurs. |
| OrderRestoring.WhatComesBack | src/recovery/order_restorer.py:143-161 | It is the latest order of its kind that is neither filled nor cancelled if there is any, else the latest filled, else the latest. |
| OrderRestoring.LiveComesBackIff | src/recovery/order_restorer.py:144-151 | The restored order is live if and only if some live order of its kind has no later one of it that is neither filled nor cancelled. |
| OrderRestoring.RejectionHidesLive | src/recovery/order_restorer.py:144-151 | A live order followed by a rejected one of its kind is hidden by it, and what comes back does not count as open when the position is recovered. |
| OrderRestoring.AggregateOrders | src/recovery/order_restorer.py:128-183 | The grouping and choosing loops restore exactly these, in order of first appearance. |
| OrderRestoring.Filter | src/recovery/order_restorer.py:144-158 | The selections inside them. |
| Drawdowns.CalculateMaxDrawdown | src/strategies/buy_dip/backtester/backtester.py:616-635 | With non-negative totals the one-pass result is the maximum over all pairs of an earlier and a later total, the initial budget included, and lies between 0 and 100. |
| TopDetection.RetainedIsWindow | src/strategies/buy_dip/top_detector.py:83-91 | With timestamps that never fall, what is retained is the whole history cut to the window. |
| TopDetection.ReportedIff | src/strategies/buy_dip/top_detector.py:93-127 | A price is reported if and only if it is the first highest of that window, not 0, left by at least the threshold, and of another time than the last top reported on that history. |
| TopDetection.TopIsLastReport | src/strategies/buy_dip/top_detector.py:110-127 | The top that is kept is the last one that was reported. |
| TopDetection.HighestIsFirst | src/strategies/buy_dip/top_detector.py:98-99 | The maximum taken is the first of the highest points. |
| TopDetection.TopDetector.Observe | src/strategies/buy_dip/top_detector.py:66-127 | The method does that to its fields and returns the price. |
| TopDetection.TopDetector.ForgetOld | src/strategies/buy_dip/top_detector.py:87-91 | The cut to the window. |
| TopDetection.TopDetector.FindHighest | src/strategies/buy_dip/top_detector.py:98-99 | The search for the maximum. |
| KrakenSymbols.RoundTripIff | src/common/client.py:26-45 | For every non-empty base without a slash and every known quote, going to the exchange's name and back gives the name back if and only if the base is not XBT. |
| KrakenSymbols.RoundTripFromKrakenIff | src/common/client.py:38-45 | And from the exchange's name and back, if and only if the base is not BTC. |
| KrakenSymbols.SplitFindsQuote | src/common/client.py:26-37 | A name is split at its own quote, because no known quote ends another. |

## Left out

- Screens, display dictionaries, user-interface messages, logging, the database, REST calls and sockets; the exchange is the set of open orders, the server the set of subscribed topics.
- Float and decimal rounding, except as the arbitrary rounding functions of the HP machine; the rounding of displayed averages.
- Failed or slow create and cancel calls, their retries, and the minimum-notional check.
- Runtime configuration updates and budget deposits and withdrawals of the Buy Dip strategy, except that `UpdateThenCandleOpens` starts from the WATCHING position an update creates.
- The rising-pattern detector and the candle buffer: whether a candle completes a rising pattern is an input of the candle step.
- The order size and distances copied into each position for display; `invalidate_top`, which nothing calls.
- The fallback of `process_candle` for a missing event loop, which places at once.
- Separate clock readings within one event: each event has one time.
- `TopInvalidationHandler` as an object of its own: its methods change only the strategy's fields and are methods of `BuyDipStrategy`; its task dictionary is the field `scheduled`.
- BuyDipStrategies.BuyDipStrategy.HandleOrderCancelOrExpire: one method for `handle_order_cancel` and `handle_order_expire`, whose effects are the same.
- BuyDipPositions.BuyDipPosition.PlaceBuyOrder: the pending order is an index into the list of orders rather than a second reference to the same object.
- HP completeness, display states and portfolio events, and the division by a zero order quantity in the completeness; an order of quantity zero is not accepted by the exchange.
- HP quantity totals across cancel and resend: realized quantities are overwritten by each report, so nothing is conserved there.
- HpStrategies.HPPositionSell.FinishLegs: the new current position gets a copy of the original's order; the source shares it, and nothing reads the original afterwards.
- The construction of sell legs and the choice of a sell path: one or two legs, or none, are given.
- The worker's queue as a data structure: the events are given as a sequence, with the strategy's own signals among them.
- Portfolios.Portfolio.UpdateLotsAfterSell: lots are inventory items, the items of a coin's rows are those of the inventory, and the ids are distinct; lots kept as dictionaries are not modelled.
- Lots.AverageNeverFalls: speaks of the exact average; what is shown is rounded.
- Portfolio totals across partial fills and completion, where the code adds the full amount again.
- Subscriptions made before the broker has a WebSocket manager, which the counters do not see; the private socket; a send that fails while the socket still counts as connected.
- Drawdowns.CalculateMaxDrawdown: for a positive initial budget; otherwise the source may divide by zero.
- Recovery.Position.UpdateFromOrders: whether a related sale was cancelled after a partial fill is an input; the orders' own verification with the exchange is not part of this model.
- Converting sell positions, and the selection of a sell order: case tables without a property of their own.
- KrakenSymbols.RoundTripIff: bases with a slash do not occur.
