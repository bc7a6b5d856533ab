# Market-making auto-traders for an ETF/FUTURE pair

This project models the two `AutoTrader` engines of a Ready Trader Go team in Dafny and proves
properties of them. Both engines quote an ETF against its FUTURE, and each handler reacts to one
exchange message.

- **The single-pair engine** (`autotrader1.py`) keeps at most one resting bid slot and one
  resting ask slot.
  - On each ETF book update it either fires a fill-and-kill arbitrage order against the FUTURE
    touch, or computes one target bid and one target ask.
  - It then cancels a slot whose target moved and fills an empty slot.
  - It hedges every fill at once on the FUTURE, at the extreme tick of the venue.
- **The ladder engine with delayed hedging** (`autotrader_delayhedge.py`) builds NLADDER = 3
  bids and 3 asks, one tick apart and shifted by an inventory skew.
  - It reconciles the ladders with its price dicts (`bid_prices`/`ask_prices`, price to order
    id). It cancels the tracked levels that are no longer wanted and inserts the missing ones at
    a capacity-clipped size.
  - Fills only move the position. The net ETF+FUTURE exposure is hedged when trade ticks arrive.

## How the model is built

The modules follow the program's structure:

| module | file | contents |
|---|---|---|
| `Market` | market.dfy | What both engines share: instruments, sides and lifespans. `update_best_record` (`Tracker`, `Observe`). The arbitrage signals. The choice of target quotes (`Targets`). The prices `MIN_BID_NEAREST_TICK`/`MAX_ASK_NEAREST_TICK`. |
| `Lists` | lists.dfy | Python's `list.remove`, and filtering a list against the prices already tracked. |
| `PriceLevels` | price_levels.dfy | A Python dict from price to order id, which keeps its keys in insertion order. The reconciliation loops. |
| `SinglePair` | single_pair.dfy | The single-pair engine. |
| `DelayHedge` | delay_hedge.dfy | The ladder engine. |
| `DelayHedgeSends` | delay_hedge_sends.dfy | What one book update of the ladder engine sends and records. |

Each engine is modelled twice:

- **A value and its specification.** `State` holds the engine's fields. One function per
  handler (`BookUpdate`, `Fill`, `Status`, `Error`, `TradeTicks`) specifies that handler. The
  lemmas are proved about these functions.
- **A class that updates in place.** `AutoTrader` has the same fields and updates them in
  place, with the source's loops. Each handler method ensures that its new state equals the
  specification function applied to its old state, through `Snapshot()`, and it keeps
  `Valid()`.

The gateway calls `send_insert_order`, `send_cancel_order` and `send_hedge_order` are modelled
as a ghost log of `Action`s: `Insert`, `Cancel` and `Hedge`.

A handler that raises `KeyError` returns `ok == false`. This happens when it reads
`curr_best_*[...]` for an instrument it has never seen. The state is then what the source leaves
behind when it raises.

### Behaviours of the code the model keeps

The model follows the code in each of these cases. Where the code and its own description
differ, it follows the code.

- **The single-pair engine never withdraws a quote without a target.**
  - With an ETF touch of 0, both targets are 0.
  - A slot is cancelled only for a different nonzero target (`Withdraw`).
  - The resting orders therefore stay on a one-sided book.
- **Sizing at send time does not bound the position.**
  - A freed slot's order is still live until a status message arrives.
  - Both it and its replacement can fill. `PositionCanExceedLimit` reaches position 95 from 85.
  - Its starting state is well-formed; the model does not show that a run of messages from
    `Initial` reaches it.
- **The buy arbitrage is sized from the bid volume.** Both engines do this, and the `Decide`
  functions reproduce it.
- **The ladder engine's terminal status drops the level at the order's price on both sides.**
  - The end of an ask therefore also drops the bid level at that price.
  - That bid is then in no level and is never cancelled.
  - The next ladder places a second bid at the same price (`CrossSidePopOrphansBid`).
- **The hedge cooldown never applies.** `hedge_timer` is reset just before it is tested, so
  the threshold is always one tick (`TradeTicks`).
- **Arbitrage ids are kept only in `bids`/`asks`.** They never enter the price dicts.

## Model

| member | source | states |
|---|---|---|
| Market.MinBidNearestTick | autotrader1.py:29 | MIN_BID_NEAREST_TICK is on the tick and is the first tick strictly above MINIMUM_BID |
| Market.MaxAskNearestTick | autotrader1.py:30 | MAX_ASK_NEAREST_TICK is on the tick and is the last tick at or below MAXIMUM_ASK |
| Market.Record | autotrader1.py:225-228 | a nonzero price is stored for its instrument; a zero price changes nothing; the other instrument's entry is unchanged |
| Market.Observe | autotrader1.py:222-228 | the sequence cursor becomes the larger of old and new, so it never decreases; each best price is recorded by `Record` |
| Market.MidpointComparison | autotrader1.py:117-121 | the doubled integer comparison `BidFarther` holds exactly when the ETF bid is farther than the ETF ask from the FUTURE midpoint `(ask + bid) / 2.` |
| Market.Targets | autotrader1.py:116-128 | if the bid is farther, the bid target is the ETF bid and the ask target is the larger of bid + tick and the FUTURE ask; otherwise the ask target is the ETF ask and the bid target is the smaller of ask − tick and the FUTURE bid; the ask target is always at least bid target + tick; touches on the tick give targets on the tick |
| SinglePair.Initial | autotrader1.py:43-52 | the initial state is well-formed, flat, with empty slots, no tracked ids and no calls sent |
| SinglePair.Decide | autotrader1.py:88-132 | it raises exactly when the FUTURE ask, or (no sell firing) the FUTURE bid, was never seen; a zero touch gives targets 0/0; the sell fires on its signal at the ETF bid, sized min(bid volume, position + LIMIT), with targets (FUTURE ask, 0); the buy fires only when the sell does not, at the ETF ask, sized from the bid volume, with targets (0, FUTURE bid); otherwise the targets are `Targets` |
| SinglePair.DecisionSound | autotrader1.py:89-128 | a fill-and-kill order sits at an ETF touch and its complete fill keeps the position within ±LIMIT; targets are on the tick when the prices are |
| SinglePair.ApplyArbitrage | autotrader1.py:93-114 | one fill-and-kill insert under the next id, whose id is added to `asks` (sell) or `bids` (buy); no arbitrage changes nothing; well-formedness is kept |
| SinglePair.ArbitrageSound | autotrader1.py:93-114 | the calls the arbitrage adds are within the limit and on the tick |
| SinglePair.Withdraw | autotrader1.py:134-143 | an occupied slot is freed, with exactly one cancel of its id, exactly when its target is nonzero and differs from its price; an occupied slot left afterwards rests at its target or has target 0; nothing else changes |
| SinglePair.WithdrawSound | autotrader1.py:134-143 | the cancels sent name only the two slot ids |
| SinglePair.BidVolume | autotrader1.py:148 | below the limit, a new bid is 1 to LOT_SIZE lots and its fill keeps the position within LIMIT |
| SinglePair.AskVolume | autotrader1.py:157 | above −LIMIT, a new ask is 1 to LOT_SIZE lots and its fill keeps the position within −LIMIT |
| SinglePair.FillSlots | autotrader1.py:145-161 | an empty slot with a nonzero target and room under the limit gets one good-for-day order and records its id and price; the bid takes the next id and the ask the id after it; the next id advances by the number of orders placed; no other slot changes; with a target and room, the slot is occupied afterwards |
| SinglePair.FillSlotsSound | autotrader1.py:145-161 | the inserts sent are within the limit, 1 to LOT_SIZE lots, and on the tick |
| SinglePair.BookUpdate | autotrader1.py:74-163 | `ok` is false exactly where a FUTURE price is read before it was ever seen, and then the state is unchanged; otherwise the record is `Observe`; the position never changes; a FUTURE update changes only the record; the log only grows; well-formedness is kept |
| SinglePair.BookUpdateSends | autotrader1.py:88-163 | every order one update sends is sized so that its own fill keeps the position within ±LIMIT; every resting order is 1 to LOT_SIZE lots; only the two slot ids are cancelled; prices on the tick stay on the tick |
| SinglePair.Fill | autotrader1.py:166-182 | a fill of a tracked bid adds its volume to the position and sends one hedge sell of that volume at MIN_BID_NEAREST_TICK, under a new id; a tracked ask subtracts it and hedges a buy at MAX_ASK_NEAREST_TICK; an unknown id changes nothing |
| SinglePair.Status | autotrader1.py:184-205 | remaining volume 0 frees a slot holding the id and removes the id from both sets; any other status changes nothing |
| SinglePair.StatusIdempotent | autotrader1.py:197-205 | a repeated terminal status changes nothing more |
| SinglePair.Error | autotrader1.py:54-62 | an error for a nonzero tracked id is a terminal status of that id; id 0 or an untracked id changes nothing |
| SinglePair.TradeTicks | autotrader1.py:207-220 | only the best-price record changes |
| SinglePair.PositionCanExceedLimit | autotrader1.py:135-176 | from a well-formed state at position 85 (not shown reachable from `Initial`), one requote and two fills of 5 bring the position above LIMIT |
| SinglePair.RequoteKeepsOldBid | autotrader1.py:116-152 | in that state the requote sends a new bid while the old bid stays tracked |
| SinglePair.AutoTrader.constructor | autotrader1.py:43-52 | the fields start as `Initial()` |
| SinglePair.AutoTrader.NextOrderId | autotrader1.py:46 | the counter yields its value and moves up by one |
| SinglePair.AutoTrader.UpdateBestRecord | autotrader1.py:222-228 | the record fields become `Observe` of their old values |
| SinglePair.AutoTrader.Arbitrate | autotrader1.py:89-132 | raises exactly as `Decide` does, leaving the state unchanged; otherwise the state becomes `ApplyArbitrage` and the targets returned are those of `Decide` |
| SinglePair.AutoTrader.WithdrawReplaced | autotrader1.py:134-143 | the new state is `Withdraw` of the old |
| SinglePair.AutoTrader.FillEmptySlots | autotrader1.py:145-161 | the new state is `FillSlots` of the old |
| SinglePair.AutoTrader.FillBidSlot | autotrader1.py:145-152 | the bid slot, as `FillSlots` fills it |
| SinglePair.AutoTrader.FillAskSlot | autotrader1.py:154-161 | the ask slot, as `FillSlots` fills it |
| SinglePair.AutoTrader.OnOrderBookUpdate | autotrader1.py:74-163 | the new state and `ok` are `BookUpdate` of the old state; well-formedness is kept |
| SinglePair.AutoTrader.OnOrderFilled | autotrader1.py:166-182 | the new state is `Fill` of the old |
| SinglePair.AutoTrader.OnOrderStatus | autotrader1.py:184-205 | the new state is `Status` of the old |
| SinglePair.AutoTrader.OnError | autotrader1.py:54-62 | the new state is `Error` of the old |
| SinglePair.AutoTrader.OnTradeTicks | autotrader1.py:207-220 | the new state is `TradeTicks` of the old |
| Lists.RemoveFirst | autotrader_delayhedge.py:164 | `list.remove` takes exactly one occurrence of the price out of the multiset of targets, and a price not in the list leaves it unchanged |
| Lists.RemoveFirstSplits | autotrader_delayhedge.py:164 | the occurrence removed is the first one, and the elements before and after it keep their order |
| PriceLevels.Put | autotrader_delayhedge.py:184 | `d[p] = id` maps p to id, keeps the other keys, puts a new key last in the iteration order and keeps the order for an old key |
| PriceLevels.Pop | autotrader_delayhedge.py:243-244 | `d.pop(p, 0)` removes key p only, keeps the other entries and their order, and changes nothing for an absent key |
| PriceLevels.Reconcile | autotrader_delayhedge.py:162-174 | one cancel for each tracked price, in dict order, that is not a target, naming the order resting at that price; the targets left are the targets minus the tracked prices (as a multiset and, for distinct targets, in order) |
| DelayHedge.Initial | autotrader_delayhedge.py:45-57 | the initial state is well-formed, flat, with empty dicts, timer 0 and no calls sent |
| DelayHedge.Skew | autotrader_delayhedge.py:95 | the adjustment is −(position floor-div 40) ticks: 0 for 0 ≤ position < 40, at least a tick down when long by 40 or more, at least a tick up when short, and on the tick |
| DelayHedge.SkewAntitone | autotrader_delayhedge.py:95 | the longer the position, the lower the adjustment |
| DelayHedge.BidLadder | autotrader_delayhedge.py:135-146 | NLADDER distinct bids from the anchor plus the adjustment, each a tick below the previous, on the tick when the anchor is |
| DelayHedge.AskLadder | autotrader_delayhedge.py:135-146 | NLADDER distinct asks from the anchor plus the adjustment, each a tick above the previous, on the tick when the anchor is |
| DelayHedge.LaddersDoNotCross | autotrader_delayhedge.py:135-146 | from anchors at least a tick apart, every ask is at least a tick above every bid |
| DelayHedge.Decide | autotrader_delayhedge.py:95-156 | it raises exactly as in the single-pair engine; a zero touch gives empty ladders; the sell (min with LOT_SIZE) and the buy (sized from the bid volume) fire as in the single-pair engine, with empty ladders and a volume of at most LOT_SIZE; otherwise both ladders hang off the `Targets` anchors, shifted by `Skew`; the ladders are distinct |
| DelayHedge.PlanSound | autotrader_delayhedge.py:95-156 | the ladders never cross, and they and an arbitrage price are on the tick when the prices are |
| DelayHedge.ApplyArbitrage | autotrader_delayhedge.py:98-122 | one fill-and-kill insert under the next id, whose id is recorded at its price in `asks` or `bids` but in neither price dict |
| DelayHedge.Stale | autotrader_delayhedge.py:162-174 | the ids cancelled are ids of tracked levels whose price is not a target, at most one per tracked level |
| DelayHedge.StaleExactly | autotrader_delayhedge.py:162-174 | conversely, the order of every tracked level whose price is not a target is cancelled; the cancels are one per such price, in the dict's order |
| DelayHedge.WithdrawEverything | autotrader_delayhedge.py:154-174 | with no targets (no touch, or an arbitrage) every tracked level of both sides is cancelled, the asks first and each side in dict order, and no new level is left to place |
| DelayHedge.Withdraw | autotrader_delayhedge.py:162-174 | the cancels of the stale ask levels, then those of the stale bid levels, are appended and nothing else changes: no dict entry is deleted |
| DelayHedge.BidSize | autotrader_delayhedge.py:178 | the bid size is at most LOT_SIZE / NLADDER; it is positive exactly when the room under the limit, less a third of a lot per open bid, is at least NLADDER; then NLADDER orders of it plus the open bids fit the limit |
| DelayHedge.AskSize | autotrader_delayhedge.py:179 | the same for asks on the short side |
| DelayHedge.Place | autotrader_delayhedge.py:180-194 | one good-for-day insert per price, in order, under consecutive new ids, at the given side and size; the other side is untouched |
| DelayHedge.PlaceWellFormed | autotrader_delayhedge.py:180-194 | placement keeps well-formedness |
| DelayHedge.PlaceKeeps | autotrader_delayhedge.py:180-194 | distinct untracked prices are appended to the dict in order, and no level that was there is overwritten |
| DelayHedge.PlaceKeepsOrders | autotrader_delayhedge.py:185 | no order already tracked in the id dict is overwritten |
| DelayHedge.PlaceRecordsOrder | autotrader_delayhedge.py:185 | the k-th placed order is tracked in the id dict under the k-th new id at its price |
| DelayHedge.PlaceRecordsLevel | autotrader_delayhedge.py:184 | the k-th new price's level holds the k-th new id |
| DelayHedge.BookUpdate | autotrader_delayhedge.py:79-197 | `ok` is false exactly where a FUTURE price is read before it was ever seen, and then the state is unchanged; otherwise the record is `Observe` and the timer goes up by one; neither position changes; a FUTURE update changes only the record and the timer; the log only grows |
| DelayHedge.BookUpdateWellFormed | autotrader_delayhedge.py:79-197 | a book update keeps well-formedness |
| DelayHedge.Fill | autotrader_delayhedge.py:200-220 | a fill of an id in `bids` adds its volume to the position, one in `asks` subtracts it, an unknown id changes nothing, and no order is sent |
| DelayHedge.Status | autotrader_delayhedge.py:222-244 | remaining volume 0 removes the id from both id dicts and the key max(popped prices) from both price dicts, keeping the other levels, their ids and their dict order; the order's own price, when it is −1 or more, leaves both dicts; an untracked id changes nothing; any other status changes nothing |
| DelayHedge.StatusIdempotent | autotrader_delayhedge.py:235-244 | a repeated terminal status changes nothing more |
| DelayHedge.Error | autotrader_delayhedge.py:59-67 | an error for a nonzero tracked id is a terminal status of that id; id 0 or an untracked id changes nothing |
| DelayHedge.TradeTicks | autotrader_delayhedge.py:247-282 | the exposure is taken before the record update; the timer ends at 0; at most one hedge goes out, under the next id, for the whole exposure at the extreme tick, bringing position + positionFuture to 0; a flat engine never hedges; the buy fires exactly on ETF bid − FUTURE ask > tick with a short exposure, the sell exactly on FUTURE bid − ETF ask > tick with a long one; `ok` is false exactly when a price read was never seen |
| DelayHedge.TradeTicksWellFormed | autotrader_delayhedge.py:260-282 | a trade-ticks message keeps well-formedness: any hedge goes out under a fresh id |
| DelayHedge.AutoTrader.constructor | autotrader_delayhedge.py:45-57 | the fields start as `Initial()` |
| DelayHedge.AutoTrader.NextOrderId | autotrader_delayhedge.py:48 | the counter yields its value and moves up by one |
| DelayHedge.AutoTrader.UpdateBestRecord | autotrader_delayhedge.py:284-290 | the record fields become `Observe` of their old values |
| DelayHedge.AutoTrader.Arbitrate | autotrader_delayhedge.py:95-156 | raises exactly as `Decide` does, leaving the state unchanged; otherwise the state becomes `ApplyArbitrage` and the ladders returned are those of `Decide` |
| DelayHedge.AutoTrader.WithdrawStale | autotrader_delayhedge.py:162-174 | the two reconciliation loops: the new state is `Withdraw` of the old, and the targets left are the ones not yet tracked |
| DelayHedge.AutoTrader.PlaceLevels | autotrader_delayhedge.py:180-194 | the insertion loop: the new state is `Place` of the old |
| DelayHedge.AutoTrader.PlaceOrder | autotrader_delayhedge.py:182-185 | one loop iteration: an insert under the next id, recorded in both dicts of its side |
| DelayHedge.AutoTrader.AddNewLevels | autotrader_delayhedge.py:178-194 | the bid loop, then the ask loop, each only with a positive size and targets left |
| DelayHedge.AutoTrader.QuoteEtf | autotrader_delayhedge.py:96-194 | raises exactly as `Decide` does, leaving the state unchanged; otherwise the arbitrage, the cancels and the new levels of the plan |
| DelayHedge.AutoTrader.OnOrderBookUpdate | autotrader_delayhedge.py:79-197 | the new state and `ok` are `BookUpdate` of the old state; well-formedness is kept |
| DelayHedge.AutoTrader.RecordAndCount | autotrader_delayhedge.py:196-197 | the record update, then the timer goes up by one |
| DelayHedge.AutoTrader.OnOrderFilled | autotrader_delayhedge.py:200-220 | the new state is `Fill` of the old |
| DelayHedge.AutoTrader.OnOrderStatus | autotrader_delayhedge.py:222-244 | the new state is `Status` of the old |
| DelayHedge.AutoTrader.OnError | autotrader_delayhedge.py:59-67 | the new state is `Error` of the old |
| DelayHedge.AutoTrader.SendHedgeOrder | autotrader_delayhedge.py:274-276 | one hedge under the next id; the FUTURE position moves by its volume |
| DelayHedge.AutoTrader.OnTradeTicks | autotrader_delayhedge.py:247-282 | the new state and `ok` are `TradeTicks` of the old state; well-formedness is kept |
| DelayHedge.AutoTrader.RecordAndHedge | autotrader_delayhedge.py:260-282 | the record update, timer reset and hedge tests, as `TradeTicks` states them |
| DelayHedge.AutoTrader.HedgeExposure | autotrader_delayhedge.py:264-282 | the two hedge tests on the updated record |
| DelayHedgeSends.ArbitrageSends | autotrader_delayhedge.py:98-122 | the fill-and-kill order sits at a touch, is at most a lot, and keeps the position within ±LIMIT if it fills completely |
| DelayHedgeSends.CancelsSend | autotrader_delayhedge.py:162-174 | every cancel names the order of a level tracked at the start of the update |
| DelayHedgeSends.WithdrawSends | autotrader_delayhedge.py:162-174 | the cancels are sound and add no resting volume |
| DelayHedgeSends.PlaceSends | autotrader_delayhedge.py:180-194 | placement sends one resting order per price, of the given side and size, at a price of the list; their total volume is the count times the size |
| DelayHedgeSends.PlaceSideSends | autotrader_delayhedge.py:180-194 | the orders of one side are 1 to LOT_SIZE / NLADDER lots and on the tick, and the ladder together with the open orders of that side fits the limit |
| DelayHedgeSends.AddLevelsSends | autotrader_delayhedge.py:178-194 | the new levels of both sides are sound, and each side's resting volume plus a third of a lot per open order fits the room under the limit |
| DelayHedgeSends.BookUpdateSends | autotrader_delayhedge.py:96-197 | every order one update sends keeps the position within ±LIMIT if it fills completely; a fill-and-kill order is at most LOT_SIZE and a resting one 1 to LOT_SIZE / NLADDER lots; no hedge is sent; only the orders of tracked levels are cancelled; prices on the tick stay on the tick; each side's new resting volume, with a third of a lot per open order, fits the room under the limit |
| DelayHedgeSends.PlaceNewLevels | autotrader_delayhedge.py:180-194 | every level that was there keeps its id, every target is tracked afterwards, and each new level holds a fresh id that the id dict maps back to its price |
| DelayHedgeSends.AddLevelsGrow | autotrader_delayhedge.py:178-194 | inserting a plan's new levels overwrites no level and, with room, tracks every target |
| DelayHedgeSends.BookUpdateLevels | autotrader_delayhedge.py:96-197 | a book update removes or overwrites no level and no tracked order; each new level holds a fresh id recorded at its price; with no arbitrage and room on a side, every target of that side is tracked; otherwise that side's levels are unchanged |
| DelayHedgeSends.ArbitrageGrows | autotrader_delayhedge.py:98-122 | an arbitrage cycle leaves the price dicts unchanged |
| DelayHedgeSends.CrossSidePopOrphansBid | autotrader_delayhedge.py:235-244 | there is a well-formed state in which the end of an ask leaves a bid at the same price in no level, and the next ladder places a second bid there |
| DelayHedgeSends.RequoteAfterPop | autotrader_delayhedge.py:162-194 | once the bid at 9900 is in no level, the ladder quoted at 9900 keeps it untracked and places a new bid at 9900 |
| DelayHedgeSends.RequotePlan | autotrader_delayhedge.py:124-146 | with the ETF and FUTURE at 9900/10000 and the position flat, both ladders hang off the ETF touch |

## Left out

- Logging (`self.logger`), docstrings and the commented-out branches: they change no state.
- `BaseAutoTrader`, the asyncio loop, `team_name` and `secret`: session plumbing from a library
  this model does not include.
- The bodies of `send_insert_order`, `send_cancel_order` and `send_hedge_order`: gateway calls
  into that library. They are modelled only as entries of the ghost log `sent`.
- `on_hedge_filled_message`: it only logs.
- `SPREAD`: this constant is used only in commented-out code.
- The values of MINIMUM_BID and MAXIMUM_ASK come from that library. They are the `Venue`
  parameter of the engines.
- The error text of `on_error_message`: it is only logged.
- The float midpoint `/ 2.`: it is replaced by the exact doubled integer comparison
  `BidFarther`. `MidpointComparison` proves that the two decide the same on real numbers.
  Floating-point rounding is not modelled.
- `numpy.arange`: replaced by explicit three-element ladders `BidLadder`/`AskLadder`.
- The exchange itself: fills, cancels and status messages are inputs, and the engine's orders
  are not matched.
- SinglePair.AutoTrader.OnOrderBookUpdate, DelayHedge.AutoTrader.OnOrderBookUpdate,
  SinglePair.AutoTrader.OnTradeTicks, DelayHedge.AutoTrader.OnTradeTicks: these require the
  price and volume lists to be non-empty.
  - Only the first level of each list is read.
  - The source raises `IndexError` on an empty list, which the exchange never sends.
- DelayHedge.Status: the "untracked id changes nothing" clause and `StatusIdempotent` hold only
  when no level rests at price −1, and the "own price leaves both dicts" clause only for an own
  price of −1 or more.
  - `pop(id, -1)` supplies −1 for a missing side.
  - The `max` of the two pops then removes a level at price −1 if there is one.
  - For an own price below −1, the other side's default −1 wins the `max`, so the level at
    the own price stays.
  - The function itself models that case as the source does.
- DelayHedge.AutoTrader.WithdrawStale: the cancels of each loop are sent after that loop has
  run rather than at each step.
  - The loop does not read the log, so the log is the same.
- Python's non-short-circuit `&` in the arbitrage tests, modelled as `&&`: both operands are pure
  and both dict reads are checked first, so the outcome is the same.
