# Binance futures order builders, in Dafny

This project models the order-placement core of a small Binance USDⓈ-M futures bot and proves
properties of it. It covers:

- the shared `BasicBot`: its input validators, the lookup of a symbol's trading rules and the
  precision formatting of quantities and prices;
- the three single-order builders: market, limit and stop-limit;
- the three composite builders: the pseudo-OCO pair with its best-effort clean-up, TWAP with
  equal clips and pauses, and the grid ladder placed on both sides of the ticker;
- the server-time check.

Each builder has two parts:

- **A trace function.** `MarketTrace`, `LimitTrace`, `StopLimitTrace`, `OcoTrace`, `TwapTrace`
  and `GridTrace` are pure. Given the builder's arguments and the replies the exchange gives,
  each says which remote calls the builder makes, in which order, with which arguments, and
  what it returns.
- **An imperative method.** `PlaceMarketOrder`, `PlaceGridOrders` and the others work on a
  `Bot`: a class holding the client and the exchange's rounding. The method's `ensures` ties
  what it appends to the client's log, and the value it returns, to the trace function.

The properties the code promises are lemmas about the trace functions:

- every failed input check returns `None` before any remote call;
- which lookups precede an order;
- the exact shape of every order sent;
- the response is returned unchanged;
- the partial results returned from the exception handlers;
- the OCO cancel, the TWAP clip and pause arithmetic, and the grid's side partition.

The exchange is an oracle. A `Client` holds a fixed script of replies. The k-th remote call
receives `script[k]`, and every call past the end raises. A reply whose kind does not fit the
call stands for the exception the builder's key access would raise. An example is an order
reply to a ticker request, where the builder reads `ticker['price']`. Every call is appended to
the client's log together with its reply. A `time.sleep` is logged as a `Pause`, so its place
among the calls can be stated too.

Behaviour worth knowing, as the code has it:

- The formatters fetch the exchange information again on every call, so a limit order makes two
  lookups and a stop-limit or OCO order three. All of them are made before any of their results
  is tested.
- A TWAP iteration whose price cannot be formatted is skipped with `continue`, without a pause.
  A LIMIT TWAP whose every iteration is skipped therefore returns the empty list rather than
  `None`.
- A grid level equal to the ticker price is placed on neither side.
- When the buy loop raises, the sell loop is never reached.
- `time_in_force` is compared case-sensitively, while the side is upper-cased first.

## Model

| member | source | states |
|---|---|---|
| Text.Upper | src/market_orders.py:37 | `str.upper()` on ASCII: same length, every lower-case letter replaced by its capital (32 code points lower), every other character kept, no lower-case letter left |
| Text.UpperIdempotent | src/market_orders.py:37 | upper-casing an upper-cased string changes nothing |
| Exchange.ParseSide | src/market_orders.py:37 | a side is accepted iff its upper-cased form is BUY or SELL, and the parsed side's name is that form |
| Exchange.ParseSideName | src/market_orders.py:37 | the name of a side parses back to that side |
| Exchange.ParseSideUpper | src/limit_orders.py:41 | for every string, the side test gives the same answer for it and for its upper-cased form |
| Exchange.ParseSideIgnoresCase | src/limit_orders.py:41 | "buy" and "Sell" are accepted, "HOLD" is refused |
| Exchange.Client.FuturesExchangeInfo | src/basic_bot.py:120 | one call, logged with its reply; the next call reads the next reply |
| Exchange.Client.FuturesSymbolTicker | src/advanced/grid.py:86-87 | one logged call; a price iff the reply is a ticker, and then its price |
| Exchange.Client.FuturesCreateOrder | src/market_orders.py:62-68 | one logged call with the request; the response iff the reply is an order reply |
| Exchange.Client.FuturesCancelOrder | src/advanced/oco.py:131 | one logged call; success iff the reply is a cancel reply |
| Exchange.Client.Sleep | src/advanced/twap.py:123 | a pause is logged and no remote call is made |
| BasicBot.ValidSymbolIsUpper | src/basic_bot.py:102-107 | a valid symbol is its own upper-cased form |
| BasicBot.ValidSymbolMeans | src/basic_bot.py:102-107 | a symbol is valid iff it has no lower-case letter and contains "USDT" (non-empty and cased follow) |
| BasicBot.ValidSymbolExamples | src/basic_bot.py:102-107 | "BTCUSDT" is valid; "btcusdt", "BTCBUSD" and "" are not |
| BasicBot.FirstEntry | src/basic_bot.py:121-124 | a found entry is in the list and carries the requested symbol |
| BasicBot.FirstEntryMeaning | src/basic_bot.py:121-124 | found: the first entry with the symbol, all before it have other symbols; not listed iff every entry has another symbol; malformed: an entry without a symbol key comes before any match |
| BasicBot.FirstEntryFoundAt | src/basic_bot.py:121-123 | the first entry with the symbol, preceded only by entries with other symbols, is the one found |
| BasicBot.FindSymbol | src/basic_bot.py:121-124 | the loop returns the first matching entry, or reports no match iff no entry matches |
| BasicBot.SymbolInfoOf | src/basic_bot.py:117-127 | information iff the call returned and the list has the symbol, and then the first entry with that symbol, as the loop returns it |
| BasicBot.Formatted | src/basic_bot.py:129-145 | `None` iff there is no symbol information; otherwise the value rounded to the entry's precision |
| BasicBot.FormattedDefaultPrecision | src/basic_bot.py:135-144 | a missing precision key rounds to 8 places, a present one to its value |
| BasicBot.Bot.GetSymbolInfo | src/basic_bot.py:117-127 | one exchange-information call, and the entry for the symbol from its reply |
| BasicBot.Bot.FormatQuantity | src/basic_bot.py:129-136 | one lookup, logged; the quantity rounded to the quantity precision, or `None` |
| BasicBot.Bot.FormatPrice | src/basic_bot.py:138-145 | one lookup, logged; the price rounded to the price precision, or `None` |
| MarketOrders.MarketCalls | src/market_orders.py:32-68 | a failed check makes no call; otherwise the lookup first; one order iff the checks pass and the symbol is listed |
| MarketOrders.MarketOrder | src/market_orders.py:60-83 | the order is MARKET for the symbol, upper-cased side, formatted quantity and reduce-only flag; the response is returned, an exception gives `None` |
| MarketOrders.PlaceMarketOrder | src/market_orders.py:13-83 | the calls logged and the value returned are those of the trace |
| MarketOrders.MarketBuy | src/market_orders.py:85-87 | `place_market_order` with side BUY |
| MarketOrders.MarketSell | src/market_orders.py:89-91 | `place_market_order` with side SELL |
| MarketOrders.MarketFixedSides | src/market_orders.py:85-91 | `market_buy` only sends buy orders and `market_sell` only sell orders |
| LimitOrders.ParseTimeInForce | src/limit_orders.py:53-55 | a time in force is accepted iff it is exactly GTC, IOC or FOK, each read as itself, so only upper-case spellings pass |
| LimitOrders.TimeInForceIsCaseSensitive | src/limit_orders.py:41-55 | "gtc" is refused, while "buy" is an accepted side |
| LimitOrders.LimitCalls | src/limit_orders.py:36-63 | a failed check makes no call; otherwise both lookups first; one order iff both lookups find the symbol |
| LimitOrders.LimitOrder | src/limit_orders.py:76-101 | a LIMIT order at the formatted price and quantity with the given time in force; the response is returned |
| LimitOrders.PlaceLimitOrder | src/limit_orders.py:13-101 | the calls logged and the value returned are those of the trace |
| LimitOrders.PlaceCheckedLimit | src/limit_orders.py:57-101 | the same, once the checks have passed |
| LimitOrders.LimitBuy | src/limit_orders.py:103-112 | `place_limit_order` with side BUY |
| LimitOrders.LimitSell | src/limit_orders.py:114-123 | `place_limit_order` with side SELL |
| StopLimit.StopLimitCalls | src/advanced/stop_limit.py:35-63 | a failed check makes no call; otherwise three lookups first; one order iff all three find the symbol |
| StopLimit.StopLimitOrder | src/advanced/stop_limit.py:76-102 | a STOP order, good till cancelled, at the formatted stop and limit prices; the response is returned |
| StopLimit.PlaceStopLimitOrder | src/advanced/stop_limit.py:12-102 | the calls logged and the value returned are those of the trace |
| StopLimit.StopLimitBuy | src/advanced/stop_limit.py:104-113 | `place_stop_limit_order` with side BUY |
| StopLimit.StopLimitSell | src/advanced/stop_limit.py:115-124 | `place_stop_limit_order` with side SELL |
| Oco.Opposite | src/advanced/oco.py:86 | the side of both legs differs from the requested side |
| Oco.OppositeInvolutive | src/advanced/oco.py:98 | taking the opposite twice gives the requested side back |
| Oco.CancelCalls | src/advanced/oco.py:128-131 | at most one cancel per recorded order, each for the symbol |
| Oco.CancelCallsMeaning | src/advanced/oco.py:128-131 | an order id is cancelled iff some recorded order carries it |
| Oco.CancelEventsCalls | src/advanced/oco.py:128-134 | the clean-up makes exactly the cancel calls above, whatever they return |
| Oco.CancelEventsOnlyCancel | src/advanced/oco.py:128-134 | the clean-up only cancels: no order, no pause |
| Oco.CancelsIgnoreReplies | src/advanced/oco.py:129-134 | a cancel that raises does not stop the clean-up: the calls do not depend on the replies |
| Oco.CancelOcoOrders | src/advanced/oco.py:126-134 | the calls logged are the clean-up's events |
| Oco.TakeProfitPhaseFacts | src/advanced/oco.py:96-124 | the take-profit request is sent; placed means nothing cancelled; raised means the stop-loss is cancelled |
| Oco.OcoPlacementRequests | src/advanced/oco.py:84-103 | the stop-loss is sent, then the take-profit iff the stop-loss was placed |
| Oco.OcoPlacementOutcome | src/advanced/oco.py:81-124 | both legs returned iff both placed, with no cancel; otherwise at most the stop-loss placed, and then cancelled |
| Oco.OcoLookupsFacts | src/advanced/oco.py:55-57 | the three lookups are three exchange-information calls and nothing else |
| Oco.OcoCalls | src/advanced/oco.py:37-61 | a failed check makes no call; otherwise three lookups first; success iff the lookups and both placements succeed |
| Oco.OcoLegs | src/advanced/oco.py:84-103 | at most two orders, both on the opposite side with the formatted quantity; STOP_MARKET at the stop price, then TAKE_PROFIT_MARKET at the limit price |
| Oco.OcoCancels | src/advanced/oco.py:110-124 | over the whole builder: a success cancels nothing; a failure leaves at most the stop-loss, cancelled |
| Oco.PlaceOcoOrder | src/advanced/oco.py:12-124 | the calls logged and the value returned are those of the trace |
| Oco.PlaceOcoLegs | src/advanced/oco.py:74-124 | the `try` block's calls and result are those of the placement trace |
| Oco.PlaceTakeProfit | src/advanced/oco.py:96-124 | the take-profit call and, when it raises, the stop-loss clean-up |
| Twap.ParseTwapTypeExact | src/advanced/twap.py:53 | the order type is accepted iff it is exactly MARKET or LIMIT |
| Twap.ClipQuantity | src/advanced/twap.py:58 | the clips add up to the total, and each is positive and at most the total |
| Twap.IntervalSeconds | src/advanced/twap.py:59 | the pauses add up to the duration in seconds, and each is positive |
| Twap.LimitOffsetPrice | src/advanced/twap.py:99-102 | the LIMIT price is a thousandth below the ticker for a buy and above it for a sell |
| Twap.PlaceClipFacts | src/advanced/twap.py:109-123 | one order request and one call; fails iff the call raised; one pause of the interval after a placed clip, except the last |
| Twap.PlaceClipPlaced | src/advanced/twap.py:118-123 | a placed clip returns its response and pauses unless it is the last |
| Twap.LimitPrefixFacts | src/advanced/twap.py:95-104 | the ticker and price lookups that precede a LIMIT clip are two calls and no order |
| Twap.IterationNext | src/advanced/twap.py:82-123 | each iteration reads the replies after those of the earlier iterations |
| Twap.IterationOrders | src/advanced/twap.py:82-123 | an iteration places at most one order, none when it raised |
| Twap.IterationRequests | src/advanced/twap.py:85-116 | an iteration sends at most one order, a clip of the plan; a LIMIT clip is priced at the offset of the ticker price the iteration read first, formatted with the precision lookup read right after it |
| Twap.IterationPauses | src/advanced/twap.py:121-123 | an iteration pauses once, for the interval, iff it placed an order and is not the last |
| Twap.TwapStepsFacts | src/advanced/twap.py:82-123 | the iterations read in order, place at most one order each, and send only clips |
| Twap.TwapStepsPriced | src/advanced/twap.py:93-116 | every LIMIT clip of the iterations is priced from a ticker reply and the lookup after it |
| Twap.TwapStepsPause | src/advanced/twap.py:121-123 | every iteration's pauses last the interval, one after each placed clip but the last |
| Twap.TwapMarketSteps | src/advanced/twap.py:85-92 | a MARKET iteration whose order is accepted places it with one call |
| Twap.TwapCalls | src/advanced/twap.py:36-65 | a failed check makes no call; otherwise the lookup first; no symbol information ends with `None` |
| Twap.TwapResult | src/advanced/twap.py:79-141 | the result is the placed orders; `None` only when none was placed; each order is a formatted clip of the requested type; every pause is the interval |
| Twap.TwapLimitPrices | src/advanced/twap.py:93-116 | every order of a LIMIT TWAP is priced at a quoted ticker price times 0.999 for a buy or 1.001 for a sell, formatted with the precision lookup made right after that ticker call |
| Twap.TwapMarketRun | src/advanced/twap.py:82-131 | when every MARKET clip is accepted: n orders, n calls, n - 1 pauses |
| Twap.TwapMarketWithoutFailure | src/advanced/twap.py:57-131 | a MARKET TWAP whose orders are all accepted returns n orders after n + 1 calls and n - 1 pauses |
| Twap.PlaceClipOrder | src/advanced/twap.py:109-123 | the clip's order call and, after a placed clip that is not the last, the pause |
| Twap.TwapStep | src/advanced/twap.py:82-123 | one loop iteration: its calls, its order and whether it raised |
| Twap.TwapRun | src/advanced/twap.py:81-123 | the loop's calls, orders and failure are those of the iterations run in order |
| Twap.PlaceTwapOrder | src/advanced/twap.py:13-141 | the calls logged and the value returned are those of the trace |
| Twap.PlaceCheckedTwap | src/advanced/twap.py:57-141 | the same, once the checks have passed |
| Twap.PlaceClips | src/advanced/twap.py:79-141 | the loop inside the `try`, and the orders or `None` from the handler |
| Placement.RunReadsInOrder | src/advanced/twap.py:82-123 | a loop reads its replies in order when each iteration does |
| Placement.RunOrders | src/advanced/grid.py:90-113 | a loop's orders are those its log shows placed, at most one per iteration |
| Placement.RunRequests | src/advanced/grid.py:90-111 | every order a loop sends has the shape each iteration guarantees |
| Placement.FailureIsFinal | src/advanced/twap.py:81-141 | after an iteration raised, further iterations change nothing: the loop was left |
| Placement.RunAllPlaced | src/advanced/twap.py:82-118 | iterations that each place one order with one call give i orders, i calls and no failure |
| Placement.RunPauseLengths | src/advanced/twap.py:121-123 | every pause of the loop lasts what every iteration's pauses last |
| Placement.RunPauseCount | src/advanced/twap.py:121-123 | one pause after every placed order except one by the last iteration |
| Placement.RunRequestCount | src/advanced/grid.py:90-94 | a loop sends at most as many orders as it has levels that want one |
| Placement.RunIndexed | src/advanced/grid.py:90-141 | a loop's orders go out in the order of the iterations that sent them, each satisfying what its iteration guarantees |
| Placement.RunSentPlaced | src/advanced/grid.py:84-141 | every order sent is placed, except the one whose call raised |
| Grid.ParseGridType | src/advanced/grid.py:56 | the order type is accepted iff it is exactly LIMIT or MARKET |
| Grid.Ladder | src/advanced/grid.py:61-62 | levels + 1 prices from the lower to the upper bound, with equal steps |
| Grid.LadderIncreasing | src/advanced/grid.py:61-62 | the ladder is strictly increasing and inside the bounds |
| Grid.LevelCalls | src/advanced/grid.py:90-111 | a level sends at most one order, only on its side of the ticker, of the plan's shape, a LIMIT one at the level's formatted price |
| Grid.LevelOrders | src/advanced/grid.py:90-113 | a level places at most one order, none when it raised |
| Grid.GridStepsFacts | src/advanced/grid.py:90-141 | both loops' levels read in order, place at most one order, and send only orders of the plan's shape |
| Grid.GridStepsIndexed | src/advanced/grid.py:90-111 | each level sends at most one order: on the level's side of the ticker, of the plan's shape, a LIMIT one priced at the level's formatted price |
| Grid.CountSidesIncreasing | src/advanced/grid.py:89-118 | on increasing prices every level is a buy level, a sell level, or equal to the ticker |
| Grid.GridLevelsPartition | src/advanced/grid.py:61-118 | the ladder's buy and sell levels number levels + 1, less one when the ticker is a ladder price |
| Grid.FromTickerFacts | src/advanced/grid.py:84-87 | the ticker call comes first; no price ends with `None` and no order |
| Grid.FormattedFacts | src/advanced/grid.py:64-68 | the quantity lookup comes first; no symbol information ends with `None` and no order |
| Grid.GridCalls | src/advanced/grid.py:35-87 | a failed check makes no call; otherwise the lookup, then the ticker; no ticker ends with `None` |
| Grid.LoopsFacts | src/advanced/grid.py:89-141 | each loop's orders, sent and placed counts, and sides; the sell loop only after a buy loop that did not raise |
| Grid.LoopsOutcome | src/advanced/grid.py:143-172 | the returned buys and sells are the placed orders; the totals are their lengths; `None` only when nothing was placed |
| Grid.LoopsRequests | src/advanced/grid.py:89-141 | all buys are sent before any sell, and each side sends at most one order per level on its side |
| Grid.LadderOrderOf | src/advanced/grid.py:61-62 | on an increasing ladder, orders sent level by level go out at ascending grid prices |
| Grid.LoopsOrder | src/advanced/grid.py:89-141 | the loops send the buys and then the sells, each side level by level up the ladder, at levels on its side of the ticker |
| Grid.GridResultFacts | src/advanced/grid.py:143-172 | the same as `LoopsOutcome`, over the whole builder |
| Grid.TraceRequests | src/advanced/grid.py:84-141 | the orders of the builder are those of the loops, and none when a check, the lookup or the ticker fails |
| Grid.GridRequests | src/advanced/grid.py:96-138 | every order is for the symbol and formatted quantity, LIMIT good till cancelled or MARKET; buys before sells |
| Grid.GridRequestOrder | src/advanced/grid.py:61-141 | the builder's orders are the buys, at grid prices below the ticker in ascending order, then the sells, at grid prices above it in ascending order; a LIMIT order is priced at its grid price, formatted |
| Grid.GridRequestCounts | src/advanced/grid.py:89-141 | at most one order per ladder level under the ticker and one per level over it; none at the ticker |
| Grid.GridLevelStep | src/advanced/grid.py:91-113 | one level of a loop: its calls, its order and whether it raised |
| Grid.GridLoop | src/advanced/grid.py:90-113 | one side's loop: the calls, orders and failure of its levels run in order |
| Grid.PlaceGridLoops | src/advanced/grid.py:89-172 | both loops and the dictionary returned or `None` |
| Grid.PlaceGridOrders | src/advanced/grid.py:12-172 | the calls logged and the value returned are those of the trace |
| Grid.PlaceFormattedGrid | src/advanced/grid.py:64-172 | the same from the quantity formatting on |
| Grid.PlaceGridFromTicker | src/advanced/grid.py:84-172 | the same from the ticker call on |
| TimeSync.CheckTimeSync | src/time_sync.py:19-47 | an error report iff the request failed; otherwise both times and their difference; synced iff the difference is within one second (strictly); status OK iff synced, OUT_OF_SYNC iff measured and not synced |

## Left out

- `BasicBot.__init__`: not modelled. This covers the client construction, the account check at
  start-up and `_sync_server_time`. A `Bot` is built from an existing client. `_sync_server_time`
  only logs, and its threshold (`> 1000`) does not match `check_time_sync`'s (`< 1000`) at exactly
  one second.
- `print_time_sync_info`, `cli.py` and `trading_bot.py`: console output and argument parsing.
- Logging: every `logger` call, `log_order_request`, `log_order_response` and `log_error`. None of
  them affects what is returned.
- The remote API and the HTTP request of the time check are not modelled. The exchange's replies
  are a script, and the server-time reply is a function of the URL. The read of the local clock
  is a parameter in milliseconds, so the truncation in `int(time.time() * 1000)` is not modelled.
- Exception classes: the three handlers of each builder behave alike and are modelled as one.
- Floating point is not modelled: prices, quantities, clips and pauses are exact reals. For
  example, the top grid price is exactly the upper bound, which Python's float arithmetic does
  not guarantee.
- BasicBot.Formatted: Python's `round` is an abstract `(real, int) -> real` function, so no
  property of decimal rounding is used or proved.
- Sleep: the pause is logged, not waited for; timing is not modelled.
- Text.Upper: only ASCII letters change case, so Python's Unicode case mappings are not modelled.
- BasicBot.ValidSymbolMeans: `isupper()` is modelled on ASCII letters only. Python refuses
  "BTCUSDTé", because `é` is a lower-case letter, but the model accepts it. A titlecase letter
  such as `ǅ` is treated the same way.
- Default arguments: `check_time_sync` defaults to `testnet=True`, and the builders default to
  `reduce_only=False`. `place_limit_order` defaults to `time_in_force='GTC'`, `place_twap_order`
  to `order_type='MARKET'` and `place_grid_orders` to `order_type='LIMIT'`. The model has no
  default arguments, so each of these is an explicit parameter.
- OrderResponse: only `orderId` and `status` are kept. A response without `orderId` stands for
  both an empty dictionary and one without that key; neither is cancelled.
- Twap.TwapMarketWithoutFailure: MARKET only. The LIMIT path adds two calls per iteration and can
  skip iterations, so its counts depend on the lookups.
- Grid.GridRequestCounts: the per-side counts are upper bounds. A level whose price cannot be
  formatted is skipped, so the exact count depends on the lookups.
- The long builders are split into several methods, each proved against the matching part of its
  trace function. `place_twap_order` becomes `PlaceTwapOrder`, `PlaceCheckedTwap`, `PlaceClips`,
  `TwapRun`, `TwapStep` and `PlaceClipOrder`. `place_grid_orders` becomes `PlaceGridOrders`,
  `PlaceFormattedGrid`, `PlaceGridFromTicker`, `PlaceGridLoops`, `GridLoop` and `GridLevelStep`.
  `place_oco_order` becomes `PlaceOcoOrder`, `PlaceOcoLegs` and `PlaceTakeProfit`.
  `place_limit_order` becomes `PlaceLimitOrder` and `PlaceCheckedLimit`.
