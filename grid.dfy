/** Grid orders: evenly spaced price levels between two bounds; a buy at every level below the
    current ticker price, then a sell at every level above it. */
module Grid {
  import opened Text
  import opened Exchange
  import opened BasicBot
  import opened Placement

  datatype GridKind = GridLimit | GridMarket

  /** `order_type in ['LIMIT', 'MARKET']`: case-sensitive. */
  function ParseGridType(s: string): (r: Option<GridKind>)
    ensures r.Some? <==> s == "LIMIT" || s == "MARKET"
    ensures r == Some(GridLimit) <==> s == "LIMIT"
  {
    if s == "LIMIT" then Some(GridLimit) else if s == "MARKET" then Some(GridMarket) else None
  }

  /** The checks `place_grid_orders` makes before any remote call. */
  predicate GridChecks(symbol: string, lower: real, upper: real, levels: int, quantity: real, orderType: string)
  {
    && ValidSymbol(symbol) && ValidPrice(lower) && ValidPrice(upper) && lower < upper
    && levels > 0 && ValidQuantity(quantity) && ParseGridType(orderType).Some?
  }

  /** The grid prices: `levels + 1` points from `lower` to `upper`, one price step apart. */
  function Ladder(lower: real, upper: real, levels: nat): (prices: seq<real>)
    requires levels > 0
    ensures |prices| == levels + 1
    ensures prices[0] == lower && prices[levels] == upper
    ensures forall i | 0 <= i < levels :: prices[i + 1] - prices[i] == (upper - lower) / levels as real
  {
    var n := levels as real;
    var step := (upper - lower) / n;
    assert n * step == upper - lower;
    seq(levels + 1, i => lower + i as real * step)
  }

  /** A grid over a widening range is strictly increasing and stays within the range. */
  lemma LadderIncreasing(lower: real, upper: real, levels: nat)
    requires levels > 0 && lower < upper
    ensures var prices := Ladder(lower, upper, levels);
      && (forall i, j | 0 <= i < j < |prices| :: prices[i] < prices[j])
      && (forall i | 0 <= i < |prices| :: lower <= prices[i] <= upper)
  {
    var prices := Ladder(lower, upper, levels);
    var step := (upper - lower) / levels as real;
    assert step > 0.0;
    forall i, j | 0 <= i < j < |prices| ensures prices[i] < prices[j] {
      assert prices[j] - prices[i] == (j - i) as real * step;
      assert (j - i) as real * step > 0.0 * step;
    }
    forall i | 0 <= i < |prices| ensures lower <= prices[i] <= upper {
      if 0 < i {
        assert prices[0] < prices[i];
      }
      if i < levels {
        assert prices[i] < prices[levels];
      }
    }
  }

  /** What the loops work with once the checks and the quantity formatting have passed. */
  datatype GridPlan = GridPlan(symbol: string, kind: GridKind, quantity: real, prices: seq<real>)

  /** The level a loop places an order at: below the ticker for the buy loop, above it for the sell loop. */
  predicate Wants(side: Side, price: real, current: real)
  {
    if side == Buy then price < current else price > current
  }

  /** The levels of the loop for `side`, by index. */
  function WantedLevel(prices: seq<real>, side: Side, current: real): nat -> bool
  {
    (k: nat) => k < |prices| && Wants(side, prices[k], current)
  }

  /** The order of a level: LIMIT good-till-cancel at its formatted price, or MARKET without a price. */
  function GridRequest(plan: GridPlan, side: Side, price: real): OrderRequest
  {
    match plan.kind
    case GridLimit => OrderRequest(plan.symbol, side, Limit, plan.quantity, Some(price), None, Some(GTC), None)
    case GridMarket => OrderRequest(plan.symbol, side, Market, plan.quantity, None, None, None, None)
  }

  /** Every order of the loop for `side`: the plan's symbol and quantity on that side, LIMIT
      good-till-cancel with a price or MARKET without one. */
  predicate GridRequestFor(plan: GridPlan, side: Side, q: OrderRequest)
  {
    && q.symbol == plan.symbol && q.side == side && q.quantity == plan.quantity
    && q.stopPrice.None? && q.reduceOnly.None?
    && match plan.kind
       case GridLimit => q.kind == Limit && q.price.Some? && q.timeInForce == Some(GTC)
       case GridMarket => q.kind == Market && q.price.None? && q.timeInForce.None?
  }

  function GridRequestOf(plan: GridPlan, side: Side): OrderRequest -> bool
  {
    q => GridRequestFor(plan, side, q)
  }

  /** Iteration k of the loop for `side`, whose first remote call receives `script[at]`. A level on
      the wrong side of the ticker, or whose price cannot be formatted, is skipped. */
  function GridLevel(plan: GridPlan, side: Side, current: real, round: Rounder, script: seq<Reply>, k: nat, at: nat): Progress
  {
    if !WantedLevel(plan.prices, side, current)(k) then Progress([], [], false, at)
    else
      var info := Request(ExchangeInfo, ReplyAt(script, at));
      var price := Formatted(info.reply, plan.symbol, plan.prices[k], PricePrecision, round);
      // `continue`
      if price.None? then Progress([info], [], false, at + 1)
      else
        var create := Request(CreateOrder(GridRequest(plan, side, price.value)), ReplyAt(script, at + 1));
        match OrderResult(create.reply)
        case None => Progress([info, create], [], true, at + 2)
        case Some(order) => Progress([info, create], [order], false, at + 2)
  }

  function GridSteps(plan: GridPlan, side: Side, current: real, round: Rounder, script: seq<Reply>): Step
  {
    (k: nat, a: nat) => GridLevel(plan, side, current, round, script, k, a)
  }

  /** `steps` are the iterations of the loop for `side`; the methods below reason about them
      without unfolding them. */
  ghost predicate IsGridSteps(steps: Step, plan: GridPlan, side: Side, current: real, round: Rounder, script: seq<Reply>)
  {
    forall k: nat, a: nat {:trigger GridLevel(plan, side, current, round, script, k, a)} ::
      steps(k, a) == GridLevel(plan, side, current, round, script, k, a)
  }

  /** The dictionary `place_grid_orders` returns: with the two totals after both loops, without
      them from an exception handler. */
  datatype GridResult =
    | Complete(buyOrders: seq<OrderResponse>, sellOrders: seq<OrderResponse>, totalBuyOrders: nat, totalSellOrders: nat)
    | Partial(buyOrders: seq<OrderResponse>, sellOrders: seq<OrderResponse>)

  /** The return value after both loops ran (`failed` false) or an exception was caught. */
  function GridOutcome(buys: seq<OrderResponse>, sells: seq<OrderResponse>, failed: bool): Option<GridResult>
  {
    if !failed then Some(Complete(buys, sells, |buys|, |sells|))
    else if buys == [] && sells == [] then None
    else Some(Partial(buys, sells))
  }

  /** The buy loop and then the sell loop, inside the `try`, the first call receiving `script[at]`. */
  function GridLoops(plan: GridPlan, current: real, round: Rounder, script: seq<Reply>, at: nat): Trace<Option<GridResult>>
  {
    LoopsWith(GridSteps(plan, Buy, current, round, script), GridSteps(plan, Sell, current, round, script), |plan.prices|, at)
  }

  /** A buy loop and then a sell loop of n iterations each; the sell loop does not run once the
      buy loop failed. */
  function LoopsWith(buySteps: Step, sellSteps: Step, n: nat, at: nat): Trace<Option<GridResult>>
  {
    var buys := Run(buySteps, n, at);
    if buys.failed then Trace(buys.events, GridOutcome(buys.orders, [], true))
    else
      var sells := Run(sellSteps, n, buys.next);
      Trace(buys.events + sells.events, GridOutcome(buys.orders, sells.orders, sells.failed))
  }

  /** The two loops of a plan, given the ticker price, the first call receiving reply `at`. */
  type Loops = (GridPlan, real, nat) -> Trace<Option<GridResult>>

  function GridLoopsOf(round: Rounder, script: seq<Reply>): Loops
  {
    (plan: GridPlan, current: real, at: nat) => GridLoops(plan, current, round, script, at)
  }

  /** `loops` are the two loops; the methods below reason about them without unfolding them. */
  ghost predicate IsGridLoops(loops: Loops, round: Rounder, script: seq<Reply>)
  {
    forall plan: GridPlan, current: real, at: nat {:trigger GridLoops(plan, current, round, script, at)} ::
      loops(plan, current, at) == GridLoops(plan, current, round, script, at)
  }

  /** What `place_grid_orders` does when its remote calls receive `script[start]`, `script[start + 1]`, ... */
  function GridTrace(symbol: string, lower: real, upper: real, levels: int, quantity: real, orderType: string,
                     round: Rounder, script: seq<Reply>, start: nat): Trace<Option<GridResult>>
  {
    if !GridChecks(symbol, lower, upper, levels, quantity, orderType) then Trace([], None)
    else GridFormatted(symbol, ParseGridType(orderType).value, quantity, Ladder(lower, upper, levels), round, script, start,
                       GridLoopsOf(round, script))
  }

  /** The quantity formatting and what follows it, the first call receiving `script[at]`. */
  function GridFormatted(symbol: string, kind: GridKind, quantity: real, prices: seq<real>,
                         round: Rounder, script: seq<Reply>, at: nat, loops: Loops): Trace<Option<GridResult>>
  {
    var info := Request(ExchangeInfo, ReplyAt(script, at));
    var formatted := Formatted(info.reply, symbol, quantity, QuantityPrecision, round);
    if formatted.None? then Trace([info], None)
    else
      var rest := GridFromTicker(GridPlan(symbol, kind, formatted.value, prices), script, at + 1, loops);
      Trace([info] + rest.events, rest.result)
  }

  /** The ticker call and, given a price, the two loops, the first call receiving `script[at]`. */
  function GridFromTicker(plan: GridPlan, script: seq<Reply>, at: nat, loops: Loops): Trace<Option<GridResult>>
  {
    var ticker := Request(SymbolTicker(plan.symbol), ReplyAt(script, at));
    // an exception before any order: `None`
    if !ticker.reply.TickerReply? then Trace([ticker], None)
    else
      var l := loops(plan, ticker.reply.price, at + 1);
      Trace([ticker] + l.events, l.result)
  }

  // ---- Properties of one level --------------------------------------------------------------

  /** A level's calls: a price lookup and at most one order, of the loop's kind and side, and
      none for a level on the wrong side of the ticker (a level equal to the ticker is on neither). */
  lemma LevelCalls(plan: GridPlan, side: Side, current: real, round: Rounder, script: seq<Reply>, k: nat, at: nat)
    ensures var it := GridLevel(plan, side, current, round, script, k, at);
      && it.next == at + RequestCount(it.events)
      && |CreateRequests(it.events)| <= (if WantedLevel(plan.prices, side, current)(k) then 1 else 0)
      && (forall q | q in CreateRequests(it.events) :: GridRequestFor(plan, side, q))
      // a LIMIT order is priced at the level's price formatted with the lookup's precision
      && (forall q | q in CreateRequests(it.events) ::
            && k < |plan.prices| && Wants(side, plan.prices[k], current)
            && (plan.kind == GridLimit ==> q.price == Formatted(ReplyAt(script, at), plan.symbol, plan.prices[k], PricePrecision, round)))
  {
    var it := GridLevel(plan, side, current, round, script, k, at);
    if WantedLevel(plan.prices, side, current)(k) {
      var info := Request(ExchangeInfo, ReplyAt(script, at));
      var price := Formatted(info.reply, plan.symbol, plan.prices[k], PricePrecision, round);
      if price.None? {
        CollectPair(info, info, RequestedCall);
        CollectPair(info, info, CreatedRequest);
      } else {
        var create := Request(CreateOrder(GridRequest(plan, side, price.value)), ReplyAt(script, at + 1));
        assert it.events == [info, create];
        CollectPair(info, create, RequestedCall);
        CollectPair(info, create, CreatedRequest);
        assert GridRequestFor(plan, side, GridRequest(plan, side, price.value));
      }
    } else {
      assert RequestCount([]) == 0 && CreateRequests([]) == [];
    }
  }

  /** A level places at most one order, the one its log shows placed; a level fails only when its
      order call raised, and then that order is the one not placed. */
  lemma LevelOrders(plan: GridPlan, side: Side, current: real, round: Rounder, script: seq<Reply>, k: nat, at: nat)
    ensures var it := GridLevel(plan, side, current, round, script, k, at);
      && it.orders == PlacedOrders(it.events) && |it.orders| <= 1 && (it.failed ==> it.orders == [])
      && |CreateRequests(it.events)| == |it.orders| + (if it.failed then 1 else 0)
  {
    var it := GridLevel(plan, side, current, round, script, k, at);
    if WantedLevel(plan.prices, side, current)(k) {
      var info := Request(ExchangeInfo, ReplyAt(script, at));
      var price := Formatted(info.reply, plan.symbol, plan.prices[k], PricePrecision, round);
      if price.None? {
        CollectPair(info, info, PlacedOrder);
        CollectPair(info, info, CreatedRequest);
      } else {
        var create := Request(CreateOrder(GridRequest(plan, side, price.value)), ReplyAt(script, at + 1));
        assert it.events == [info, create];
        CollectPair(info, create, PlacedOrder);
        CollectPair(info, create, CreatedRequest);
      }
    } else {
      assert PlacedOrders([]) == [] && CreateRequests([]) == [];
    }
  }

  /** The iterations of a loop satisfy the hypotheses of the loop lemmas. */
  lemma GridStepsFacts(plan: GridPlan, side: Side, current: real, round: Rounder, script: seq<Reply>)
    ensures var steps := GridSteps(plan, side, current, round, script);
      && ReadsInOrder(steps) && PlacesAtMostOne(steps) && FailsOnlyOnOrders(steps)
      && RequestsSatisfy(steps, GridRequestOf(plan, side))
      && forall k: nat, a: nat :: |CreateRequests(steps(k, a).events)| <= (if WantedLevel(plan.prices, side, current)(k) then 1 else 0)
  {
    var steps := GridSteps(plan, side, current, round, script);
    forall k: nat, a: nat
      ensures && steps(k, a).next == a + RequestCount(steps(k, a).events)
              && |CreateRequests(steps(k, a).events)| <= (if WantedLevel(plan.prices, side, current)(k) then 1 else 0)
              && (forall q | q in CreateRequests(steps(k, a).events) :: GridRequestOf(plan, side)(q))
    {
      LevelCalls(plan, side, current, round, script, k, a);
    }
    forall k: nat, a: nat
      ensures && steps(k, a).orders == PlacedOrders(steps(k, a).events) && |steps(k, a).orders| <= 1
              && (steps(k, a).failed ==> steps(k, a).orders == [])
              && |CreateRequests(steps(k, a).events)| == |steps(k, a).orders| + (if steps(k, a).failed then 1 else 0)
    {
      LevelOrders(plan, side, current, round, script, k, a);
    }
  }

  /** The order `q` the loop for `side` sent at ladder index k: a level on that side of the
      ticker, an order of the loop, and for a LIMIT grid priced at that level's price formatted
      with the precision of some lookup of the script. */
  ghost predicate LevelRequest(plan: GridPlan, side: Side, current: real, round: Rounder, script: seq<Reply>, k: nat, q: OrderRequest)
  {
    && k < |plan.prices| && Wants(side, plan.prices[k], current) && GridRequestFor(plan, side, q)
    && (plan.kind == GridLimit ==> exists a: nat :: q.price == Formatted(ReplyAt(script, a), plan.symbol, plan.prices[k], PricePrecision, round))
  }

  ghost function LevelRequestOf(plan: GridPlan, side: Side, current: real, round: Rounder, script: seq<Reply>): (nat, OrderRequest) -> bool
  {
    (k: nat, q: OrderRequest) => LevelRequest(plan, side, current, round, script, k, q)
  }

  /** Each level sends at most one order, the order of that level. */
  lemma GridStepsIndexed(plan: GridPlan, side: Side, current: real, round: Rounder, script: seq<Reply>)
    ensures SendsIndexed(GridSteps(plan, side, current, round, script), LevelRequestOf(plan, side, current, round, script))
  {
    var steps := GridSteps(plan, side, current, round, script);
    var ok := LevelRequestOf(plan, side, current, round, script);
    forall k: nat, a: nat
      ensures && |CreateRequests(steps(k, a).events)| <= 1
              && forall q | q in CreateRequests(steps(k, a).events) :: ok(k, q)
    {
      LevelCalls(plan, side, current, round, script, k, a);
      forall q | q in CreateRequests(steps(k, a).events) ensures ok(k, q) {
        if plan.kind == GridLimit {
          assert q.price == Formatted(ReplyAt(script, a), plan.symbol, plan.prices[k], PricePrecision, round);
        }
      }
    }
  }

  // ---- Properties of the ladder -------------------------------------------------------------

  /** On a strictly increasing grid, the ticker equals at most one level. */
  lemma {:induction false} CountSidesIncreasing(prices: seq<real>, current: real, i: nat)
    requires i <= |prices| && forall a, b | 0 <= a < b < |prices| :: prices[a] < prices[b]
    ensures CountWhere(WantedLevel(prices, Buy, current), i) + CountWhere(WantedLevel(prices, Sell, current), i)
            + (if current in prices[..i] then 1 else 0) == i
  {
    if i > 0 {
      CountSidesIncreasing(prices, current, i - 1);
      assert prices[..i] == prices[..i - 1] + [prices[i - 1]];
      if prices[i - 1] == current {
        assert current !in prices[..i - 1] by {
          forall a | 0 <= a < i - 1 ensures prices[a] != current {
            assert prices[a] < prices[i - 1];
          }
        }
      }
    }
  }

  /** The grid's levels split into those below the ticker (the buy levels), those above it (the
      sell levels) and at most one at the ticker, which gets no order. */
  lemma GridLevelsPartition(lower: real, upper: real, levels: nat, current: real)
    requires levels > 0 && lower < upper
    ensures var prices := Ladder(lower, upper, levels);
      CountWhere(WantedLevel(prices, Buy, current), |prices|) + CountWhere(WantedLevel(prices, Sell, current), |prices|)
        == levels + 1 - (if current in prices then 1 else 0)
  {
    var prices := Ladder(lower, upper, levels);
    LadderIncreasing(lower, upper, levels);
    CountSidesIncreasing(prices, current, |prices|);
    assert prices[..|prices|] == prices;
  }

  // ---- Properties of place_grid_orders ------------------------------------------------------

  /** After the ticker call, the events and the result are those of the two loops; without a
      ticker price there are none and the result is None. */
  lemma FromTickerFacts(plan: GridPlan, round: Rounder, script: seq<Reply>, at: nat)
    ensures var t := GridFromTicker(plan, script, at, GridLoopsOf(round, script));
      && Calls(t.events) != [] && Calls(t.events)[0] == SymbolTicker(plan.symbol)
      && if ReplyAt(script, at).TickerReply? then
           var l := GridLoops(plan, ReplyAt(script, at).price, round, script, at + 1);
           && CreateRequests(t.events) == CreateRequests(l.events) && PlacedOrders(t.events) == PlacedOrders(l.events)
           && t.result == l.result
         else |t.events| == 1 && CreateRequests(t.events) == [] && PlacedOrders(t.events) == [] && t.result == None
  {
    var t := GridFromTicker(plan, script, at, GridLoopsOf(round, script));
    var ticker := Request(SymbolTicker(plan.symbol), ReplyAt(script, at));
    if ReplyAt(script, at).TickerReply? {
      ObservePrepend(ticker, GridLoops(plan, ReplyAt(script, at).price, round, script, at + 1).events);
    } else {
      ObservePrepend(ticker, []);
      assert [ticker] + [] == [ticker];
    }
  }

  /** After the quantity lookup, the events and the result are those from the ticker call on;
      without a symbol entry there are none and the result is None. */
  lemma FormattedFacts(symbol: string, kind: GridKind, quantity: real, prices: seq<real>, round: Rounder, script: seq<Reply>, at: nat)
    ensures var t := GridFormatted(symbol, kind, quantity, prices, round, script, at, GridLoopsOf(round, script));
      var formatted := Formatted(ReplyAt(script, at), symbol, quantity, QuantityPrecision, round);
      && Calls(t.events) != [] && Calls(t.events)[0] == ExchangeInfo
      && if formatted.Some? then
           var f := GridFromTicker(GridPlan(symbol, kind, formatted.value, prices), script, at + 1, GridLoopsOf(round, script));
           && Calls(t.events) == [ExchangeInfo] + Calls(f.events)
           && CreateRequests(t.events) == CreateRequests(f.events) && PlacedOrders(t.events) == PlacedOrders(f.events)
           && t.result == f.result
         else |t.events| == 1 && CreateRequests(t.events) == [] && PlacedOrders(t.events) == [] && t.result == None
  {
    var info := Request(ExchangeInfo, ReplyAt(script, at));
    var formatted := Formatted(ReplyAt(script, at), symbol, quantity, QuantityPrecision, round);
    if formatted.Some? {
      ObservePrepend(info, GridFromTicker(GridPlan(symbol, kind, formatted.value, prices), script, at + 1, GridLoopsOf(round, script)).events);
    } else {
      ObservePrepend(info, []);
      assert [info] + [] == [info];
    }
  }

  /** A failed check returns None before any remote call; otherwise the quantity lookup comes
      first and the ticker second, and without a symbol entry or a ticker price nothing is placed. */
  lemma GridCalls(symbol: string, lower: real, upper: real, levels: int, quantity: real, orderType: string,
                  round: Rounder, script: seq<Reply>, start: nat)
    ensures var t := GridTrace(symbol, lower, upper, levels, quantity, orderType, round, script, start);
      && (!GridChecks(symbol, lower, upper, levels, quantity, orderType) ==> t.events == [] && t.result == None)
      && (GridChecks(symbol, lower, upper, levels, quantity, orderType) ==> Calls(t.events) != [] && Calls(t.events)[0] == ExchangeInfo)
      && (GridChecks(symbol, lower, upper, levels, quantity, orderType) && SymbolInfoOf(ReplyAt(script, start), symbol).None? ==>
            t.result == None && |t.events| == 1)
      && (GridChecks(symbol, lower, upper, levels, quantity, orderType) && SymbolInfoOf(ReplyAt(script, start), symbol).Some? ==>
            |Calls(t.events)| >= 2 && Calls(t.events)[..2] == [ExchangeInfo, SymbolTicker(symbol)])
      && (GridChecks(symbol, lower, upper, levels, quantity, orderType) && !ReplyAt(script, start + 1).TickerReply? ==>
            t.result == None && PlacedOrders(t.events) == [])
  {
    if GridChecks(symbol, lower, upper, levels, quantity, orderType) {
      var kind := ParseGridType(orderType).value;
      var prices := Ladder(lower, upper, levels);
      FormattedFacts(symbol, kind, quantity, prices, round, script, start);
      var formatted := Formatted(ReplyAt(script, start), symbol, quantity, QuantityPrecision, round);
      if formatted.Some? {
        var f := GridFromTicker(GridPlan(symbol, kind, formatted.value, prices), script, start + 1, GridLoopsOf(round, script));
        FromTickerFacts(GridPlan(symbol, kind, formatted.value, prices), round, script, start + 1);
        assert ([ExchangeInfo] + Calls(f.events))[..2] == [ExchangeInfo, Calls(f.events)[0]];
      }
    }
  }

  /** The orders a grid run places and the requests it sends, loop by loop. */
  lemma LoopsFacts(plan: GridPlan, current: real, round: Rounder, script: seq<Reply>, at: nat)
    ensures var buys := Run(GridSteps(plan, Buy, current, round, script), |plan.prices|, at);
      var sells := Run(GridSteps(plan, Sell, current, round, script), |plan.prices|, buys.next);
      var l := GridLoops(plan, current, round, script, at);
      && buys.orders == PlacedOrders(buys.events)
      && |CreateRequests(buys.events)| == |buys.orders| + (if buys.failed then 1 else 0)
      && |CreateRequests(buys.events)| <= CountWhere(WantedLevel(plan.prices, Buy, current), |plan.prices|)
      && (forall q | q in CreateRequests(buys.events) :: GridRequestFor(plan, Buy, q))
      && sells.orders == PlacedOrders(sells.events)
      && |CreateRequests(sells.events)| == |sells.orders| + (if sells.failed then 1 else 0)
      && |CreateRequests(sells.events)| <= CountWhere(WantedLevel(plan.prices, Sell, current), |plan.prices|)
      && (forall q | q in CreateRequests(sells.events) :: GridRequestFor(plan, Sell, q))
      && l.events == (if buys.failed then buys.events else buys.events + sells.events)
  {
    var buySteps := GridSteps(plan, Buy, current, round, script);
    var sellSteps := GridSteps(plan, Sell, current, round, script);
    var buys := Run(buySteps, |plan.prices|, at);
    GridStepsFacts(plan, Buy, current, round, script);
    GridStepsFacts(plan, Sell, current, round, script);
    RunOrders(buySteps, |plan.prices|, at);
    RunSentPlaced(buySteps, |plan.prices|, at);
    RunRequestCount(buySteps, WantedLevel(plan.prices, Buy, current), |plan.prices|, at);
    RunRequests(buySteps, GridRequestOf(plan, Buy), |plan.prices|, at);
    RunOrders(sellSteps, |plan.prices|, buys.next);
    RunSentPlaced(sellSteps, |plan.prices|, buys.next);
    RunRequestCount(sellSteps, WantedLevel(plan.prices, Sell, current), |plan.prices|, buys.next);
    RunRequests(sellSteps, GridRequestOf(plan, Sell), |plan.prices|, buys.next);
  }

  /** What the two loops return: every order placed, buy loop first; the totals after both loops
      ran; after an exception, a result only when some order was placed, and then exactly one
      order sent was not placed (the one whose call raised). */
  lemma LoopsOutcome(plan: GridPlan, current: real, round: Rounder, script: seq<Reply>, at: nat)
    ensures var l := GridLoops(plan, current, round, script, at);
      && (l.result.Some? ==> l.result.value.buyOrders + l.result.value.sellOrders == PlacedOrders(l.events))
      && (l.result.None? ==> PlacedOrders(l.events) == [] && |CreateRequests(l.events)| == 1)
      && (l.result.Some? && l.result.value.Complete? ==>
            && l.result.value.totalBuyOrders == |l.result.value.buyOrders|
            && l.result.value.totalSellOrders == |l.result.value.sellOrders|
            && |CreateRequests(l.events)| == |PlacedOrders(l.events)|)
      && (l.result.Some? && l.result.value.Partial? ==> |CreateRequests(l.events)| == |PlacedOrders(l.events)| + 1)
  {
    var buys := Run(GridSteps(plan, Buy, current, round, script), |plan.prices|, at);
    var sells := Run(GridSteps(plan, Sell, current, round, script), |plan.prices|, buys.next);
    LoopsFacts(plan, current, round, script, at);
    if !buys.failed {
      CollectAppend(buys.events, sells.events, PlacedOrder);
      CollectAppend(buys.events, sells.events, CreatedRequest);
    }
  }

  /** The number of requests on `side`. */
  function SideCount(requests: seq<OrderRequest>, side: Side): nat
  {
    if requests == [] then 0
    else SideCount(requests[..|requests| - 1], side) + (if requests[|requests| - 1].side == side then 1 else 0)
  }

  lemma {:induction false} SideCountAppend(a: seq<OrderRequest>, b: seq<OrderRequest>, side: Side)
    ensures SideCount(a + b, side) == SideCount(a, side) + SideCount(b, side)
  {
    if b == [] {
      assert a + b == a;
    } else {
      assert (a + b)[..|a + b| - 1] == a + b[..|b| - 1];
      SideCountAppend(a, b[..|b| - 1], side);
    }
  }

  /** Requests all on one side count fully on that side and not at all on the other. */
  lemma {:induction false} SideCountOneSided(requests: seq<OrderRequest>, side: Side, other: Side)
    requires side != other && forall q | q in requests :: q.side == side
    ensures SideCount(requests, side) == |requests| && SideCount(requests, other) == 0
  {
    if requests != [] {
      var init := requests[..|requests| - 1];
      assert forall q | q in init :: q in requests;
      SideCountOneSided(init, side, other);
    }
  }

  /** The orders the two loops send: each of the grid's kind, no buy after a sell, at most one buy
      per level below the ticker and at most one sell per level above it. */
  lemma LoopsRequests(plan: GridPlan, current: real, round: Rounder, script: seq<Reply>, at: nat)
    ensures var requests := CreateRequests(GridLoops(plan, current, round, script, at).events);
      && (forall q | q in requests :: GridRequestFor(plan, q.side, q))
      && (forall i, j | 0 <= i < j < |requests| :: requests[j].side == Buy ==> requests[i].side == Buy)
      && SideCount(requests, Buy) <= CountWhere(WantedLevel(plan.prices, Buy, current), |plan.prices|)
      && SideCount(requests, Sell) <= CountWhere(WantedLevel(plan.prices, Sell, current), |plan.prices|)
  {
    var buys := Run(GridSteps(plan, Buy, current, round, script), |plan.prices|, at);
    var sells := Run(GridSteps(plan, Sell, current, round, script), |plan.prices|, buys.next);
    var l := GridLoops(plan, current, round, script, at);
    LoopsFacts(plan, current, round, script, at);
    var b := CreateRequests(buys.events);
    var s := if buys.failed then [] else CreateRequests(sells.events);
    if !buys.failed {
      CollectAppend(buys.events, sells.events, CreatedRequest);
    } else {
      assert b + s == b;
    }
    var requests := b + s;
    assert CreateRequests(l.events) == requests;
    SideCountOneSided(b, Buy, Sell);
    SideCountOneSided(s, Sell, Buy);
    SideCountAppend(b, s, Buy);
    SideCountAppend(b, s, Sell);
    forall i, j | 0 <= i < j < |requests| && requests[j].side == Buy ensures requests[i].side == Buy {
      assert requests[i] in b;
    }
  }

  /** `requests` are orders of the loop for `side`, `ks[j]` the ladder index `requests[j]` was
      sent for: each a level on that side of the ticker, LIMIT orders priced from it, and the
      levels taken in the ladder's order, so at ascending grid prices. */
  ghost predicate SideInLadderOrder(plan: GridPlan, side: Side, current: real, round: Rounder, script: seq<Reply>,
                                    requests: seq<OrderRequest>, ks: seq<nat>)
  {
    && |ks| == |requests|
    && (forall j | 0 <= j < |ks| :: LevelRequest(plan, side, current, round, script, ks[j], requests[j]))
    && (forall i, j | 0 <= i < j < |ks| :: ks[i] < ks[j] && plan.prices[ks[i]] < plan.prices[ks[j]])
  }

  lemma LadderOrderOf(plan: GridPlan, side: Side, current: real, round: Rounder, script: seq<Reply>,
                      requests: seq<OrderRequest>, ks: seq<nat>)
    requires IndexedBy(requests, ks, LevelRequestOf(plan, side, current, round, script), |plan.prices|)
    requires forall i, j | 0 <= i < j < |plan.prices| :: plan.prices[i] < plan.prices[j]
    ensures SideInLadderOrder(plan, side, current, round, script, requests, ks)
  {
    forall j | 0 <= j < |ks| ensures LevelRequest(plan, side, current, round, script, ks[j], requests[j]) {
      assert LevelRequestOf(plan, side, current, round, script)(ks[j], requests[j]);
    }
  }

  /** On an increasing grid, the two loops send the buys, level by level up the ladder, and then
      the sells, level by level up the ladder. */
  lemma LoopsOrder(plan: GridPlan, current: real, round: Rounder, script: seq<Reply>, at: nat)
    requires forall i, j | 0 <= i < j < |plan.prices| :: plan.prices[i] < plan.prices[j]
    ensures var requests := CreateRequests(GridLoops(plan, current, round, script, at).events);
      exists m: nat, kb: seq<nat>, ks: seq<nat> | m <= |requests| ::
        && SideInLadderOrder(plan, Buy, current, round, script, requests[..m], kb)
        && SideInLadderOrder(plan, Sell, current, round, script, requests[m..], ks)
  {
    var buySteps := GridSteps(plan, Buy, current, round, script);
    var sellSteps := GridSteps(plan, Sell, current, round, script);
    var buys := Run(buySteps, |plan.prices|, at);
    var sells := Run(sellSteps, |plan.prices|, buys.next);
    var l := GridLoops(plan, current, round, script, at);
    GridStepsIndexed(plan, Buy, current, round, script);
    GridStepsIndexed(plan, Sell, current, round, script);
    RunIndexed(buySteps, LevelRequestOf(plan, Buy, current, round, script), |plan.prices|, at);
    RunIndexed(sellSteps, LevelRequestOf(plan, Sell, current, round, script), |plan.prices|, buys.next);
    var b := CreateRequests(buys.events);
    var kb: seq<nat> :| IndexedBy(b, kb, LevelRequestOf(plan, Buy, current, round, script), |plan.prices|);
    LadderOrderOf(plan, Buy, current, round, script, b, kb);
    var requests := CreateRequests(l.events);
    if buys.failed {
      assert requests == b && requests[..|b|] == b && requests[|b|..] == [];
      assert SideInLadderOrder(plan, Sell, current, round, script, requests[|b|..], []);
    } else {
      var s := CreateRequests(sells.events);
      var ks: seq<nat> :| IndexedBy(s, ks, LevelRequestOf(plan, Sell, current, round, script), |plan.prices|);
      LadderOrderOf(plan, Sell, current, round, script, s, ks);
      CollectAppend(buys.events, sells.events, CreatedRequest);
      assert requests == b + s;
      assert requests[..|b|] == b && requests[|b|..] == s;
    }
  }

  lemma {:induction false} SideCountTotal(requests: seq<OrderRequest>)
    ensures SideCount(requests, Buy) + SideCount(requests, Sell) == |requests|
  {
    if requests != [] {
      SideCountTotal(requests[..|requests| - 1]);
    }
  }

  /** The result of `place_grid_orders`: the buy orders and then the sell orders are exactly the
      orders placed; None only when no order was placed; the totals, when present, count the two
      lists, and are present exactly when every order sent was placed; a result without totals
      means the one order call that raised. */
  lemma GridResultFacts(symbol: string, lower: real, upper: real, levels: int, quantity: real, orderType: string,
                        round: Rounder, script: seq<Reply>, start: nat)
    ensures var t := GridTrace(symbol, lower, upper, levels, quantity, orderType, round, script, start);
      && (t.result.Some? ==> t.result.value.buyOrders + t.result.value.sellOrders == PlacedOrders(t.events))
      && (t.result.None? ==> PlacedOrders(t.events) == [])
      && (t.result.Some? && t.result.value.Complete? ==>
            && t.result.value.totalBuyOrders == |t.result.value.buyOrders|
            && t.result.value.totalSellOrders == |t.result.value.sellOrders|
            && |CreateRequests(t.events)| == |PlacedOrders(t.events)|)
      && (t.result.Some? && t.result.value.Partial? ==> |CreateRequests(t.events)| == |PlacedOrders(t.events)| + 1)
  {
    if GridChecks(symbol, lower, upper, levels, quantity, orderType) {
      var kind := ParseGridType(orderType).value;
      var prices := Ladder(lower, upper, levels);
      FormattedFacts(symbol, kind, quantity, prices, round, script, start);
      var formatted := Formatted(ReplyAt(script, start), symbol, quantity, QuantityPrecision, round);
      if formatted.Some? {
        var plan := GridPlan(symbol, kind, formatted.value, prices);
        FromTickerFacts(plan, round, script, start + 1);
        if ReplyAt(script, start + 1).TickerReply? {
          LoopsOutcome(plan, ReplyAt(script, start + 1).price, round, script, start + 2);
        }
      }
    }
  }

  /** The orders `place_grid_orders` sends are those of its two loops, and none when it does not
      reach them. */
  lemma TraceRequests(symbol: string, lower: real, upper: real, levels: int, quantity: real, orderType: string,
                      round: Rounder, script: seq<Reply>, start: nat)
    ensures var t := GridTrace(symbol, lower, upper, levels, quantity, orderType, round, script, start);
      var formatted := Formatted(ReplyAt(script, start), symbol, quantity, QuantityPrecision, round);
      if GridChecks(symbol, lower, upper, levels, quantity, orderType) && formatted.Some? && ReplyAt(script, start + 1).TickerReply? then
        var plan := GridPlan(symbol, ParseGridType(orderType).value, formatted.value, Ladder(lower, upper, levels));
        CreateRequests(t.events) == CreateRequests(GridLoops(plan, ReplyAt(script, start + 1).price, round, script, start + 2).events)
      else CreateRequests(t.events) == []
  {
    if GridChecks(symbol, lower, upper, levels, quantity, orderType) {
      var kind := ParseGridType(orderType).value;
      var prices := Ladder(lower, upper, levels);
      FormattedFacts(symbol, kind, quantity, prices, round, script, start);
      var formatted := Formatted(ReplyAt(script, start), symbol, quantity, QuantityPrecision, round);
      if formatted.Some? {
        FromTickerFacts(GridPlan(symbol, kind, formatted.value, prices), round, script, start + 1);
      }
    } else {
      assert CreateRequests([]) == [];
    }
  }

  /** The orders `place_grid_orders` sends: of the symbol, at the formatted quantity, LIMIT
      good-till-cancel with a price or MARKET without one as `order_type` says, and every buy
      before every sell. */
  lemma GridRequests(symbol: string, lower: real, upper: real, levels: int, quantity: real, orderType: string,
                     round: Rounder, script: seq<Reply>, start: nat)
    ensures var t := GridTrace(symbol, lower, upper, levels, quantity, orderType, round, script, start);
      var requests := CreateRequests(t.events);
      && (forall q | q in requests ::
            && q.symbol == symbol && Formatted(ReplyAt(script, start), symbol, quantity, QuantityPrecision, round) == Some(q.quantity)
            && q.stopPrice.None? && q.reduceOnly.None?
            && (orderType == "LIMIT" ==> q.kind == Limit && q.price.Some? && q.timeInForce == Some(GTC))
            && (orderType == "MARKET" ==> q.kind == Market && q.price.None? && q.timeInForce.None?))
      && (forall i, j | 0 <= i < j < |requests| :: requests[j].side == Buy ==> requests[i].side == Buy)
  {
    TraceRequests(symbol, lower, upper, levels, quantity, orderType, round, script, start);
    var formatted := Formatted(ReplyAt(script, start), symbol, quantity, QuantityPrecision, round);
    if GridChecks(symbol, lower, upper, levels, quantity, orderType) && formatted.Some? && ReplyAt(script, start + 1).TickerReply? {
      var plan := GridPlan(symbol, ParseGridType(orderType).value, formatted.value, Ladder(lower, upper, levels));
      LoopsRequests(plan, ReplyAt(script, start + 1).price, round, script, start + 2);
    }
  }

  /** The order `place_grid_orders` sends its orders in: first the buys, at grid prices below the
      ticker price and going up the grid, then the sells, at grid prices above it and going up
      the grid; a LIMIT order is priced at its grid price as formatted with a precision lookup. */
  lemma GridRequestOrder(symbol: string, lower: real, upper: real, levels: int, quantity: real, orderType: string,
                         round: Rounder, script: seq<Reply>, start: nat)
    ensures var requests := CreateRequests(GridTrace(symbol, lower, upper, levels, quantity, orderType, round, script, start).events);
      var formatted := Formatted(ReplyAt(script, start), symbol, quantity, QuantityPrecision, round);
      if GridChecks(symbol, lower, upper, levels, quantity, orderType) && formatted.Some? && ReplyAt(script, start + 1).TickerReply? then
        var plan := GridPlan(symbol, ParseGridType(orderType).value, formatted.value, Ladder(lower, upper, levels));
        var current := ReplyAt(script, start + 1).price;
        exists m: nat, kb: seq<nat>, ks: seq<nat> | m <= |requests| ::
          && SideInLadderOrder(plan, Buy, current, round, script, requests[..m], kb)
          && SideInLadderOrder(plan, Sell, current, round, script, requests[m..], ks)
      else requests == []
  {
    TraceRequests(symbol, lower, upper, levels, quantity, orderType, round, script, start);
    var formatted := Formatted(ReplyAt(script, start), symbol, quantity, QuantityPrecision, round);
    if GridChecks(symbol, lower, upper, levels, quantity, orderType) && formatted.Some? && ReplyAt(script, start + 1).TickerReply? {
      var plan := GridPlan(symbol, ParseGridType(orderType).value, formatted.value, Ladder(lower, upper, levels));
      LadderIncreasing(lower, upper, levels);
      LoopsOrder(plan, ReplyAt(script, start + 1).price, round, script, start + 2);
    }
  }

  /** At most one buy per grid price below the ticker price and one sell per grid price above it,
      so none at a grid price equal to it. */
  lemma GridRequestCounts(symbol: string, lower: real, upper: real, levels: int, quantity: real, orderType: string,
                          round: Rounder, script: seq<Reply>, start: nat)
    requires GridChecks(symbol, lower, upper, levels, quantity, orderType) && ReplyAt(script, start + 1).TickerReply?
    ensures var requests := CreateRequests(GridTrace(symbol, lower, upper, levels, quantity, orderType, round, script, start).events);
      var prices := Ladder(lower, upper, levels);
      var current := ReplyAt(script, start + 1).price;
      && SideCount(requests, Buy) <= CountWhere(WantedLevel(prices, Buy, current), levels + 1)
      && SideCount(requests, Sell) <= CountWhere(WantedLevel(prices, Sell, current), levels + 1)
      && |requests| <= levels + 1 - (if current in prices then 1 else 0)
  {
    var requests := CreateRequests(GridTrace(symbol, lower, upper, levels, quantity, orderType, round, script, start).events);
    var current := ReplyAt(script, start + 1).price;
    TraceRequests(symbol, lower, upper, levels, quantity, orderType, round, script, start);
    var formatted := Formatted(ReplyAt(script, start), symbol, quantity, QuantityPrecision, round);
    if formatted.Some? {
      var plan := GridPlan(symbol, ParseGridType(orderType).value, formatted.value, Ladder(lower, upper, levels));
      LoopsRequests(plan, current, round, script, start + 2);
    } else {
      assert SideCount([], Buy) == 0 && SideCount([], Sell) == 0;
    }
    SideCountTotal(requests);
    GridLevelsPartition(lower, upper, levels, current);
  }

  // ---- place_grid_orders --------------------------------------------------------------------

  /** One grid price of the loop for `side`: the order placed, if any, and whether its call raised. */
  method GridLevelStep(bot: Bot, plan: GridPlan, side: Side, current: real, k: nat, ghost steps: Step)
    returns (order: Option<OrderResponse>, failed: bool)
    requires bot.client.Valid() && IsGridSteps(steps, plan, side, current, bot.round, bot.client.script)
    requires k < |plan.prices|
    modifies bot.client
    ensures bot.client.Valid()
    ensures var it := steps(k, old(bot.client.cursor));
      && bot.client.log == old(bot.client.log) + it.events
      && bot.client.cursor == it.next
      && failed == it.failed && it.orders == (if order.Some? then [order.value] else [])
    ensures failed ==> order.None?
  {
    ghost var it := GridLevel(plan, side, current, bot.round, bot.client.script, k, bot.client.cursor);
    assert steps(k, bot.client.cursor) == it;
    var price := plan.prices[k];
    var wanted := if side == Buy then price < current else price > current;
    if !wanted {
      return None, false;
    }
    var formattedPrice := bot.FormatPrice(plan.symbol, price);
    if formattedPrice.None? {
      return None, false;
    }
    order := bot.client.FuturesCreateOrder(GridRequest(plan, side, formattedPrice.value));
    failed := order.None?;
  }

  /** The `for price in grid_prices` loop for `side`: the orders placed, and whether a remote call
      raised and ended it (and with it the `try`). */
  method GridLoop(bot: Bot, plan: GridPlan, side: Side, current: real, ghost steps: Step)
    returns (orders: seq<OrderResponse>, failed: bool)
    requires bot.client.Valid() && IsGridSteps(steps, plan, side, current, bot.round, bot.client.script)
    modifies bot.client
    ensures bot.client.Valid()
    ensures var p := Run(steps, |plan.prices|, old(bot.client.cursor));
      bot.client.log == old(bot.client.log) + p.events && bot.client.cursor == p.next
      && orders == p.orders && failed == p.failed
  {
    ghost var start := bot.client.cursor;
    orders := [];
    for k := 0 to |plan.prices|
      invariant bot.client.Valid()
      invariant !Run(steps, k, start).failed
      invariant bot.client.log == old(bot.client.log) + Run(steps, k, start).events
      invariant bot.client.cursor == Run(steps, k, start).next
      invariant orders == Run(steps, k, start).orders
    {
      ghost var p := Run(steps, k, start);
      ghost var it := steps(k, p.next);
      ghost var logBefore := bot.client.log;
      var order, stepFailed := GridLevelStep(bot, plan, side, current, k, steps);
      assert Run(steps, k + 1, start) == Progress(p.events + it.events, p.orders + it.orders, it.failed, it.next);
      assert bot.client.log == old(bot.client.log) + (p.events + it.events) by {
        assert bot.client.log == logBefore + it.events;
      }
      if stepFailed {
        assert p.orders + it.orders == orders;
        FailureIsFinal(steps, k + 1, |plan.prices|, start);
        return orders, true;
      }
      if order.Some? {
        orders := orders + [order.value];
      }
    }
    failed := false;
  }

  /** The buy loop, the sell loop and the return value, normal or from an exception handler. */
  method PlaceGridLoops(bot: Bot, plan: GridPlan, current: real, ghost buySteps: Step, ghost sellSteps: Step)
    returns (r: Option<GridResult>)
    requires bot.client.Valid()
    requires IsGridSteps(buySteps, plan, Buy, current, bot.round, bot.client.script)
    requires IsGridSteps(sellSteps, plan, Sell, current, bot.round, bot.client.script)
    modifies bot.client
    ensures bot.client.Valid()
    ensures var l := LoopsWith(buySteps, sellSteps, |plan.prices|, old(bot.client.cursor));
      bot.client.log == old(bot.client.log) + l.events && r == l.result
  {
    var buys, buysFailed := GridLoop(bot, plan, Buy, current, buySteps);
    if buysFailed {
      return GridOutcome(buys, [], true);
    }
    var sells, sellsFailed := GridLoop(bot, plan, Sell, current, sellSteps);
    r := GridOutcome(buys, sells, sellsFailed);
  }

  method PlaceGridOrders(bot: Bot, symbol: string, lower: real, upper: real, levels: int, quantity: real, orderType: string)
    returns (r: Option<GridResult>)
    requires bot.client.Valid()
    modifies bot.client
    ensures bot.client.Valid()
    ensures var t := GridTrace(symbol, lower, upper, levels, quantity, orderType, bot.round, bot.client.script, old(bot.client.cursor));
      bot.client.log == old(bot.client.log) + t.events && r == t.result
  {
    // each failed check logs an error and returns None
    if !GridChecks(symbol, lower, upper, levels, quantity, orderType) {
      return None;
    }
    var kind := ParseGridType(orderType).value;
    var prices := Ladder(lower, upper, levels);
    ghost var loops := GridLoopsOf(bot.round, bot.client.script);
    assert IsGridLoops(loops, bot.round, bot.client.script);
    r := PlaceFormattedGrid(bot, symbol, kind, quantity, prices, loops);
  }

  /** `place_grid_orders` from the quantity formatting on. */
  method PlaceFormattedGrid(bot: Bot, symbol: string, kind: GridKind, quantity: real, prices: seq<real>, ghost loops: Loops)
    returns (r: Option<GridResult>)
    requires bot.client.Valid() && IsGridLoops(loops, bot.round, bot.client.script)
    modifies bot.client
    ensures bot.client.Valid()
    ensures var t := GridFormatted(symbol, kind, quantity, prices, bot.round, bot.client.script, old(bot.client.cursor), loops);
      bot.client.log == old(bot.client.log) + t.events && r == t.result
  {
    var formattedQuantity := bot.FormatQuantity(symbol, quantity);
    if formattedQuantity.None? {
      return None;
    }
    ghost var log1 := bot.client.log;
    assert log1 == old(bot.client.log) + [log1[|log1| - 1]];
    r := PlaceGridFromTicker(bot, GridPlan(symbol, kind, formattedQuantity.value, prices), loops);
  }

  /** The `futures_symbol_ticker` call and the two loops, inside the `try`. */
  method PlaceGridFromTicker(bot: Bot, plan: GridPlan, ghost loops: Loops) returns (r: Option<GridResult>)
    requires bot.client.Valid() && IsGridLoops(loops, bot.round, bot.client.script)
    modifies bot.client
    ensures bot.client.Valid()
    ensures var t := GridFromTicker(plan, bot.client.script, old(bot.client.cursor), loops);
      bot.client.log == old(bot.client.log) + t.events && r == t.result
  {
    var current := bot.client.FuturesSymbolTicker(plan.symbol);
    if current.None? {
      return None;
    }
    ghost var log1 := bot.client.log;
    assert log1 == old(bot.client.log) + [log1[|log1| - 1]];
    ghost var buySteps := GridSteps(plan, Buy, current.value, bot.round, bot.client.script);
    ghost var sellSteps := GridSteps(plan, Sell, current.value, bot.round, bot.client.script);
    assert IsGridSteps(buySteps, plan, Buy, current.value, bot.round, bot.client.script);
    assert IsGridSteps(sellSteps, plan, Sell, current.value, bot.round, bot.client.script);
    assert GridLoops(plan, current.value, bot.round, bot.client.script, bot.client.cursor)
        == LoopsWith(buySteps, sellSteps, |plan.prices|, bot.client.cursor);
    r := PlaceGridLoops(bot, plan, current.value, buySteps, sellSteps);
  }
}
