/** TWAP: a total quantity split into equal clips, one order per interval, with a blocking
    pause between orders; a failure stops the run and returns the orders placed so far. */
module Twap {
  import opened Text
  import opened Exchange
  import opened BasicBot
  import opened Placement

  datatype TwapKind = TwapMarket | TwapLimit

  /** `order_type in ['MARKET', 'LIMIT']`: an exact, case-sensitive match. */
  function ParseTwapType(s: string): Option<TwapKind>
  {
    if s == "MARKET" then Some(TwapMarket) else if s == "LIMIT" then Some(TwapLimit) else None
  }

  /** Only the exact spellings MARKET and LIMIT are accepted. */
  lemma ParseTwapTypeExact(s: string)
    ensures ParseTwapType(s).Some? <==> s == "MARKET" || s == "LIMIT"
    ensures ParseTwapType(s) == Some(TwapLimit) <==> s == "LIMIT"
  {
  }

  /** The checks `place_twap_order` makes before any remote call. */
  predicate TwapChecks(symbol: string, side: string, total: real, duration: int, intervals: int, orderType: string)
  {
    && ValidSymbol(symbol) && ParseSide(side).Some? && ValidQuantity(total)
    && duration > 0 && intervals > 0 && ParseTwapType(orderType).Some?
  }

  /** `total_quantity / num_intervals`: the clips add up to the total. */
  function ClipQuantity(total: real, intervals: int): (clip: real)
    requires intervals > 0
    ensures clip * intervals as real == total
    ensures total > 0.0 ==> 0.0 < clip <= total
  {
    var n := intervals as real;
    var clip := total / n;
    assert total > 0.0 ==> (n - 1.0) * clip >= 0.0 by {
      if total > 0.0 {
        assert n - 1.0 >= 0.0 && clip > 0.0;
        assert (n - 1.0) * clip >= 0.0 * clip;
      }
    }
    assert total - clip == clip * (n - 1.0);
    clip
  }

  /** `(duration_minutes * 60) / num_intervals`: the intervals add up to the duration. */
  function IntervalSeconds(duration: int, intervals: int): (seconds: real)
    requires intervals > 0
    ensures seconds * intervals as real == (duration * 60) as real
    ensures duration > 0 ==> seconds > 0.0
  {
    (duration * 60) as real / intervals as real
  }

  /** The limit price of a LIMIT clip: 0.1% below the ticker for a buy, 0.1% above for a sell. */
  function LimitOffsetPrice(side: Side, ticker: real): (price: real)
    ensures price - ticker == (if side == Buy then -ticker else ticker) / 1000.0
    ensures ticker > 0.0 ==> (side == Buy <==> price < ticker) && (side == Sell <==> price > ticker)
  {
    if side == Buy then
      assert ticker * 0.999 - ticker == -ticker / 1000.0;
      ticker * 0.999
    else
      assert ticker * 1.001 - ticker == ticker / 1000.0;
      assert side == Sell && (ticker > 0.0 ==> ticker / 1000.0 > 0.0);
      ticker * 1.001
  }

  /** What the loop works with once the checks and the clip formatting have passed. */
  datatype TwapPlan = TwapPlan(symbol: string, side: Side, kind: TwapKind, clip: real, pause: real, intervals: nat)

  /** Every clip order: the plan's symbol, side and clip; MARKET, or LIMIT immediate-or-cancel at some price. */
  predicate ClipRequest(plan: TwapPlan, q: OrderRequest)
  {
    && q.symbol == plan.symbol && q.side == plan.side && q.quantity == plan.clip
    && q.stopPrice.None? && q.reduceOnly.None?
    && match plan.kind
       case TwapMarket => q.kind == Market && q.price.None? && q.timeInForce.None?
       case TwapLimit => q.kind == Limit && q.price.Some? && q.timeInForce == Some(IOC)
  }

  function ClipRequestOf(plan: TwapPlan): OrderRequest -> bool
  {
    q => ClipRequest(plan, q)
  }

  /** A LIMIT clip priced from the ticker reply `script[a]`: the offset price formatted with the
      precision lookup `script[a + 1]` that follows it. */
  predicate PricedAt(plan: TwapPlan, round: Rounder, script: seq<Reply>, a: nat, q: OrderRequest)
  {
    && ReplyAt(script, a).TickerReply?
    && q.price == Formatted(ReplyAt(script, a + 1), plan.symbol, LimitOffsetPrice(plan.side, ReplyAt(script, a).price), PricePrecision, round)
  }

  /** A clip whose price, for a LIMIT plan, comes from some ticker reply of the script. */
  ghost predicate PricedClip(plan: TwapPlan, round: Rounder, script: seq<Reply>, q: OrderRequest)
  {
    plan.kind == TwapLimit ==> exists a: nat :: PricedAt(plan, round, script, a, q)
  }

  ghost function PricedClipOf(plan: TwapPlan, round: Rounder, script: seq<Reply>): OrderRequest -> bool
  {
    q => PricedClip(plan, round, script, q)
  }

  function MarketClipRequest(plan: TwapPlan): OrderRequest
  {
    OrderRequest(plan.symbol, plan.side, Market, plan.clip, None, None, None, None)
  }

  function LimitClipRequest(plan: TwapPlan, price: real): OrderRequest
  {
    OrderRequest(plan.symbol, plan.side, Limit, plan.clip, Some(price), None, Some(IOC), None)
  }

  /** The pause after the order of iteration i: none after the last iteration. */
  function PauseAfter(plan: TwapPlan, i: nat): seq<Event>
  {
    if i < plan.intervals - 1 then [Pause(plan.pause)] else []
  }

  /** One `futures_create_order` call of iteration i, receiving `script[at]`, and the pause after it. */
  function PlaceClip(plan: TwapPlan, i: nat, request: OrderRequest, script: seq<Reply>, at: nat): Progress
  {
    var create := Request(CreateOrder(request), ReplyAt(script, at));
    match OrderResult(create.reply)
    case None => Progress([create], [], true, at + 1)
    case Some(order) => Progress([create] + PauseAfter(plan, i), [order], false, at + 1)
  }

  /** Iteration i of the loop, whose first remote call receives `script[at]`: the events, the
      order it adds (none or one), whether a remote call raised, and where the next call reads. */
  function TwapIteration(plan: TwapPlan, i: nat, round: Rounder, script: seq<Reply>, at: nat): Progress
  {
    match plan.kind
    case TwapMarket => PlaceClip(plan, i, MarketClipRequest(plan), script, at)
    case TwapLimit =>
      var ticker := Request(SymbolTicker(plan.symbol), ReplyAt(script, at));
      if !ticker.reply.TickerReply? then Progress([ticker], [], true, at + 1)
      else
        var info := Request(ExchangeInfo, ReplyAt(script, at + 1));
        var price := Formatted(info.reply, plan.symbol, LimitOffsetPrice(plan.side, ticker.reply.price), PricePrecision, round);
        // `continue`: no order and no pause
        if price.None? then Progress([ticker, info], [], false, at + 2)
        else
          var placed := PlaceClip(plan, i, LimitClipRequest(plan, price.value), script, at + 2);
          Progress([ticker, info] + placed.events, placed.orders, placed.failed, placed.next)
  }

  /** The iterations of the loop: iteration k, its first remote call receiving `script[a]`. */
  function TwapSteps(plan: TwapPlan, round: Rounder, script: seq<Reply>): Step
  {
    (k: nat, a: nat) => TwapIteration(plan, k, round, script, a)
  }

  /** `steps` are the iterations of the loop; the methods below reason about them without
      unfolding them. */
  ghost predicate IsTwapSteps(steps: Step, plan: TwapPlan, round: Rounder, script: seq<Reply>)
  {
    forall k: nat, a: nat {:trigger TwapIteration(plan, k, round, script, a)} :: steps(k, a) == TwapIteration(plan, k, round, script, a)
  }

  /** What `place_twap_order` does when its remote calls receive `script[start]`, `script[start + 1]`, ... */
  function TwapTrace(symbol: string, side: string, total: real, duration: int, intervals: int, orderType: string,
                     round: Rounder, script: seq<Reply>, start: nat): Trace<Option<seq<OrderResponse>>>
  {
    if !TwapChecks(symbol, side, total, duration, intervals, orderType) then Trace([], None)
    else
      var info := Request(ExchangeInfo, ReplyAt(script, start));
      var clip := Formatted(info.reply, symbol, ClipQuantity(total, intervals), QuantityPrecision, round);
      if clip.None? then Trace([info], None)
      else
        var plan := TwapPlan(symbol, ParseSide(side).value, ParseTwapType(orderType).value, clip.value,
                             IntervalSeconds(duration, intervals), intervals);
        var p := Run(TwapSteps(plan, round, script), intervals, start + 1);
        // `return orders` after the loop; `return orders if orders else None` after an exception
        Trace([info] + p.events, if p.failed && p.orders == [] then None else Some(p.orders))
  }

  // ---- Properties of one iteration ----------------------------------------------------------

  /** One clip: one `futures_create_order` call with the given request, and a pause after an
      accepted order unless it is the last iteration's. */
  lemma PlaceClipFacts(plan: TwapPlan, i: nat, request: OrderRequest, script: seq<Reply>, at: nat)
    ensures var c := PlaceClip(plan, i, request, script, at);
      && CreateRequests(c.events) == [request] && RequestCount(c.events) == 1 && c.next == at + 1
      && c.orders == PlacedOrders(c.events) && (c.failed <==> !ReplyAt(script, at).OrderReply?)
      && (c.failed ==> c.orders == [])
      && (forall x | x in Pauses(c.events) :: x == plan.pause)
      && |Pauses(c.events)| == (if c.orders != [] && i < plan.intervals - 1 then 1 else 0)
  {
    if ReplyAt(script, at).OrderReply? {
      PlaceClipPlaced(plan, i, request, script, at);
    } else {
      var create := Request(CreateOrder(request), ReplyAt(script, at));
      CollectPair(create, create, RequestedCall);
      CollectPair(create, create, CreatedRequest);
      CollectPair(create, create, PlacedOrder);
      CollectPair(create, create, PauseOf);
    }
  }

  lemma PlaceClipPlaced(plan: TwapPlan, i: nat, request: OrderRequest, script: seq<Reply>, at: nat)
    requires ReplyAt(script, at).OrderReply?
    ensures var c := PlaceClip(plan, i, request, script, at);
      && CreateRequests(c.events) == [request] && RequestCount(c.events) == 1
      && c.orders == PlacedOrders(c.events) == [ReplyAt(script, at).response] && !c.failed
      && Pauses(c.events) == (if i < plan.intervals - 1 then [plan.pause] else [])
  {
    var create := Request(CreateOrder(request), ReplyAt(script, at));
    var pause := Pause(plan.pause);
    assert PauseAfter(plan, i) == (if i < plan.intervals - 1 then [pause] else []);
    assert [create] + [pause] == [create, pause];
    assert [create] + [] == [create];
    CollectPair(create, pause, RequestedCall);
    CollectPair(create, pause, CreatedRequest);
    CollectPair(create, pause, PlacedOrder);
    CollectPair(create, pause, PauseOf);
  }

  /** The events of a LIMIT iteration before its order: the ticker call and the price lookup. */
  lemma LimitPrefixFacts(symbol: string, tickerReply: Reply, infoReply: Reply)
    ensures var ticker := Request(SymbolTicker(symbol), tickerReply);
      var info := Request(ExchangeInfo, infoReply);
      && RequestCount([ticker]) == 1 && CreateRequests([ticker]) == [] && PlacedOrders([ticker]) == [] && Pauses([ticker]) == []
      && RequestCount([ticker, info]) == 2 && CreateRequests([ticker, info]) == [] && PlacedOrders([ticker, info]) == []
      && Pauses([ticker, info]) == []
  {
    var ticker := Request(SymbolTicker(symbol), tickerReply);
    var info := Request(ExchangeInfo, infoReply);
    ObserveShort(ticker, info, info);
    CollectSnoc([], ticker, PauseOf);
    assert [] + [ticker] == [ticker];
    CollectSnoc([ticker], info, PauseOf);
    assert [ticker] + [info] == [ticker, info];
  }

  /** An iteration's next call reads the reply after those its own calls received. */
  lemma IterationNext(plan: TwapPlan, i: nat, round: Rounder, script: seq<Reply>, at: nat)
    ensures var it := TwapIteration(plan, i, round, script, at);
      it.next == at + RequestCount(it.events)
  {
    if plan.kind == TwapLimit {
      var ticker := Request(SymbolTicker(plan.symbol), ReplyAt(script, at));
      var info := Request(ExchangeInfo, ReplyAt(script, at + 1));
      LimitPrefixFacts(plan.symbol, ticker.reply, info.reply);
      if ticker.reply.TickerReply? {
        var price := Formatted(info.reply, plan.symbol, LimitOffsetPrice(plan.side, ticker.reply.price), PricePrecision, round);
        if price.Some? {
          var placed := PlaceClip(plan, i, LimitClipRequest(plan, price.value), script, at + 2);
          PlaceClipFacts(plan, i, LimitClipRequest(plan, price.value), script, at + 2);
          CollectAppend([ticker, info], placed.events, RequestedCall);
        }
      }
    } else {
      PlaceClipFacts(plan, i, MarketClipRequest(plan), script, at);
    }
  }

  /** One iteration adds at most one order, the one its log shows placed; a failed iteration adds none. */
  lemma IterationOrders(plan: TwapPlan, i: nat, round: Rounder, script: seq<Reply>, at: nat)
    ensures var it := TwapIteration(plan, i, round, script, at);
      it.orders == PlacedOrders(it.events) && |it.orders| <= 1 && (it.failed ==> it.orders == [])
  {
    if plan.kind == TwapLimit {
      var ticker := Request(SymbolTicker(plan.symbol), ReplyAt(script, at));
      var info := Request(ExchangeInfo, ReplyAt(script, at + 1));
      LimitPrefixFacts(plan.symbol, ticker.reply, info.reply);
      if ticker.reply.TickerReply? {
        var price := Formatted(info.reply, plan.symbol, LimitOffsetPrice(plan.side, ticker.reply.price), PricePrecision, round);
        if price.Some? {
          var placed := PlaceClip(plan, i, LimitClipRequest(plan, price.value), script, at + 2);
          PlaceClipFacts(plan, i, LimitClipRequest(plan, price.value), script, at + 2);
          CollectAppend([ticker, info], placed.events, PlacedOrder);
        }
      }
    } else {
      PlaceClipFacts(plan, i, MarketClipRequest(plan), script, at);
    }
  }

  /** One iteration sends at most one order, a clip order of the plan; a LIMIT clip is priced
      from the ticker the iteration read first, with the precision lookup right after it. */
  lemma IterationRequests(plan: TwapPlan, i: nat, round: Rounder, script: seq<Reply>, at: nat)
    ensures var it := TwapIteration(plan, i, round, script, at);
      && |CreateRequests(it.events)| <= 1 && (forall q | q in CreateRequests(it.events) :: ClipRequest(plan, q))
      && (forall q | q in CreateRequests(it.events) :: plan.kind == TwapLimit ==> PricedAt(plan, round, script, at, q))
  {
    if plan.kind == TwapLimit {
      var ticker := Request(SymbolTicker(plan.symbol), ReplyAt(script, at));
      var info := Request(ExchangeInfo, ReplyAt(script, at + 1));
      LimitPrefixFacts(plan.symbol, ticker.reply, info.reply);
      if ticker.reply.TickerReply? {
        var price := Formatted(info.reply, plan.symbol, LimitOffsetPrice(plan.side, ticker.reply.price), PricePrecision, round);
        if price.Some? {
          var placed := PlaceClip(plan, i, LimitClipRequest(plan, price.value), script, at + 2);
          PlaceClipFacts(plan, i, LimitClipRequest(plan, price.value), script, at + 2);
          CollectAppend([ticker, info], placed.events, CreatedRequest);
          assert ClipRequest(plan, LimitClipRequest(plan, price.value));
        }
      }
    } else {
      PlaceClipFacts(plan, i, MarketClipRequest(plan), script, at);
      assert ClipRequest(plan, MarketClipRequest(plan));
    }
  }

  /** One iteration pauses once, for one interval, exactly when it placed an order and is not the last. */
  lemma IterationPauses(plan: TwapPlan, i: nat, round: Rounder, script: seq<Reply>, at: nat)
    ensures var it := TwapIteration(plan, i, round, script, at);
      && (forall x | x in Pauses(it.events) :: x == plan.pause)
      && |Pauses(it.events)| == (if it.orders != [] && i < plan.intervals - 1 then 1 else 0)
  {
    if plan.kind == TwapLimit {
      var ticker := Request(SymbolTicker(plan.symbol), ReplyAt(script, at));
      var info := Request(ExchangeInfo, ReplyAt(script, at + 1));
      LimitPrefixFacts(plan.symbol, ticker.reply, info.reply);
      if ticker.reply.TickerReply? {
        var price := Formatted(info.reply, plan.symbol, LimitOffsetPrice(plan.side, ticker.reply.price), PricePrecision, round);
        if price.Some? {
          var placed := PlaceClip(plan, i, LimitClipRequest(plan, price.value), script, at + 2);
          PlaceClipFacts(plan, i, LimitClipRequest(plan, price.value), script, at + 2);
          CollectAppend([ticker, info], placed.events, PauseOf);
        }
      }
    } else {
      PlaceClipFacts(plan, i, MarketClipRequest(plan), script, at);
    }
  }

  // ---- Properties of the loop ---------------------------------------------------------------

  /** The iterations read the replies in order, place at most one order each, send only clip
      orders of the plan and pause for one interval after each order but the last iteration's. */
  lemma TwapStepsFacts(plan: TwapPlan, round: Rounder, script: seq<Reply>)
    ensures ReadsInOrder(TwapSteps(plan, round, script))
    ensures PlacesAtMostOne(TwapSteps(plan, round, script))
    ensures RequestsSatisfy(TwapSteps(plan, round, script), ClipRequestOf(plan))
  {
    var steps := TwapSteps(plan, round, script);
    forall k: nat, a: nat ensures steps(k, a).next == a + RequestCount(steps(k, a).events) {
      IterationNext(plan, k, round, script, a);
    }
    forall k: nat, a: nat
      ensures && steps(k, a).orders == PlacedOrders(steps(k, a).events) && |steps(k, a).orders| <= 1
              && (steps(k, a).failed ==> steps(k, a).orders == [])
    {
      IterationOrders(plan, k, round, script, a);
    }
    forall k: nat, a: nat, q | q in CreateRequests(steps(k, a).events) ensures ClipRequestOf(plan)(q) {
      IterationRequests(plan, k, round, script, a);
    }
  }

  /** Every LIMIT clip the iterations send is priced from a ticker reply of the script. */
  lemma TwapStepsPriced(plan: TwapPlan, round: Rounder, script: seq<Reply>)
    ensures RequestsSatisfy(TwapSteps(plan, round, script), PricedClipOf(plan, round, script))
  {
    var steps := TwapSteps(plan, round, script);
    forall k: nat, a: nat, q | q in CreateRequests(steps(k, a).events) ensures PricedClipOf(plan, round, script)(q) {
      IterationRequests(plan, k, round, script, a);
      if plan.kind == TwapLimit {
        assert PricedAt(plan, round, script, a, q);
      }
    }
  }

  lemma TwapStepsPause(plan: TwapPlan, round: Rounder, script: seq<Reply>)
    ensures var steps := TwapSteps(plan, round, script);
      && (forall k: nat, a: nat, x | x in Pauses(steps(k, a).events) :: x == plan.pause)
      && (forall k: nat, a: nat :: |Pauses(steps(k, a).events)| == (if steps(k, a).orders != [] && k < plan.intervals - 1 then 1 else 0))
  {
    var steps := TwapSteps(plan, round, script);
    forall k: nat, a: nat
      ensures && (forall x | x in Pauses(steps(k, a).events) :: x == plan.pause)
              && |Pauses(steps(k, a).events)| == (if steps(k, a).orders != [] && k < plan.intervals - 1 then 1 else 0)
    {
      IterationPauses(plan, k, round, script, a);
    }
  }

  /** The exchange accepts the orders placed with the replies `script[from]` to `script[from + count - 1]`. */
  predicate AcceptsOrders(script: seq<Reply>, from: nat, count: nat)
  {
    forall k | from <= k < from + count :: ReplyAt(script, k).OrderReply?
  }

  /** A MARKET iteration given an accepted order: one call, one order, no failure. */
  lemma TwapMarketSteps(plan: TwapPlan, round: Rounder, script: seq<Reply>, from: nat, count: nat)
    requires plan.kind == TwapMarket && AcceptsOrders(script, from, count)
    ensures var steps := TwapSteps(plan, round, script);
      forall k: nat, a: nat | k < count && from <= a < from + count ::
        && !steps(k, a).failed && steps(k, a).next == a + 1
        && |steps(k, a).orders| == 1 && |CreateRequests(steps(k, a).events)| == 1
  {
    var steps := TwapSteps(plan, round, script);
    forall k: nat, a: nat | k < count && from <= a < from + count
      ensures && !steps(k, a).failed && steps(k, a).next == a + 1
              && |steps(k, a).orders| == 1 && |CreateRequests(steps(k, a).events)| == 1
    {
      PlaceClipFacts(plan, k, MarketClipRequest(plan), script, a);
      assert ReplyAt(script, a).OrderReply?;
    }
  }

  // ---- Properties of place_twap_order -------------------------------------------------------

  /** A failed check returns None before any remote call; otherwise the clip's precision lookup comes first. */
  lemma TwapCalls(symbol: string, side: string, total: real, duration: int, intervals: int, orderType: string,
                  round: Rounder, script: seq<Reply>, start: nat)
    ensures var t := TwapTrace(symbol, side, total, duration, intervals, orderType, round, script, start);
      && (!TwapChecks(symbol, side, total, duration, intervals, orderType) ==> t.events == [] && t.result == None)
      && (TwapChecks(symbol, side, total, duration, intervals, orderType) ==>
            Calls(t.events) != [] && Calls(t.events)[0] == ExchangeInfo)
      && (TwapChecks(symbol, side, total, duration, intervals, orderType) && SymbolInfoOf(ReplyAt(script, start), symbol).None? ==>
            t.result == None && |t.events| == 1)
  {
    var t := TwapTrace(symbol, side, total, duration, intervals, orderType, round, script, start);
    if TwapChecks(symbol, side, total, duration, intervals, orderType) {
      var info := Request(ExchangeInfo, ReplyAt(script, start));
      assert t.events[0] == info;
      ObserveAppend([info], t.events[1..]);
      assert t.events == [info] + t.events[1..];
      ObserveShort(info, info, info);
    }
  }

  /** The returned list is exactly the orders placed, in placement order, including after a failure
      part-way; None only when no order was placed. Every order is a clip of the formatted
      quantity on the upper-cased side, every pause one interval long. */
  lemma TwapResult(symbol: string, side: string, total: real, duration: int, intervals: int, orderType: string,
                   round: Rounder, script: seq<Reply>, start: nat)
    ensures var t := TwapTrace(symbol, side, total, duration, intervals, orderType, round, script, start);
      && (t.result.Some? ==> t.result.value == PlacedOrders(t.events))
      && (t.result.None? ==> PlacedOrders(t.events) == [])
      && (PlacedOrders(t.events) != [] ==> t.result == Some(PlacedOrders(t.events)))
      && (TwapChecks(symbol, side, total, duration, intervals, orderType) ==> |PlacedOrders(t.events)| <= intervals)
      && (forall q | q in CreateRequests(t.events) ::
            && q.symbol == symbol && SideName(q.side) == Upper(side)
            && Formatted(ReplyAt(script, start), symbol, ClipQuantity(total, intervals), QuantityPrecision, round) == Some(q.quantity)
            && (orderType == "MARKET" ==> q.kind == Market) && (orderType == "LIMIT" ==> q.kind == Limit && q.timeInForce == Some(IOC)))
      && (forall d | d in Pauses(t.events) :: d == IntervalSeconds(duration, intervals))
  {
    var t := TwapTrace(symbol, side, total, duration, intervals, orderType, round, script, start);
    if TwapChecks(symbol, side, total, duration, intervals, orderType) {
      var info := Request(ExchangeInfo, ReplyAt(script, start));
      ObserveShort(info, info, info);
      CollectSnoc([], info, PauseOf);
      assert [] + [info] == [info];
      var clip := Formatted(info.reply, symbol, ClipQuantity(total, intervals), QuantityPrecision, round);
      if clip.Some? {
        var plan := TwapPlan(symbol, ParseSide(side).value, ParseTwapType(orderType).value, clip.value,
                             IntervalSeconds(duration, intervals), intervals);
        var steps := TwapSteps(plan, round, script);
        var p := Run(steps, intervals, start + 1);
        TwapStepsFacts(plan, round, script);
        TwapStepsPause(plan, round, script);
        RunOrders(steps, intervals, start + 1);
        RunRequests(steps, ClipRequestOf(plan), intervals, start + 1);
        RunPauseLengths(steps, plan.pause, intervals, start + 1);
        ObserveAppend([info], p.events);
      }
    }
  }

  /** A LIMIT order of `place_twap_order` is priced at a ticker price the exchange quoted, moved
      0.1% below it for a buy and above it for a sell, and formatted with the precision lookup
      made right after that ticker call. */
  lemma TwapLimitPrices(symbol: string, side: string, total: real, duration: int, intervals: int,
                        round: Rounder, script: seq<Reply>, start: nat)
    ensures var t := TwapTrace(symbol, side, total, duration, intervals, "LIMIT", round, script, start);
      forall q | q in CreateRequests(t.events) :: exists a: nat ::
        && ReplyAt(script, a).TickerReply?
        && q.price == Formatted(ReplyAt(script, a + 1), symbol, LimitOffsetPrice(q.side, ReplyAt(script, a).price), PricePrecision, round)
  {
    var t := TwapTrace(symbol, side, total, duration, intervals, "LIMIT", round, script, start);
    if TwapChecks(symbol, side, total, duration, intervals, "LIMIT") {
      var info := Request(ExchangeInfo, ReplyAt(script, start));
      var clip := Formatted(info.reply, symbol, ClipQuantity(total, intervals), QuantityPrecision, round);
      CollectPair(info, info, CreatedRequest);
      if clip.Some? {
        assert ParseTwapType("LIMIT") == Some(TwapLimit);
        var plan := TwapPlan(symbol, ParseSide(side).value, TwapLimit, clip.value, IntervalSeconds(duration, intervals), intervals);
        var steps := TwapSteps(plan, round, script);
        var p := Run(steps, intervals, start + 1);
        assert t.events == [info] + p.events;
        TwapStepsFacts(plan, round, script);
        TwapStepsPriced(plan, round, script);
        RunRequests(steps, ClipRequestOf(plan), intervals, start + 1);
        RunRequests(steps, PricedClipOf(plan, round, script), intervals, start + 1);
        CollectAppend([info], p.events, CreatedRequest);
        forall q | q in CreateRequests(t.events)
          ensures exists a: nat ::
            && ReplyAt(script, a).TickerReply?
            && q.price == Formatted(ReplyAt(script, a + 1), symbol, LimitOffsetPrice(q.side, ReplyAt(script, a).price), PricePrecision, round)
        {
          assert q in CreateRequests(p.events);
          assert ClipRequestOf(plan)(q);
          assert PricedClipOf(plan, round, script)(q);
          var a: nat :| PricedAt(plan, round, script, a, q);
          assert q.side == plan.side;
        }
      }
    } else {
      assert CreateRequests(t.events) == [];
    }
  }

  /** A MARKET loop whose orders are all accepted places one order per interval, with a pause
      after each but the last. */
  lemma TwapMarketRun(plan: TwapPlan, round: Rounder, script: seq<Reply>, at: nat)
    requires plan.kind == TwapMarket && plan.intervals > 0 && AcceptsOrders(script, at, plan.intervals)
    ensures var p := Run(TwapSteps(plan, round, script), plan.intervals, at);
      && !p.failed && p.orders == PlacedOrders(p.events) && |p.orders| == plan.intervals
      && |CreateRequests(p.events)| == plan.intervals && |Pauses(p.events)| == plan.intervals - 1
      && RequestCount(p.events) == plan.intervals
  {
    var steps := TwapSteps(plan, round, script);
    var n := plan.intervals;
    TwapMarketSteps(plan, round, script, at, n);
    RunAllPlaced(steps, n, at);
    RunAllPlaced(steps, n - 1, at);
    TwapStepsFacts(plan, round, script);
    TwapStepsPause(plan, round, script);
    RunReadsInOrder(steps, n, at);
    RunOrders(steps, n, at);
    RunPauseCount(steps, n, n, at);
  }

  /** A MARKET run with no failure issues exactly n orders and returns all n, with n - 1 pauses. */
  lemma TwapMarketWithoutFailure(symbol: string, side: string, total: real, duration: int, intervals: int,
                                 round: Rounder, script: seq<Reply>, start: nat)
    requires TwapChecks(symbol, side, total, duration, intervals, "MARKET")
    requires SymbolInfoOf(ReplyAt(script, start), symbol).Some?
    requires AcceptsOrders(script, start + 1, intervals)
    ensures var t := TwapTrace(symbol, side, total, duration, intervals, "MARKET", round, script, start);
      && t.result.Some? && |t.result.value| == intervals && t.result.value == PlacedOrders(t.events)
      && |CreateRequests(t.events)| == intervals && |Pauses(t.events)| == intervals - 1
      && RequestCount(t.events) == intervals + 1
  {
    var info := Request(ExchangeInfo, ReplyAt(script, start));
    ObserveShort(info, info, info);
    CollectSnoc([], info, PauseOf);
    assert [] + [info] == [info];
    var clip := Formatted(info.reply, symbol, ClipQuantity(total, intervals), QuantityPrecision, round);
    var plan := TwapPlan(symbol, ParseSide(side).value, TwapMarket, clip.value, IntervalSeconds(duration, intervals), intervals);
    var p := Run(TwapSteps(plan, round, script), intervals, start + 1);
    TwapMarketRun(plan, round, script, start + 1);
    ObserveAppend([info], p.events);
  }

  // ---- place_twap_order ---------------------------------------------------------------------

  /** The `futures_create_order` call of iteration i and the `time.sleep` after it. */
  method PlaceClipOrder(bot: Bot, plan: TwapPlan, i: nat, request: OrderRequest) returns (order: Option<OrderResponse>)
    requires bot.client.Valid()
    modifies bot.client
    ensures bot.client.Valid()
    ensures var c := PlaceClip(plan, i, request, bot.client.script, old(bot.client.cursor));
      && bot.client.log == old(bot.client.log) + c.events && bot.client.cursor == c.next
      && c.failed == order.None? && c.orders == (if order.Some? then [order.value] else [])
  {
    order := bot.client.FuturesCreateOrder(request);
    if order.Some? && i < plan.intervals - 1 {
      bot.client.Sleep(plan.pause);
    }
  }

  /** One iteration of the loop of `place_twap_order`: the order it placed, if any, and whether a
      remote call raised. */
  method TwapStep(bot: Bot, plan: TwapPlan, i: nat, ghost steps: Step) returns (order: Option<OrderResponse>, failed: bool)
    requires bot.client.Valid() && IsTwapSteps(steps, plan, bot.round, bot.client.script)
    modifies bot.client
    ensures bot.client.Valid()
    ensures var it := steps(i, old(bot.client.cursor));
      && bot.client.log == old(bot.client.log) + it.events
      && bot.client.cursor == it.next
      && failed == it.failed && it.orders == (if order.Some? then [order.value] else [])
    ensures failed ==> order.None?
  {
    ghost var it := TwapIteration(plan, i, bot.round, bot.client.script, bot.client.cursor);
    assert steps(i, bot.client.cursor) == it;
    if plan.kind == TwapMarket {
      order := PlaceClipOrder(bot, plan, i, MarketClipRequest(plan));
    } else {
      var ticker := bot.client.FuturesSymbolTicker(plan.symbol);
      if ticker.None? {
        return None, true;
      }
      var limitPrice := LimitOffsetPrice(plan.side, ticker.value);
      var formattedPrice := bot.FormatPrice(plan.symbol, limitPrice);
      if formattedPrice.None? {
        return None, false;
      }
      order := PlaceClipOrder(bot, plan, i, LimitClipRequest(plan, formattedPrice.value));
    }
    failed := order.None?;
  }

  /** The `for i in range(num_intervals)` loop of `place_twap_order`, inside its `try`: the
      orders placed, and whether a remote call raised and ended it. */
  method TwapRun(bot: Bot, plan: TwapPlan, ghost steps: Step) returns (orders: seq<OrderResponse>, failed: bool)
    requires bot.client.Valid() && IsTwapSteps(steps, plan, bot.round, bot.client.script)
    modifies bot.client
    ensures bot.client.Valid()
    ensures var p := Run(steps, plan.intervals, old(bot.client.cursor));
      bot.client.log == old(bot.client.log) + p.events && orders == p.orders && failed == p.failed
  {
    ghost var start := bot.client.cursor;
    orders := [];
    for i := 0 to plan.intervals
      invariant bot.client.Valid()
      invariant !Run(steps, i, start).failed
      invariant bot.client.log == old(bot.client.log) + Run(steps, i, start).events
      invariant bot.client.cursor == Run(steps, i, start).next
      invariant orders == Run(steps, i, start).orders
    {
      ghost var p := Run(steps, i, start);
      ghost var it := steps(i, p.next);
      ghost var logBefore := bot.client.log;
      var order, stepFailed := TwapStep(bot, plan, i, steps);
      assert Run(steps, i + 1, start) == Progress(p.events + it.events, p.orders + it.orders, it.failed, it.next);
      assert bot.client.log == old(bot.client.log) + (p.events + it.events) by {
        assert bot.client.log == logBefore + it.events;
      }
      if stepFailed {
        assert p.orders + it.orders == orders;
        FailureIsFinal(steps, i + 1, plan.intervals, start);
        return orders, true;
      }
      if order.Some? {
        orders := orders + [order.value];
      }
    }
    failed := false;
  }

  method PlaceTwapOrder(bot: Bot, symbol: string, side: string, total: real, duration: int, intervals: int, orderType: string)
    returns (r: Option<seq<OrderResponse>>)
    requires bot.client.Valid()
    modifies bot.client
    ensures bot.client.Valid()
    ensures var t := TwapTrace(symbol, side, total, duration, intervals, orderType, bot.round, bot.client.script, old(bot.client.cursor));
      bot.client.log == old(bot.client.log) + t.events && r == t.result
  {
    // each failed check logs an error and returns None
    if !TwapChecks(symbol, side, total, duration, intervals, orderType) {
      return None;
    }
    r := PlaceCheckedTwap(bot, symbol, side, total, duration, intervals, orderType);
  }

  /** `place_twap_order` once its arguments have passed the checks. */
  method PlaceCheckedTwap(bot: Bot, symbol: string, side: string, total: real, duration: int, intervals: int, orderType: string)
    returns (r: Option<seq<OrderResponse>>)
    requires bot.client.Valid() && TwapChecks(symbol, side, total, duration, intervals, orderType)
    modifies bot.client
    ensures bot.client.Valid()
    ensures var t := TwapTrace(symbol, side, total, duration, intervals, orderType, bot.round, bot.client.script, old(bot.client.cursor));
      bot.client.log == old(bot.client.log) + t.events && r == t.result
  {
    ghost var start := bot.client.cursor;
    var formattedClip := bot.FormatQuantity(symbol, ClipQuantity(total, intervals));
    if formattedClip.None? {
      return None;
    }
    var plan := TwapPlan(symbol, ParseSide(side).value, ParseTwapType(orderType).value, formattedClip.value,
                         IntervalSeconds(duration, intervals), intervals);
    ghost var log1 := bot.client.log;
    ghost var info := log1[|log1| - 1];
    assert log1 == old(bot.client.log) + [info];
    r := PlaceClips(bot, plan);
    ghost var p := Run(TwapSteps(plan, bot.round, bot.client.script), intervals, start + 1);
    assert TwapTrace(symbol, side, total, duration, intervals, orderType, bot.round, bot.client.script, start)
        == Trace([info] + p.events, if p.failed && p.orders == [] then None else Some(p.orders));
  }

  /** The loop of `place_twap_order` and its return value, normal or from an exception handler. */
  method PlaceClips(bot: Bot, plan: TwapPlan) returns (r: Option<seq<OrderResponse>>)
    requires bot.client.Valid()
    modifies bot.client
    ensures bot.client.Valid()
    ensures var p := Run(TwapSteps(plan, bot.round, bot.client.script), plan.intervals, old(bot.client.cursor));
      && bot.client.log == old(bot.client.log) + p.events
      && r == (if p.failed && p.orders == [] then None else Some(p.orders))
  {
    ghost var steps := TwapSteps(plan, bot.round, bot.client.script);
    assert IsTwapSteps(steps, plan, bot.round, bot.client.script);
    var orders, failed := TwapRun(bot, plan, steps);
    // `return orders`, and `return orders if orders else None` in the exception handlers
    r := if failed && orders == [] then None else Some(orders);
  }
}
