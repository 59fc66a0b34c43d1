/** OCO ("one cancels the other") orders, built from two conditional orders on the opposite side:
    a STOP_MARKET stop-loss and a TAKE_PROFIT_MARKET take-profit. If the second cannot be placed,
    the first is cancelled again. */
module Oco {
  import opened Text
  import opened Exchange
  import opened BasicBot

  /** The keys of the `orders` dictionary. */
  datatype OcoLeg = StopLoss | TakeProfit

  /** The dictionary `{'stop_loss': ..., 'take_profit': ...}` returned on success. */
  datatype OcoOrders = OcoOrders(stopLoss: OrderResponse, takeProfit: OrderResponse)

  /** `'SELL' if side.upper() == 'BUY' else 'BUY'` */
  function Opposite(s: Side): (r: Side)
    ensures r != s
  {
    if s == Buy then Sell else Buy
  }

  lemma OppositeInvolutive(s: Side)
    ensures Opposite(Opposite(s)) == s
  {
  }

  // ---- _cancel_oco_orders ----------------------------------------------------------------

  /** The cancel requests `_cancel_oco_orders` sends for the placed orders, whatever the replies. */
  function CancelCalls(symbol: string, placed: seq<(OcoLeg, OrderResponse)>): (r: seq<Call>)
    ensures |r| <= |placed|
    ensures forall c | c in r :: c.CancelOrder? && c.symbol == symbol
  {
    if placed == [] then []
    else
      var prev := CancelCalls(symbol, placed[..|placed| - 1]);
      var order := placed[|placed| - 1].1;
      if order.orderId.Some? then prev + [CancelOrder(symbol, order.orderId.value)] else prev
  }

  /** Exactly the placed orders that carry an id are cancelled. */
  lemma {:induction false} CancelCallsMeaning(symbol: string, placed: seq<(OcoLeg, OrderResponse)>, id: int)
    ensures CancelOrder(symbol, id) in CancelCalls(symbol, placed) <==>
      exists k | 0 <= k < |placed| :: placed[k].1.orderId == Some(id)
  {
    if placed != [] {
      var init := placed[..|placed| - 1];
      CancelCallsMeaning(symbol, init, id);
      assert forall k | 0 <= k < |init| :: init[k] == placed[k];
      if exists k | 0 <= k < |placed| :: placed[k].1.orderId == Some(id) {
        var k :| 0 <= k < |placed| && placed[k].1.orderId == Some(id);
        if k < |init| {
          assert init[k].1.orderId == Some(id);
        }
      }
    }
  }

  /** The events of `_cancel_oco_orders` when its remote calls receive `script[start]`, ...:
      one cancel per order with an id; a failed cancel is swallowed and the loop goes on. */
  function CancelEvents(symbol: string, placed: seq<(OcoLeg, OrderResponse)>, script: seq<Reply>, start: nat): seq<Event>
  {
    if placed == [] then []
    else
      var prev := CancelEvents(symbol, placed[..|placed| - 1], script, start);
      var order := placed[|placed| - 1].1;
      if order.orderId.Some? then
        prev + [Request(CancelOrder(symbol, order.orderId.value), ReplyAt(script, start + RequestCount(prev)))]
      else prev
  }

  /** `_cancel_oco_orders` makes exactly the cancel requests of `CancelCalls`. */
  lemma {:induction false} CancelEventsCalls(symbol: string, placed: seq<(OcoLeg, OrderResponse)>, script: seq<Reply>, start: nat)
    ensures Calls(CancelEvents(symbol, placed, script, start)) == CancelCalls(symbol, placed)
  {
    if placed != [] {
      var prev := CancelEvents(symbol, placed[..|placed| - 1], script, start);
      CancelEventsCalls(symbol, placed[..|placed| - 1], script, start);
      var order := placed[|placed| - 1].1;
      if order.orderId.Some? {
        CollectSnoc(prev, Request(CancelOrder(symbol, order.orderId.value), ReplyAt(script, start + RequestCount(prev))), RequestedCall);
      }
    }
  }

  /** ... and nothing else: no order is placed and no pause is taken. */
  lemma {:induction false} CancelEventsOnlyCancel(symbol: string, placed: seq<(OcoLeg, OrderResponse)>, script: seq<Reply>, start: nat)
    ensures var events := CancelEvents(symbol, placed, script, start);
      Cancels(events) == Calls(events) && CreateRequests(events) == [] && PlacedOrders(events) == [] && Pauses(events) == []
  {
    if placed != [] {
      var prev := CancelEvents(symbol, placed[..|placed| - 1], script, start);
      CancelEventsOnlyCancel(symbol, placed[..|placed| - 1], script, start);
      var order := placed[|placed| - 1].1;
      if order.orderId.Some? {
        ObserveSnoc(prev, Request(CancelOrder(symbol, order.orderId.value), ReplyAt(script, start + RequestCount(prev))));
      }
    }
  }

  /** The cancel requests do not depend on how the exchange answers them. */
  lemma CancelsIgnoreReplies(symbol: string, placed: seq<(OcoLeg, OrderResponse)>, s1: seq<Reply>, n1: nat, s2: seq<Reply>, n2: nat)
    ensures Calls(CancelEvents(symbol, placed, s1, n1)) == Calls(CancelEvents(symbol, placed, s2, n2))
  {
    CancelEventsCalls(symbol, placed, s1, n1);
    CancelEventsCalls(symbol, placed, s2, n2);
  }

  method CancelOcoOrders(bot: Bot, symbol: string, placed: seq<(OcoLeg, OrderResponse)>)
    requires bot.client.Valid()
    modifies bot.client
    ensures bot.client.Valid()
    ensures bot.client.log == old(bot.client.log) + CancelEvents(symbol, placed, bot.client.script, old(bot.client.cursor))
  {
    ghost var start := bot.client.cursor;
    ghost var script := bot.client.script;
    for i := 0 to |placed|
      invariant bot.client.Valid()
      invariant bot.client.log == old(bot.client.log) + CancelEvents(symbol, placed[..i], script, start)
      invariant bot.client.cursor == start + RequestCount(CancelEvents(symbol, placed[..i], script, start))
    {
      ghost var prev := CancelEvents(symbol, placed[..i], script, start);
      assert placed[..i + 1][..i] == placed[..i];
      var order := placed[i].1;
      if order.orderId.Some? {
        var _ := bot.client.FuturesCancelOrder(symbol, order.orderId.value);
        ghost var cancel := Request(CancelOrder(symbol, order.orderId.value), ReplyAt(script, start + RequestCount(prev)));
        assert CancelEvents(symbol, placed[..i + 1], script, start) == prev + [cancel];
        ObserveSnoc(prev, cancel);
      } else {
        assert CancelEvents(symbol, placed[..i + 1], script, start) == prev;
      }
    }
    assert placed[..|placed|] == placed;
  }

  // ---- place_oco_order -------------------------------------------------------------------

  /** The checks `place_oco_order` makes before any remote call (the reference price is only validated). */
  predicate OcoChecks(symbol: string, side: string, quantity: real, price: real, stopPrice: real, limitPrice: real)
  {
    && ValidSymbol(symbol) && ParseSide(side).Some? && ValidQuantity(quantity)
    && ValidPrice(price) && ValidPrice(stopPrice) && ValidPrice(limitPrice)
  }

  function StopLossRequest(symbol: string, side: Side, quantity: real, stopPrice: real, reduceOnly: bool): OrderRequest
  {
    OrderRequest(symbol, Opposite(side), StopMarket, quantity, None, Some(stopPrice), None, Some(reduceOnly))
  }

  function TakeProfitRequest(symbol: string, side: Side, quantity: real, limitPrice: real, reduceOnly: bool): OrderRequest
  {
    OrderRequest(symbol, Opposite(side), TakeProfitMarket, quantity, None, Some(limitPrice), None, Some(reduceOnly))
  }

  /** The take-profit placement of `place_oco_order`, after the stop-loss `stopLoss` is placed,
      with the cancel of the stop-loss that follows a failure; the placement receives `script[at]`. */
  function TakeProfitPhase(symbol: string, stopLoss: OrderResponse, request: OrderRequest,
                           script: seq<Reply>, at: nat): Trace<Option<OrderResponse>>
  {
    var takeProfit := Request(CreateOrder(request), ReplyAt(script, at));
    if OrderResult(takeProfit.reply).None? then
      Trace([takeProfit] + CancelEvents(symbol, [(StopLoss, stopLoss)], script, at + 1), None)
    else
      Trace([takeProfit], OrderResult(takeProfit.reply))
  }

  lemma TakeProfitPhaseFacts(symbol: string, stopLoss: OrderResponse, request: OrderRequest, script: seq<Reply>, at: nat)
    ensures var t := TakeProfitPhase(symbol, stopLoss, request, script, at);
      && CreateRequests(t.events) == [request]
      && (t.result.Some? <==> ReplyAt(script, at).OrderReply?)
      && (t.result.Some? ==> PlacedOrders(t.events) == [t.result.value] && Cancels(t.events) == [])
      && (t.result.None? ==> PlacedOrders(t.events) == [] && Cancels(t.events) == CancelCalls(symbol, [(StopLoss, stopLoss)]))
  {
    var takeProfit := Request(CreateOrder(request), ReplyAt(script, at));
    ObserveShort(takeProfit, takeProfit, takeProfit);
    var cancels := CancelEvents(symbol, [(StopLoss, stopLoss)], script, at + 1);
    CancelEventsCalls(symbol, [(StopLoss, stopLoss)], script, at + 1);
    CancelEventsOnlyCancel(symbol, [(StopLoss, stopLoss)], script, at + 1);
    ObserveAppend([takeProfit], cancels);
  }

  /** The two placements of `place_oco_order`, from the stop-loss on; the first receives `script[at]`. */
  function OcoPlacement(symbol: string, s: Side, quantity: real, stopPrice: real, limitPrice: real, reduceOnly: bool,
                        script: seq<Reply>, at: nat): Trace<Option<OcoOrders>>
  {
    var stopLoss := Request(CreateOrder(StopLossRequest(symbol, s, quantity, stopPrice, reduceOnly)), ReplyAt(script, at));
    if OrderResult(stopLoss.reply).None? then Trace([stopLoss], None)
    else
      var response := stopLoss.reply.response;
      var phase := TakeProfitPhase(symbol, response, TakeProfitRequest(symbol, s, quantity, limitPrice, reduceOnly), script, at + 1);
      Trace([stopLoss] + phase.events, if phase.result.Some? then Some(OcoOrders(response, phase.result.value)) else None)
  }

  /** The requests of the two placements: always the stop-loss, then the take-profit when the stop-loss was placed. */
  lemma OcoPlacementRequests(symbol: string, s: Side, quantity: real, stopPrice: real, limitPrice: real, reduceOnly: bool,
                             script: seq<Reply>, at: nat)
    ensures var requests := CreateRequests(OcoPlacement(symbol, s, quantity, stopPrice, limitPrice, reduceOnly, script, at).events);
      var stopLoss := StopLossRequest(symbol, s, quantity, stopPrice, reduceOnly);
      var takeProfit := TakeProfitRequest(symbol, s, quantity, limitPrice, reduceOnly);
      && (ReplyAt(script, at).OrderReply? ==> requests == [stopLoss, takeProfit])
      && (!ReplyAt(script, at).OrderReply? ==> requests == [stopLoss])
  {
    var stopLoss := Request(CreateOrder(StopLossRequest(symbol, s, quantity, stopPrice, reduceOnly)), ReplyAt(script, at));
    ObserveShort(stopLoss, stopLoss, stopLoss);
    if OrderResult(stopLoss.reply).Some? {
      var response := stopLoss.reply.response;
      var request := TakeProfitRequest(symbol, s, quantity, limitPrice, reduceOnly);
      TakeProfitPhaseFacts(symbol, response, request, script, at + 1);
      ObserveAppend([stopLoss], TakeProfitPhase(symbol, response, request, script, at + 1).events);
    }
  }

  /** The outcome of the two placements: both placed and nothing cancelled, or at most the stop-loss
      placed, and then cancelled when it carries an id. */
  lemma OcoPlacementOutcome(symbol: string, s: Side, quantity: real, stopPrice: real, limitPrice: real, reduceOnly: bool,
                            script: seq<Reply>, at: nat)
    ensures var t := OcoPlacement(symbol, s, quantity, stopPrice, limitPrice, reduceOnly, script, at);
      && (t.result.Some? <==> ReplyAt(script, at).OrderReply? && ReplyAt(script, at + 1).OrderReply?)
      && (t.result.Some? ==>
            PlacedOrders(t.events) == [t.result.value.stopLoss, t.result.value.takeProfit] && Cancels(t.events) == [])
      && (t.result.None? ==> |PlacedOrders(t.events)| <= 1)
      && (t.result.None? && PlacedOrders(t.events) == [] ==> Cancels(t.events) == [])
      && (t.result.None? && |PlacedOrders(t.events)| == 1 ==>
            Cancels(t.events) == CancelCalls(symbol, [(StopLoss, PlacedOrders(t.events)[0])]))
  {
    var stopLoss := Request(CreateOrder(StopLossRequest(symbol, s, quantity, stopPrice, reduceOnly)), ReplyAt(script, at));
    ObserveShort(stopLoss, stopLoss, stopLoss);
    if OrderResult(stopLoss.reply).Some? {
      var response := stopLoss.reply.response;
      var request := TakeProfitRequest(symbol, s, quantity, limitPrice, reduceOnly);
      TakeProfitPhaseFacts(symbol, response, request, script, at + 1);
      ObserveAppend([stopLoss], TakeProfitPhase(symbol, response, request, script, at + 1).events);
    }
  }

  /** What `place_oco_order` does when its remote calls receive `script[start]`, `script[start + 1]`, ... */
  function OcoTrace(symbol: string, side: string, quantity: real, price: real, stopPrice: real, limitPrice: real,
                    reduceOnly: bool, round: Rounder, script: seq<Reply>, start: nat): Trace<Option<OcoOrders>>
  {
    if !OcoChecks(symbol, side, quantity, price, stopPrice, limitPrice) then Trace([], None)
    else
      var lookups := OcoLookups(script, start);
      var formattedQuantity := Formatted(lookups[0].reply, symbol, quantity, QuantityPrecision, round);
      var formattedStop := Formatted(lookups[1].reply, symbol, stopPrice, PricePrecision, round);
      var formattedLimit := Formatted(lookups[2].reply, symbol, limitPrice, PricePrecision, round);
      if formattedQuantity.None? || formattedStop.None? || formattedLimit.None? then Trace(lookups, None)
      else
        var placement := OcoPlacement(symbol, ParseSide(side).value, formattedQuantity.value, formattedStop.value,
                                      formattedLimit.value, reduceOnly, script, start + 3);
        Trace(lookups + placement.events, placement.result)
  }

  /** The three precision lookups: quantity, stop price, limit price. */
  function OcoLookups(script: seq<Reply>, start: nat): seq<Event>
  {
    [Request(ExchangeInfo, ReplyAt(script, start)), Request(ExchangeInfo, ReplyAt(script, start + 1)),
     Request(ExchangeInfo, ReplyAt(script, start + 2))]
  }

  lemma OcoLookupsFacts(script: seq<Reply>, start: nat)
    ensures var lookups := OcoLookups(script, start);
      && Calls(lookups) == [ExchangeInfo, ExchangeInfo, ExchangeInfo]
      && CreateRequests(lookups) == [] && PlacedOrders(lookups) == [] && Cancels(lookups) == []
  {
    var lookups := OcoLookups(script, start);
    ObserveShort(lookups[0], lookups[1], lookups[2]);
  }

  /** Which remote calls `place_oco_order` makes, and when it succeeds. */
  lemma OcoCalls(symbol: string, side: string, quantity: real, price: real, stopPrice: real, limitPrice: real,
                 reduceOnly: bool, round: Rounder, script: seq<Reply>, start: nat)
    ensures var t := OcoTrace(symbol, side, quantity, price, stopPrice, limitPrice, reduceOnly, round, script, start);
      // a failed check returns None before any remote call
      && (!OcoChecks(symbol, side, quantity, price, stopPrice, limitPrice) ==> t.events == [] && t.result == None)
      // otherwise the three lookups come first
      && (OcoChecks(symbol, side, quantity, price, stopPrice, limitPrice) ==>
            3 <= |Calls(t.events)| && Calls(t.events)[..3] == [ExchangeInfo, ExchangeInfo, ExchangeInfo])
      // success exactly when the lookups and both placements succeed
      && (t.result.Some? <==>
            && OcoChecks(symbol, side, quantity, price, stopPrice, limitPrice)
            && SymbolInfoOf(ReplyAt(script, start), symbol).Some?
            && SymbolInfoOf(ReplyAt(script, start + 1), symbol).Some?
            && SymbolInfoOf(ReplyAt(script, start + 2), symbol).Some?
            && ReplyAt(script, start + 3).OrderReply? && ReplyAt(script, start + 4).OrderReply?)
  {
    var t := OcoTrace(symbol, side, quantity, price, stopPrice, limitPrice, reduceOnly, round, script, start);
    if OcoChecks(symbol, side, quantity, price, stopPrice, limitPrice) {
      var lookups := OcoLookups(script, start);
      OcoLookupsFacts(script, start);
      if t.events != lookups {
        var rest := t.events[3..];
        assert t.events == lookups + rest;
        ObserveAppend(lookups, rest);
        assert Calls(t.events)[..3] == Calls(lookups);
        var s := ParseSide(side).value;
        var formattedQuantity := Formatted(lookups[0].reply, symbol, quantity, QuantityPrecision, round);
        var formattedStop := Formatted(lookups[1].reply, symbol, stopPrice, PricePrecision, round);
        var formattedLimit := Formatted(lookups[2].reply, symbol, limitPrice, PricePrecision, round);
        OcoPlacementOutcome(symbol, s, formattedQuantity.value, formattedStop.value, formattedLimit.value, reduceOnly, script, start + 3);
      }
    }
  }

  /** The two legs `place_oco_order` sends: both on the opposite side with the formatted quantity,
      the stop-loss first at the formatted stop price, the take-profit at the formatted limit price. */
  lemma OcoLegs(symbol: string, side: string, quantity: real, price: real, stopPrice: real, limitPrice: real,
                reduceOnly: bool, round: Rounder, script: seq<Reply>, start: nat)
    ensures var t := OcoTrace(symbol, side, quantity, price, stopPrice, limitPrice, reduceOnly, round, script, start);
      var requests := CreateRequests(t.events);
      && |requests| <= 2
      && (forall q | q in requests ::
            && q.symbol == symbol && SideName(Opposite(q.side)) == Upper(side)
            && Formatted(ReplyAt(script, start), symbol, quantity, QuantityPrecision, round) == Some(q.quantity)
            && q.price.None? && q.timeInForce.None? && q.reduceOnly == Some(reduceOnly))
      && (|requests| >= 1 ==>
            && requests[0].kind == StopMarket
            && requests[0].stopPrice == Formatted(ReplyAt(script, start + 1), symbol, stopPrice, PricePrecision, round))
      && (|requests| == 2 ==>
            && requests[1].kind == TakeProfitMarket
            && requests[1].stopPrice == Formatted(ReplyAt(script, start + 2), symbol, limitPrice, PricePrecision, round))
  {
    var t := OcoTrace(symbol, side, quantity, price, stopPrice, limitPrice, reduceOnly, round, script, start);
    var lookups := OcoLookups(script, start);
    if OcoChecks(symbol, side, quantity, price, stopPrice, limitPrice) {
      var s := ParseSide(side).value;
      var formattedQuantity := Formatted(lookups[0].reply, symbol, quantity, QuantityPrecision, round);
      var formattedStop := Formatted(lookups[1].reply, symbol, stopPrice, PricePrecision, round);
      var formattedLimit := Formatted(lookups[2].reply, symbol, limitPrice, PricePrecision, round);
      if formattedQuantity.Some? && formattedStop.Some? && formattedLimit.Some? {
        var placement := OcoPlacement(symbol, s, formattedQuantity.value, formattedStop.value, formattedLimit.value,
                                      reduceOnly, script, start + 3);
        assert CreateRequests(t.events) == CreateRequests(placement.events) by {
          OcoLookupsFacts(script, start);
          ObserveAppend(lookups, placement.events);
        }
        OcoPlacementRequests(symbol, s, formattedQuantity.value, formattedStop.value, formattedLimit.value, reduceOnly, script, start + 3);
        OppositeInvolutive(s);
      } else {
        OcoLookupsFacts(script, start);
      }
    }
  }

  /** What is left on the exchange: both legs on success; on failure at most the stop-loss,
      which is then cancelled when it carries an id. */
  lemma OcoCancels(symbol: string, side: string, quantity: real, price: real, stopPrice: real, limitPrice: real,
                   reduceOnly: bool, round: Rounder, script: seq<Reply>, start: nat)
    ensures var t := OcoTrace(symbol, side, quantity, price, stopPrice, limitPrice, reduceOnly, round, script, start);
      && (t.result.Some? ==>
            PlacedOrders(t.events) == [t.result.value.stopLoss, t.result.value.takeProfit] && Cancels(t.events) == [])
      && (t.result.None? ==> |PlacedOrders(t.events)| <= 1)
      && (t.result.None? && PlacedOrders(t.events) == [] ==> Cancels(t.events) == [])
      && (t.result.None? && |PlacedOrders(t.events)| == 1 ==>
            Cancels(t.events) == CancelCalls(symbol, [(StopLoss, PlacedOrders(t.events)[0])]))
  {
    var t := OcoTrace(symbol, side, quantity, price, stopPrice, limitPrice, reduceOnly, round, script, start);
    if OcoChecks(symbol, side, quantity, price, stopPrice, limitPrice) {
      var lookups := OcoLookups(script, start);
      OcoLookupsFacts(script, start);
      if t.events != lookups {
        var rest := t.events[3..];
        assert t.events == lookups + rest;
        ObserveAppend(lookups, rest);
        var s := ParseSide(side).value;
        var formattedQuantity := Formatted(lookups[0].reply, symbol, quantity, QuantityPrecision, round);
        var formattedStop := Formatted(lookups[1].reply, symbol, stopPrice, PricePrecision, round);
        var formattedLimit := Formatted(lookups[2].reply, symbol, limitPrice, PricePrecision, round);
        OcoPlacementOutcome(symbol, s, formattedQuantity.value, formattedStop.value, formattedLimit.value, reduceOnly, script, start + 3);
      }
    }
  }

  method PlaceOcoOrder(bot: Bot, symbol: string, side: string, quantity: real, price: real, stopPrice: real,
                       limitPrice: real, reduceOnly: bool) returns (r: Option<OcoOrders>)
    requires bot.client.Valid()
    modifies bot.client
    ensures bot.client.Valid()
    ensures var t := OcoTrace(symbol, side, quantity, price, stopPrice, limitPrice, reduceOnly, bot.round, bot.client.script, old(bot.client.cursor));
      bot.client.log == old(bot.client.log) + t.events && r == t.result
  {
    ghost var start := bot.client.cursor;
    if !ValidSymbol(symbol) {
      return None;
    }
    var parsedSide := ParseSide(side);
    if parsedSide.None? {
      return None;
    }
    if !ValidQuantity(quantity) {
      return None;
    }
    if !(ValidPrice(price) && ValidPrice(stopPrice) && ValidPrice(limitPrice)) {
      return None;
    }
    var formattedQuantity := bot.FormatQuantity(symbol, quantity);
    var formattedStop := bot.FormatPrice(symbol, stopPrice);
    var formattedLimit := bot.FormatPrice(symbol, limitPrice);
    ghost var lookups := OcoLookups(bot.client.script, start);
    assert bot.client.log == old(bot.client.log) + lookups;
    if formattedQuantity.None? || formattedStop.None? || formattedLimit.None? {
      return None;
    }
    ghost var log1 := bot.client.log;
    r := PlaceOcoLegs(bot, symbol, parsedSide.value, formattedQuantity.value, formattedStop.value, formattedLimit.value, reduceOnly);
    assert log1 + (bot.client.log[|log1|..]) == old(bot.client.log) + (lookups + bot.client.log[|log1|..]);
  }

  /** The `try` block of `place_oco_order`: the stop-loss, then the take-profit, and the
      clean-up of the stop-loss when the take-profit cannot be placed. */
  method PlaceOcoLegs(bot: Bot, symbol: string, s: Side, quantity: real, stopPrice: real, limitPrice: real, reduceOnly: bool)
    returns (r: Option<OcoOrders>)
    requires bot.client.Valid()
    modifies bot.client
    ensures bot.client.Valid()
    ensures var t := OcoPlacement(symbol, s, quantity, stopPrice, limitPrice, reduceOnly, bot.client.script, old(bot.client.cursor));
      bot.client.log == old(bot.client.log) + t.events && r == t.result
  {
    ghost var start := bot.client.cursor;
    ghost var script := bot.client.script;
    var stopOrder := bot.client.FuturesCreateOrder(StopLossRequest(symbol, s, quantity, stopPrice, reduceOnly));
    if stopOrder.None? {
      // the exception leaves `orders` empty: nothing to cancel
      return None;
    }
    var takeProfit := PlaceTakeProfit(bot, symbol, stopOrder.value, TakeProfitRequest(symbol, s, quantity, limitPrice, reduceOnly));
    r := if takeProfit.Some? then Some(OcoOrders(stopOrder.value, takeProfit.value)) else None;
  }

  /** The take-profit placement, and the cancel of the stop-loss `stopLoss` when it raises. */
  method PlaceTakeProfit(bot: Bot, symbol: string, stopLoss: OrderResponse, request: OrderRequest)
    returns (r: Option<OrderResponse>)
    requires bot.client.Valid()
    modifies bot.client
    ensures bot.client.Valid()
    ensures var t := TakeProfitPhase(symbol, stopLoss, request, bot.client.script, old(bot.client.cursor));
      bot.client.log == old(bot.client.log) + t.events && r == t.result
  {
    ghost var start := bot.client.cursor;
    r := bot.client.FuturesCreateOrder(request);
    if r.None? {
      ghost var log1 := bot.client.log;
      CancelOcoOrders(bot, symbol, [(StopLoss, stopLoss)]);
      assert bot.client.log == log1 + CancelEvents(symbol, [(StopLoss, stopLoss)], bot.client.script, start + 1);
    }
  }
}
