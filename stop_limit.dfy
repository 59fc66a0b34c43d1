/** Stop-limit orders: a guard chain, three precision lookups, one STOP `futures_create_order` call. */
module StopLimit {
  import opened Text
  import opened Exchange
  import opened BasicBot

  /** The checks `place_stop_limit_order` makes before any remote call. */
  predicate StopLimitChecks(symbol: string, side: string, quantity: real, stopPrice: real, limitPrice: real)
  {
    ValidSymbol(symbol) && ParseSide(side).Some? && ValidQuantity(quantity) && ValidPrice(stopPrice) && ValidPrice(limitPrice)
  }

  function StopLimitRequest(symbol: string, side: Side, quantity: real, stopPrice: real, limitPrice: real, reduceOnly: bool): OrderRequest
  {
    OrderRequest(symbol, side, Stop, quantity, Some(limitPrice), Some(stopPrice), Some(GTC), Some(reduceOnly))
  }

  /** What `place_stop_limit_order` does when its remote calls receive `script[start]`, `script[start + 1]`, ... */
  function StopLimitTrace(symbol: string, side: string, quantity: real, stopPrice: real, limitPrice: real, reduceOnly: bool,
                          round: Rounder, script: seq<Reply>, start: nat): Trace<Option<OrderResponse>>
  {
    if !StopLimitChecks(symbol, side, quantity, stopPrice, limitPrice) then Trace([], None)
    else
      var quantityInfo := Request(ExchangeInfo, ReplyAt(script, start));
      var stopInfo := Request(ExchangeInfo, ReplyAt(script, start + 1));
      var limitInfo := Request(ExchangeInfo, ReplyAt(script, start + 2));
      var lookups := [quantityInfo, stopInfo, limitInfo];
      var formattedQuantity := Formatted(quantityInfo.reply, symbol, quantity, QuantityPrecision, round);
      var formattedStop := Formatted(stopInfo.reply, symbol, stopPrice, PricePrecision, round);
      var formattedLimit := Formatted(limitInfo.reply, symbol, limitPrice, PricePrecision, round);
      if formattedQuantity.None? || formattedStop.None? || formattedLimit.None? then Trace(lookups, None)
      else
        var request := StopLimitRequest(symbol, ParseSide(side).value, formattedQuantity.value, formattedStop.value,
                                        formattedLimit.value, reduceOnly);
        var create := Request(CreateOrder(request), ReplyAt(script, start + 3));
        Trace(lookups + [create], OrderResult(create.reply))
  }

  /** Which remote calls `place_stop_limit_order` makes. */
  lemma StopLimitCalls(symbol: string, side: string, quantity: real, stopPrice: real, limitPrice: real, reduceOnly: bool,
                       round: Rounder, script: seq<Reply>, start: nat)
    ensures var t := StopLimitTrace(symbol, side, quantity, stopPrice, limitPrice, reduceOnly, round, script, start);
      // a failed check returns None before any remote call
      && (!StopLimitChecks(symbol, side, quantity, stopPrice, limitPrice) ==> t.events == [] && t.result == None)
      // otherwise all three lookups are made before anything else
      && (StopLimitChecks(symbol, side, quantity, stopPrice, limitPrice) ==>
            3 <= |Calls(t.events)| <= 4 && Calls(t.events)[..3] == [ExchangeInfo, ExchangeInfo, ExchangeInfo])
      && |CreateRequests(t.events)| <= 1
      && (|CreateRequests(t.events)| == 1 <==>
            && StopLimitChecks(symbol, side, quantity, stopPrice, limitPrice)
            && SymbolInfoOf(ReplyAt(script, start), symbol).Some?
            && SymbolInfoOf(ReplyAt(script, start + 1), symbol).Some?
            && SymbolInfoOf(ReplyAt(script, start + 2), symbol).Some?)
  {
    var t := StopLimitTrace(symbol, side, quantity, stopPrice, limitPrice, reduceOnly, round, script, start);
    if StopLimitChecks(symbol, side, quantity, stopPrice, limitPrice) {
      var lookups := [Request(ExchangeInfo, ReplyAt(script, start)), Request(ExchangeInfo, ReplyAt(script, start + 1)),
                      Request(ExchangeInfo, ReplyAt(script, start + 2))];
      ObserveShort(lookups[0], lookups[1], lookups[2]);
      assert Calls(lookups) == [ExchangeInfo, ExchangeInfo, ExchangeInfo];
      if t.events != lookups {
        ObserveSnoc(lookups, t.events[3]);
        assert Calls(t.events)[..3] == Calls(lookups);
      }
    }
  }

  /** The order `place_stop_limit_order` sends, and what it returns. */
  lemma StopLimitOrder(symbol: string, side: string, quantity: real, stopPrice: real, limitPrice: real, reduceOnly: bool,
                       round: Rounder, script: seq<Reply>, start: nat)
    ensures var t := StopLimitTrace(symbol, side, quantity, stopPrice, limitPrice, reduceOnly, round, script, start);
      // a good-till-cancel STOP order at the formatted stop and limit prices
      && (forall q | q in CreateRequests(t.events) ::
            && q.symbol == symbol && SideName(q.side) == Upper(side) && q.kind == Stop
            && Formatted(ReplyAt(script, start), symbol, quantity, QuantityPrecision, round) == Some(q.quantity)
            && Formatted(ReplyAt(script, start + 1), symbol, stopPrice, PricePrecision, round) == q.stopPrice
            && Formatted(ReplyAt(script, start + 2), symbol, limitPrice, PricePrecision, round) == q.price
            && q.price.Some? && q.stopPrice.Some? && q.timeInForce == Some(GTC) && q.reduceOnly == Some(reduceOnly))
      // the exchange's response is returned unchanged; an exception gives None
      && (t.result.Some? ==> PlacedOrders(t.events) == [t.result.value])
      && (t.result.None? ==> PlacedOrders(t.events) == [])
  {
    var t := StopLimitTrace(symbol, side, quantity, stopPrice, limitPrice, reduceOnly, round, script, start);
    if StopLimitChecks(symbol, side, quantity, stopPrice, limitPrice) {
      var lookups := [Request(ExchangeInfo, ReplyAt(script, start)), Request(ExchangeInfo, ReplyAt(script, start + 1)),
                      Request(ExchangeInfo, ReplyAt(script, start + 2))];
      ObserveShort(lookups[0], lookups[1], lookups[2]);
      if t.events != lookups {
        ObserveSnoc(lookups, t.events[3]);
      }
    }
  }

  method PlaceStopLimitOrder(bot: Bot, symbol: string, side: string, quantity: real, stopPrice: real,
                             limitPrice: real, reduceOnly: bool) returns (r: Option<OrderResponse>)
    requires bot.client.Valid()
    modifies bot.client
    ensures bot.client.Valid()
    ensures var t := StopLimitTrace(symbol, side, quantity, stopPrice, limitPrice, reduceOnly, bot.round, bot.client.script, old(bot.client.cursor));
      bot.client.log == old(bot.client.log) + t.events && r == t.result
  {
    ghost var start := bot.client.cursor;
    ghost var t := StopLimitTrace(symbol, side, quantity, stopPrice, limitPrice, reduceOnly, bot.round, bot.client.script, start);
    if !ValidSymbol(symbol) {
      return None;
    }
    var parsedSide := ParseSide(side);
    if parsedSide.None? {
      return None;
    }
    if !ValidQuantity(quantity) {
      return None;
    }
    if !ValidPrice(stopPrice) || !ValidPrice(limitPrice) {
      return None;
    }
    var formattedQuantity := bot.FormatQuantity(symbol, quantity);
    var formattedStop := bot.FormatPrice(symbol, stopPrice);
    var formattedLimit := bot.FormatPrice(symbol, limitPrice);
    assert bot.client.log == old(bot.client.log) + t.events[..3];
    if formattedQuantity.None? || formattedStop.None? || formattedLimit.None? {
      return None;
    }
    var request := StopLimitRequest(symbol, parsedSide.value, formattedQuantity.value, formattedStop.value,
                                    formattedLimit.value, reduceOnly);
    r := bot.client.FuturesCreateOrder(request);
  }

  method StopLimitBuy(bot: Bot, symbol: string, quantity: real, stopPrice: real, limitPrice: real, reduceOnly: bool)
    returns (r: Option<OrderResponse>)
    requires bot.client.Valid()
    modifies bot.client
    ensures bot.client.Valid()
    ensures var t := StopLimitTrace(symbol, "BUY", quantity, stopPrice, limitPrice, reduceOnly, bot.round, bot.client.script, old(bot.client.cursor));
      bot.client.log == old(bot.client.log) + t.events && r == t.result
  {
    r := PlaceStopLimitOrder(bot, symbol, "BUY", quantity, stopPrice, limitPrice, reduceOnly);
  }

  method StopLimitSell(bot: Bot, symbol: string, quantity: real, stopPrice: real, limitPrice: real, reduceOnly: bool)
    returns (r: Option<OrderResponse>)
    requires bot.client.Valid()
    modifies bot.client
    ensures bot.client.Valid()
    ensures var t := StopLimitTrace(symbol, "SELL", quantity, stopPrice, limitPrice, reduceOnly, bot.round, bot.client.script, old(bot.client.cursor));
      bot.client.log == old(bot.client.log) + t.events && r == t.result
  {
    r := PlaceStopLimitOrder(bot, symbol, "SELL", quantity, stopPrice, limitPrice, reduceOnly);
  }
}
