/** Limit orders: a guard chain, two precision lookups, one `futures_create_order` call. */
module LimitOrders {
  import opened Text
  import opened Exchange
  import opened BasicBot

  /** `time_in_force in ['GTC', 'IOC', 'FOK']`; unlike the side, this test is case-sensitive. */
  function ParseTimeInForce(s: string): (r: Option<TimeInForce>)
    ensures r.Some? <==> s in ["GTC", "IOC", "FOK"]
    ensures r == Some(GTC) <==> s == "GTC"
    ensures r == Some(IOC) <==> s == "IOC"
    // only upper-case spellings are accepted
    ensures r.Some? ==> Upper(s) == s
  {
    if s == "GTC" then Some(GTC) else if s == "IOC" then Some(IOC) else if s == "FOK" then Some(FOK) else None
  }

  lemma TimeInForceIsCaseSensitive()
    ensures ParseTimeInForce("GTC") == Some(GTC) && ParseTimeInForce("gtc") == None
    ensures ParseSide("buy") == Some(Buy)
  {
    assert "gtc" != "GTC" by { assert "gtc"[0] != "GTC"[0]; }
    ParseSideIgnoresCase();
  }

  /** The checks `place_limit_order` makes before any remote call. */
  predicate LimitChecks(symbol: string, side: string, quantity: real, price: real, timeInForce: string)
  {
    && ValidSymbol(symbol) && ParseSide(side).Some? && ValidQuantity(quantity) && ValidPrice(price)
    && ParseTimeInForce(timeInForce).Some?
  }

  function LimitRequest(symbol: string, side: Side, quantity: real, price: real, timeInForce: TimeInForce, reduceOnly: bool): OrderRequest
  {
    OrderRequest(symbol, side, Limit, quantity, Some(price), None, Some(timeInForce), Some(reduceOnly))
  }

  /** What `place_limit_order` does when its remote calls receive `script[start]`, `script[start + 1]`, ... */
  function LimitTrace(symbol: string, side: string, quantity: real, price: real, timeInForce: string, reduceOnly: bool,
                      round: Rounder, script: seq<Reply>, start: nat): Trace<Option<OrderResponse>>
  {
    if !LimitChecks(symbol, side, quantity, price, timeInForce) then Trace([], None)
    else
      var quantityInfo := Request(ExchangeInfo, ReplyAt(script, start));
      var priceInfo := Request(ExchangeInfo, ReplyAt(script, start + 1));
      var formattedQuantity := Formatted(quantityInfo.reply, symbol, quantity, QuantityPrecision, round);
      var formattedPrice := Formatted(priceInfo.reply, symbol, price, PricePrecision, round);
      if formattedQuantity.None? || formattedPrice.None? then Trace([quantityInfo, priceInfo], None)
      else
        var request := LimitRequest(symbol, ParseSide(side).value, formattedQuantity.value, formattedPrice.value,
                                    ParseTimeInForce(timeInForce).value, reduceOnly);
        var create := Request(CreateOrder(request), ReplyAt(script, start + 2));
        Trace([quantityInfo, priceInfo, create], OrderResult(create.reply))
  }

  /** Which remote calls `place_limit_order` makes. */
  lemma LimitCalls(symbol: string, side: string, quantity: real, price: real, timeInForce: string, reduceOnly: bool,
                   round: Rounder, script: seq<Reply>, start: nat)
    ensures var t := LimitTrace(symbol, side, quantity, price, timeInForce, reduceOnly, round, script, start);
      // a failed check returns None before any remote call
      && (!LimitChecks(symbol, side, quantity, price, timeInForce) ==> t.events == [] && t.result == None)
      // otherwise both lookups are made, even when the first one fails
      && (LimitChecks(symbol, side, quantity, price, timeInForce) ==>
            2 <= |Calls(t.events)| <= 3 && Calls(t.events)[..2] == [ExchangeInfo, ExchangeInfo])
      && |CreateRequests(t.events)| <= 1
      && (|CreateRequests(t.events)| == 1 <==>
            && LimitChecks(symbol, side, quantity, price, timeInForce)
            && SymbolInfoOf(ReplyAt(script, start), symbol).Some? && SymbolInfoOf(ReplyAt(script, start + 1), symbol).Some?)
  {
    var t := LimitTrace(symbol, side, quantity, price, timeInForce, reduceOnly, round, script, start);
    if LimitChecks(symbol, side, quantity, price, timeInForce) {
      var quantityInfo := Request(ExchangeInfo, ReplyAt(script, start));
      var priceInfo := Request(ExchangeInfo, ReplyAt(script, start + 1));
      ObserveShort(quantityInfo, priceInfo, t.events[|t.events| - 1]);
    }
  }

  /** The order `place_limit_order` sends, and what it returns. */
  lemma LimitOrder(symbol: string, side: string, quantity: real, price: real, timeInForce: string, reduceOnly: bool,
                   round: Rounder, script: seq<Reply>, start: nat)
    ensures var t := LimitTrace(symbol, side, quantity, price, timeInForce, reduceOnly, round, script, start);
      && (forall q | q in CreateRequests(t.events) ::
            && q.symbol == symbol && SideName(q.side) == Upper(side) && q.kind == Limit
            && Formatted(ReplyAt(script, start), symbol, quantity, QuantityPrecision, round) == Some(q.quantity)
            && Formatted(ReplyAt(script, start + 1), symbol, price, PricePrecision, round) == q.price
            && q.price.Some? && q.stopPrice.None?
            && q.timeInForce == ParseTimeInForce(timeInForce) && q.reduceOnly == Some(reduceOnly))
      // the exchange's response is returned unchanged; an exception gives None
      && (t.result.Some? ==> PlacedOrders(t.events) == [t.result.value])
      && (t.result.None? ==> PlacedOrders(t.events) == [])
  {
    var t := LimitTrace(symbol, side, quantity, price, timeInForce, reduceOnly, round, script, start);
    if LimitChecks(symbol, side, quantity, price, timeInForce) {
      var quantityInfo := Request(ExchangeInfo, ReplyAt(script, start));
      var priceInfo := Request(ExchangeInfo, ReplyAt(script, start + 1));
      ObserveShort(quantityInfo, priceInfo, t.events[|t.events| - 1]);
    }
  }

  method PlaceLimitOrder(bot: Bot, symbol: string, side: string, quantity: real, price: real,
                         timeInForce: string, reduceOnly: bool) returns (r: Option<OrderResponse>)
    requires bot.client.Valid()
    modifies bot.client
    ensures bot.client.Valid()
    ensures var t := LimitTrace(symbol, side, quantity, price, timeInForce, reduceOnly, bot.round, bot.client.script, old(bot.client.cursor));
      bot.client.log == old(bot.client.log) + t.events && r == t.result
  {
    if !ValidSymbol(symbol) {
      return None;
    }
    var parsedSide := ParseSide(side);
    if parsedSide.None? {
      return None;
    }
    if !ValidQuantity(quantity) {
      return None;
    }
    if !ValidPrice(price) {
      return None;
    }
    var tif := ParseTimeInForce(timeInForce);
    if tif.None? {
      return None;
    }
    r := PlaceCheckedLimit(bot, symbol, side, quantity, price, timeInForce, reduceOnly);
  }

  /** `place_limit_order` once the checks have passed: the two lookups and the order call. */
  method PlaceCheckedLimit(bot: Bot, symbol: string, side: string, quantity: real, price: real,
                           timeInForce: string, reduceOnly: bool) returns (r: Option<OrderResponse>)
    requires bot.client.Valid() && LimitChecks(symbol, side, quantity, price, timeInForce)
    modifies bot.client
    ensures bot.client.Valid()
    ensures var t := LimitTrace(symbol, side, quantity, price, timeInForce, reduceOnly, bot.round, bot.client.script, old(bot.client.cursor));
      bot.client.log == old(bot.client.log) + t.events && r == t.result
  {
    var formattedQuantity := bot.FormatQuantity(symbol, quantity);
    var formattedPrice := bot.FormatPrice(symbol, price);
    if formattedQuantity.None? || formattedPrice.None? {
      return None;
    }
    var request := LimitRequest(symbol, ParseSide(side).value, formattedQuantity.value, formattedPrice.value,
                                ParseTimeInForce(timeInForce).value, reduceOnly);
    r := bot.client.FuturesCreateOrder(request);
  }

  method LimitBuy(bot: Bot, symbol: string, quantity: real, price: real, timeInForce: string, reduceOnly: bool)
    returns (r: Option<OrderResponse>)
    requires bot.client.Valid()
    modifies bot.client
    ensures bot.client.Valid()
    ensures var t := LimitTrace(symbol, "BUY", quantity, price, timeInForce, reduceOnly, bot.round, bot.client.script, old(bot.client.cursor));
      bot.client.log == old(bot.client.log) + t.events && r == t.result
  {
    r := PlaceLimitOrder(bot, symbol, "BUY", quantity, price, timeInForce, reduceOnly);
  }

  method LimitSell(bot: Bot, symbol: string, quantity: real, price: real, timeInForce: string, reduceOnly: bool)
    returns (r: Option<OrderResponse>)
    requires bot.client.Valid()
    modifies bot.client
    ensures bot.client.Valid()
    ensures var t := LimitTrace(symbol, "SELL", quantity, price, timeInForce, reduceOnly, bot.round, bot.client.script, old(bot.client.cursor));
      bot.client.log == old(bot.client.log) + t.events && r == t.result
  {
    r := PlaceLimitOrder(bot, symbol, "SELL", quantity, price, timeInForce, reduceOnly);
  }
}
