/** Market orders: a guard chain, one precision lookup, one `futures_create_order` call. */
module MarketOrders {
  import opened Text
  import opened Exchange
  import opened BasicBot

  /** The checks `place_market_order` makes before any remote call. */
  predicate MarketChecks(symbol: string, side: string, quantity: real)
  {
    ValidSymbol(symbol) && ParseSide(side).Some? && ValidQuantity(quantity)
  }

  function MarketRequest(symbol: string, side: Side, quantity: real, reduceOnly: bool): OrderRequest
  {
    OrderRequest(symbol, side, Market, quantity, None, None, None, Some(reduceOnly))
  }

  /** What `place_market_order` does when the remote calls it makes receive the replies
      `script[start]`, `script[start + 1]`, ...: the events it logs and the value it returns. */
  function MarketTrace(symbol: string, side: string, quantity: real, reduceOnly: bool,
                       round: Rounder, script: seq<Reply>, start: nat): Trace<Option<OrderResponse>>
  {
    if !MarketChecks(symbol, side, quantity) then Trace([], None)
    else
      var info := Request(ExchangeInfo, ReplyAt(script, start));
      var formattedQuantity := Formatted(info.reply, symbol, quantity, QuantityPrecision, round);
      if formattedQuantity.None? then Trace([info], None)
      else
        var request := MarketRequest(symbol, ParseSide(side).value, formattedQuantity.value, reduceOnly);
        Trace([info, Request(CreateOrder(request), ReplyAt(script, start + 1))], OrderResult(ReplyAt(script, start + 1)))
  }

  /** Which remote calls `place_market_order` makes. */
  lemma MarketCalls(symbol: string, side: string, quantity: real, reduceOnly: bool, round: Rounder, script: seq<Reply>, start: nat)
    ensures var t := MarketTrace(symbol, side, quantity, reduceOnly, round, script, start);
      // a failed check returns None before any remote call
      && (!MarketChecks(symbol, side, quantity) ==> t.events == [] && t.result == None)
      // otherwise the precision lookup comes first, and at most one order follows
      && (MarketChecks(symbol, side, quantity) ==> 1 <= |Calls(t.events)| <= 2 && Calls(t.events)[0] == ExchangeInfo)
      && |CreateRequests(t.events)| <= 1
      && (|CreateRequests(t.events)| == 1 <==> MarketChecks(symbol, side, quantity) && SymbolInfoOf(ReplyAt(script, start), symbol).Some?)
  {
    var t := MarketTrace(symbol, side, quantity, reduceOnly, round, script, start);
    if MarketChecks(symbol, side, quantity) {
      ObserveShort(t.events[0], t.events[|t.events| - 1], t.events[0]);
    }
  }

  /** The order `place_market_order` sends, and what it returns. */
  lemma MarketOrder(symbol: string, side: string, quantity: real, reduceOnly: bool, round: Rounder, script: seq<Reply>, start: nat)
    ensures var t := MarketTrace(symbol, side, quantity, reduceOnly, round, script, start);
      && (forall q | q in CreateRequests(t.events) ::
            && q.symbol == symbol && SideName(q.side) == Upper(side) && q.kind == Market
            && Formatted(ReplyAt(script, start), symbol, quantity, QuantityPrecision, round) == Some(q.quantity)
            && q.price.None? && q.stopPrice.None? && q.timeInForce.None? && q.reduceOnly == Some(reduceOnly))
      // the exchange's response is returned unchanged; an exception gives None
      && (t.result.Some? ==> PlacedOrders(t.events) == [t.result.value])
      && (t.result.None? ==> PlacedOrders(t.events) == [])
  {
    var t := MarketTrace(symbol, side, quantity, reduceOnly, round, script, start);
    if MarketChecks(symbol, side, quantity) {
      ObserveShort(t.events[0], t.events[|t.events| - 1], t.events[0]);
    }
  }

  method PlaceMarketOrder(bot: Bot, symbol: string, side: string, quantity: real, reduceOnly: bool)
    returns (r: Option<OrderResponse>)
    requires bot.client.Valid()
    modifies bot.client
    ensures bot.client.Valid()
    ensures var t := MarketTrace(symbol, side, quantity, reduceOnly, bot.round, bot.client.script, old(bot.client.cursor));
      bot.client.log == old(bot.client.log) + t.events && r == t.result
  {
    if !ValidSymbol(symbol) {
      return None;
    }
    var parsedSide := ParseSide(side);
    if parsedSide.None? {
      return None;
    }
    if !ValidQuantity(quantity) {
      return None;
    }
    var formattedQuantity := bot.FormatQuantity(symbol, quantity);
    if formattedQuantity.None? {
      return None;
    }
    r := bot.client.FuturesCreateOrder(MarketRequest(symbol, parsedSide.value, formattedQuantity.value, reduceOnly));
  }

  method MarketBuy(bot: Bot, symbol: string, quantity: real, reduceOnly: bool) returns (r: Option<OrderResponse>)
    requires bot.client.Valid()
    modifies bot.client
    ensures bot.client.Valid()
    ensures var t := MarketTrace(symbol, "BUY", quantity, reduceOnly, bot.round, bot.client.script, old(bot.client.cursor));
      bot.client.log == old(bot.client.log) + t.events && r == t.result
  {
    r := PlaceMarketOrder(bot, symbol, "BUY", quantity, reduceOnly);
  }

  method MarketSell(bot: Bot, symbol: string, quantity: real, reduceOnly: bool) returns (r: Option<OrderResponse>)
    requires bot.client.Valid()
    modifies bot.client
    ensures bot.client.Valid()
    ensures var t := MarketTrace(symbol, "SELL", quantity, reduceOnly, bot.round, bot.client.script, old(bot.client.cursor));
      bot.client.log == old(bot.client.log) + t.events && r == t.result
  {
    r := PlaceMarketOrder(bot, symbol, "SELL", quantity, reduceOnly);
  }

  /** The fixed side of `market_buy` and `market_sell` is the side of the order they send. */
  lemma MarketFixedSides(symbol: string, quantity: real, reduceOnly: bool, round: Rounder, script: seq<Reply>, start: nat)
    ensures forall q | q in CreateRequests(MarketTrace(symbol, "BUY", quantity, reduceOnly, round, script, start).events) :: q.side == Buy
    ensures forall q | q in CreateRequests(MarketTrace(symbol, "SELL", quantity, reduceOnly, round, script, start).events) :: q.side == Sell
  {
    assert Upper("BUY") == "BUY" && Upper("SELL") == "SELL";
    MarketOrder(symbol, "BUY", quantity, reduceOnly, round, script, start);
    MarketOrder(symbol, "SELL", quantity, reduceOnly, round, script, start);
  }
}
