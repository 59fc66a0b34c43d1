/** The remote futures API, as the order builders use it: the shapes of the requests they
    send and of the answers they get back, and a client that answers from a fixed script.

    The vendor client is opaque. It is modelled as an oracle: the k-th remote call made
    through a `Client` receives `script[k]`, and every call past the end of the script
    raises. A scripted reply of the wrong kind for the call that receives it (an order
    reply to a ticker request, say) also stands for an exception, which is what the
    builders' key lookups on such a response would produce. Every request is appended to
    the client's log together with the reply it received, so that which calls were made,
    in what order, and what they returned can all be stated over the log. A blocking sleep
    is recorded in the same log as a `Pause`, so that its position among the requests is
    visible too. */
module Exchange {
  import opened Text

  datatype Option<+T> = None | Some(value: T)

  datatype Side = Buy | Sell

  function SideName(s: Side): string
  {
    match s
    case Buy => "BUY"
    case Sell => "SELL"
  }

  /** The check `side.upper() in ['BUY', 'SELL']` that every builder taking a side performs. */
  function ParseSide(s: string): (r: Option<Side>)
    ensures r.Some? <==> Upper(s) == "BUY" || Upper(s) == "SELL"
    ensures r.Some? ==> SideName(r.value) == Upper(s)
  {
    if Upper(s) == "BUY" then Some(Buy)
    else if Upper(s) == "SELL" then Some(Sell)
    else None
  }

  lemma ParseSideName(s: Side)
    ensures ParseSide(SideName(s)) == Some(s)
  {
    match s
    case Buy => assert Upper("BUY") == "BUY";
    case Sell => assert Upper("SELL") == "SELL";
  }

  /** The side test ignores case: a string and its upper-cased form are accepted alike. */
  lemma ParseSideUpper(s: string)
    ensures ParseSide(Upper(s)) == ParseSide(s)
  {
    UpperIdempotent(s);
  }

  lemma ParseSideIgnoresCase()
    ensures ParseSide("buy") == Some(Buy) && ParseSide("Sell") == Some(Sell)
    ensures ParseSide("HOLD") == None
  {
    assert Upper("buy") == "BUY";
    assert Upper("Sell") == "SELL";
    assert Upper("HOLD") == "HOLD";
  }

  datatype OrderType = Market | Limit | Stop | StopMarket | TakeProfitMarket

  datatype TimeInForce = GTC | IOC | FOK

  /** The keyword arguments of one `futures_create_order` call; an absent optional argument is `None`. */
  datatype OrderRequest = OrderRequest(
    symbol: string,
    side: Side,
    kind: OrderType,
    quantity: real,
    price: Option<real>,
    stopPrice: Option<real>,
    timeInForce: Option<TimeInForce>,
    reduceOnly: Option<bool>)

  /** The exchange's answer to an order; the builders only ever look at its `orderId`. */
  datatype OrderResponse = OrderResponse(orderId: Option<int>, status: string)

  /** One element of `futures_exchange_info()['symbols']`; a key that is missing is `None`. */
  datatype SymbolEntry = SymbolEntry(symbol: Option<string>, quantityPrecision: Option<int>, pricePrecision: Option<int>)

  datatype Call =
    | ExchangeInfo
    | SymbolTicker(symbol: string)
    | CreateOrder(request: OrderRequest)
    | CancelOrder(symbol: string, orderId: int)

  datatype Reply =
    | Raise
    | InfoReply(symbols: seq<SymbolEntry>)
    | TickerReply(price: real)
    | OrderReply(response: OrderResponse)
    | CancelReply

  datatype Event = Request(call: Call, reply: Reply) | Pause(seconds: real)

  /** What a builder did (the events it appended to the log) and what it returned. */
  datatype Trace<R> = Trace(events: seq<Event>, result: R)

  /** Progress of a placement loop: its events, the orders it placed, whether a call raised, and
      the index of the reply its next remote call receives. */
  datatype Progress = Progress(events: seq<Event>, orders: seq<OrderResponse>, failed: bool, next: nat)

  function ReplyAt(script: seq<Reply>, k: nat): Reply
  {
    if k < |script| then script[k] else Raise
  }

  /** How `futures_create_order` returns: the response, or an exception. */
  function OrderResult(reply: Reply): Option<OrderResponse>
  {
    if reply.OrderReply? then Some(reply.response) else None
  }

  // ---- Observers of a log --------------------------------------------------------------

  function Collect<T>(events: seq<Event>, pick: Event -> seq<T>): seq<T>
  {
    if events == [] then [] else Collect(events[..|events| - 1], pick) + pick(events[|events| - 1])
  }

  lemma {:induction false} CollectAppend<T>(a: seq<Event>, b: seq<Event>, pick: Event -> seq<T>)
    ensures Collect(a + b, pick) == Collect(a, pick) + Collect(b, pick)
  {
    if b == [] {
      assert a + b == a;
    } else {
      assert (a + b)[..|a + b| - 1] == a + b[..|b| - 1];
      CollectAppend(a, b[..|b| - 1], pick);
    }
  }

  lemma CollectSnoc<T>(a: seq<Event>, e: Event, pick: Event -> seq<T>)
    ensures Collect(a + [e], pick) == Collect(a, pick) + pick(e)
  {
    assert (a + [e])[..|a|] == a;
  }

  lemma CollectPair<T>(x: Event, y: Event, pick: Event -> seq<T>)
    ensures Collect([x], pick) == pick(x)
    ensures Collect([x, y], pick) == pick(x) + pick(y)
  {
    CollectSnoc([], x, pick);
    assert [] + [x] == [x];
    CollectSnoc([x], y, pick);
    assert [x] + [y] == [x, y];
  }

  function RequestedCall(e: Event): seq<Call>
  {
    if e.Request? then [e.call] else []
  }

  function CreatedRequest(e: Event): seq<OrderRequest>
  {
    if e.Request? && e.call.CreateOrder? then [e.call.request] else []
  }

  function PlacedOrder(e: Event): seq<OrderResponse>
  {
    if e.Request? && e.call.CreateOrder? && e.reply.OrderReply? then [e.reply.response] else []
  }

  function PauseOf(e: Event): seq<real>
  {
    if e.Pause? then [e.seconds] else []
  }

  function InfoRequested(e: Event): seq<Call>
  {
    if e.Request? && e.call.ExchangeInfo? then [e.call] else []
  }

  function CancelRequested(e: Event): seq<Call>
  {
    if e.Request? && e.call.CancelOrder? then [e.call] else []
  }

  /** The remote calls made, in order. */
  function Calls(events: seq<Event>): seq<Call> { Collect(events, RequestedCall) }

  function RequestCount(events: seq<Event>): nat { |Calls(events)| }

  /** The arguments of every `futures_create_order` call, in order. */
  function CreateRequests(events: seq<Event>): seq<OrderRequest> { Collect(events, CreatedRequest) }

  /** The responses of the `futures_create_order` calls that did not raise, in order. */
  function PlacedOrders(events: seq<Event>): seq<OrderResponse> { Collect(events, PlacedOrder) }

  /** The durations of the sleeps, in order. */
  function Pauses(events: seq<Event>): seq<real> { Collect(events, PauseOf) }

  function InfoCount(events: seq<Event>): nat { |Collect(events, InfoRequested)| }

  /** The `futures_cancel_order` calls, in order. */
  function Cancels(events: seq<Event>): seq<Call> { Collect(events, CancelRequested) }

  /** The observers of a log that grows by one event. */
  lemma ObserveSnoc(a: seq<Event>, e: Event)
    ensures Calls(a + [e]) == Calls(a) + RequestedCall(e)
    ensures CreateRequests(a + [e]) == CreateRequests(a) + CreatedRequest(e)
    ensures PlacedOrders(a + [e]) == PlacedOrders(a) + PlacedOrder(e)
    ensures Pauses(a + [e]) == Pauses(a) + PauseOf(e)
    ensures InfoCount(a + [e]) == InfoCount(a) + |InfoRequested(e)|
    ensures Cancels(a + [e]) == Cancels(a) + CancelRequested(e)
  {
    assert (a + [e])[..|a|] == a;
  }

  /** The observers of a concatenation of two logs. */
  lemma ObserveAppend(a: seq<Event>, b: seq<Event>)
    ensures Calls(a + b) == Calls(a) + Calls(b)
    ensures RequestCount(a + b) == RequestCount(a) + RequestCount(b)
    ensures CreateRequests(a + b) == CreateRequests(a) + CreateRequests(b)
    ensures PlacedOrders(a + b) == PlacedOrders(a) + PlacedOrders(b)
    ensures Pauses(a + b) == Pauses(a) + Pauses(b)
    ensures InfoCount(a + b) == InfoCount(a) + InfoCount(b)
    ensures Cancels(a + b) == Cancels(a) + Cancels(b)
  {
    CollectAppend(a, b, RequestedCall);
    CollectAppend(a, b, CreatedRequest);
    CollectAppend(a, b, PlacedOrder);
    CollectAppend(a, b, PauseOf);
    CollectAppend(a, b, InfoRequested);
    CollectAppend(a, b, CancelRequested);
  }

  /** The observers of a log that starts with a request other than an order. */
  lemma ObservePrepend(e: Event, rest: seq<Event>)
    requires e.Request? && !e.call.CreateOrder?
    ensures Calls([e] + rest) == [e.call] + Calls(rest)
    ensures CreateRequests([e] + rest) == CreateRequests(rest)
    ensures PlacedOrders([e] + rest) == PlacedOrders(rest)
  {
    CollectAppend([e], rest, RequestedCall);
    CollectAppend([e], rest, CreatedRequest);
    CollectAppend([e], rest, PlacedOrder);
    CollectPair(e, e, RequestedCall);
    CollectPair(e, e, CreatedRequest);
    CollectPair(e, e, PlacedOrder);
  }

  /** The observers of the logs of up to three events that the single-order builders write. */
  lemma ObserveShort(x: Event, y: Event, z: Event)
    ensures Calls([x]) == RequestedCall(x) && CreateRequests([x]) == CreatedRequest(x)
    ensures PlacedOrders([x]) == PlacedOrder(x) && Cancels([x]) == CancelRequested(x)
    ensures Calls([x, y]) == RequestedCall(x) + RequestedCall(y)
    ensures CreateRequests([x, y]) == CreatedRequest(x) + CreatedRequest(y)
    ensures PlacedOrders([x, y]) == PlacedOrder(x) + PlacedOrder(y)
    ensures Cancels([x, y]) == CancelRequested(x) + CancelRequested(y)
    ensures Calls([x, y, z]) == RequestedCall(x) + RequestedCall(y) + RequestedCall(z)
    ensures CreateRequests([x, y, z]) == CreatedRequest(x) + CreatedRequest(y) + CreatedRequest(z)
    ensures PlacedOrders([x, y, z]) == PlacedOrder(x) + PlacedOrder(y) + PlacedOrder(z)
    ensures Cancels([x, y, z]) == CancelRequested(x) + CancelRequested(y) + CancelRequested(z)
  {
    ObserveSnoc([], x);
    assert [] + [x] == [x];
    ObserveSnoc([x], y);
    assert [x] + [y] == [x, y];
    ObserveSnoc([x, y], z);
    assert [x, y] + [z] == [x, y, z];
  }

  /** The vendor client over a scripted exchange. */
  class Client {
    const script: seq<Reply>
    var log: seq<Event>
    var cursor: nat

    ghost predicate Valid()
      reads this
    {
      cursor == RequestCount(log)
    }

    constructor (script: seq<Reply>)
      ensures Valid() && this.script == script && log == []
    {
      this.script := script;
      log := [];
      cursor := 0;
    }

    /** The reply the next remote call will receive. */
    function Next(): Reply
      reads this
    {
      ReplyAt(script, cursor)
    }

    method Issue(call: Call) returns (reply: Reply)
      requires Valid()
      modifies this
      ensures Valid()
      ensures reply == old(Next())
      ensures log == old(log) + [Request(call, reply)] && cursor == old(cursor) + 1
    {
      reply := ReplyAt(script, cursor);
      CollectAppend(log, [Request(call, reply)], RequestedCall);
      log := log + [Request(call, reply)];
      cursor := cursor + 1;
    }

    /** `futures_exchange_info()`, answered with the raw reply. */
    method FuturesExchangeInfo() returns (reply: Reply)
      requires Valid()
      modifies this
      ensures Valid()
      ensures reply == old(Next())
      ensures log == old(log) + [Request(ExchangeInfo, reply)] && cursor == old(cursor) + 1
    {
      reply := Issue(ExchangeInfo);
    }

    /** `float(futures_symbol_ticker(symbol=...)['price'])`; `None` when the call raises. */
    method FuturesSymbolTicker(symbol: string) returns (price: Option<real>)
      requires Valid()
      modifies this
      ensures Valid()
      ensures log == old(log) + [Request(SymbolTicker(symbol), old(Next()))] && cursor == old(cursor) + 1
      ensures price.Some? <==> old(Next()).TickerReply?
      ensures price.Some? ==> price.value == old(Next()).price
    {
      var reply := Issue(SymbolTicker(symbol));
      price := if reply.TickerReply? then Some(reply.price) else None;
    }

    /** `futures_create_order(**request)`; `None` when the call raises. */
    method FuturesCreateOrder(request: OrderRequest) returns (r: Option<OrderResponse>)
      requires Valid()
      modifies this
      ensures Valid()
      ensures log == old(log) + [Request(CreateOrder(request), old(Next()))] && cursor == old(cursor) + 1
      ensures r == OrderResult(old(Next()))
    {
      var reply := Issue(CreateOrder(request));
      r := OrderResult(reply);
    }

    /** `futures_cancel_order(symbol=..., orderId=...)`; false when the call raises. */
    method FuturesCancelOrder(symbol: string, orderId: int) returns (ok: bool)
      requires Valid()
      modifies this
      ensures Valid()
      ensures log == old(log) + [Request(CancelOrder(symbol, orderId), old(Next()))] && cursor == old(cursor) + 1
      ensures ok == old(Next()).CancelReply?
    {
      var reply := Issue(CancelOrder(symbol, orderId));
      ok := reply.CancelReply?;
    }

    /** `time.sleep(seconds)`: no remote call, only an entry in the log. */
    method Sleep(seconds: real)
      requires Valid()
      modifies this
      ensures Valid()
      ensures log == old(log) + [Pause(seconds)] && cursor == old(cursor)
    {
      CollectAppend(log, [Pause(seconds)], RequestedCall);
      log := log + [Pause(seconds)];
    }
  }
}
