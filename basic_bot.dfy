/** The shared part of every order family: input validators, the lookup of a symbol's
    trading rules in the exchange information, and precision formatting. */
module BasicBot {
  import opened Text
  import opened Exchange

  /** Exchange rounding `round(x, digits)`, left abstract: no fact about decimal rounding is used. */
  type Rounder = (real, int) -> real

  // ---- Validators ------------------------------------------------------------------------

  /** A non-empty symbol that `isupper()` and contains "USDT". */
  predicate ValidSymbol(symbol: string)
  {
    symbol != [] && IsUpperString(symbol) && ContainsSub(symbol, "USDT")
  }

  /** The "non-empty" and "has a cased letter" parts of the check are implied by "USDT". */
  lemma ValidSymbolMeans(symbol: string)
    ensures ValidSymbol(symbol) <==> NoLowercase(symbol) && ContainsSub(symbol, "USDT")
  {
    if NoLowercase(symbol) && ContainsSub(symbol, "USDT") {
      var i :| 0 <= i <= |symbol| && OccursAt(symbol, "USDT", i);
      assert symbol[i] == symbol[i..i + 4][0] == 'U';
      assert IsCased(symbol[i]);
    }
  }

  /** A valid symbol is already upper case: `symbol.upper()` leaves it unchanged. */
  lemma ValidSymbolIsUpper(symbol: string)
    requires ValidSymbol(symbol)
    ensures Upper(symbol) == symbol
  {
    assert forall i | 0 <= i < |symbol| :: Upper(symbol)[i] == symbol[i];
  }

  lemma ValidSymbolExamples()
    ensures ValidSymbol("BTCUSDT")
    ensures !ValidSymbol("btcusdt") && !ValidSymbol("BTCBUSD") && !ValidSymbol("")
  {
    assert OccursAt("BTCUSDT", "USDT", 3);
    ValidSymbolMeans("BTCUSDT");
    assert "btcusdt"[0] == 'b';
    forall i | 0 <= i <= |"BTCBUSD"| ensures !OccursAt("BTCBUSD", "USDT", i) {
      if i + 4 <= |"BTCBUSD"| {
        assert "BTCBUSD"[i..i + 4][3] == "BTCBUSD"[i + 3] != 'T';
      }
    }
  }

  predicate ValidQuantity(quantity: real)
  {
    quantity > 0.0
  }

  predicate ValidPrice(price: real)
  {
    price > 0.0
  }

  // ---- get_symbol_info -------------------------------------------------------------------

  /** The outcome of scanning the symbol list: the matching entry, no match, or an entry
      without a 'symbol' key (a KeyError, which the lookup turns into "no information"). */
  datatype Lookup = Found(entry: SymbolEntry) | NotListed | Malformed

  /** Every entry before position i has a 'symbol' key, and none of them is `symbol`. */
  predicate ClearBefore(entries: seq<SymbolEntry>, symbol: string, i: int)
    requires 0 <= i <= |entries|
  {
    forall j | 0 <= j < i :: entries[j].symbol.Some? && entries[j].symbol.value != symbol
  }

  function FirstEntry(entries: seq<SymbolEntry>, symbol: string): (r: Lookup)
    ensures r.Found? ==> r.entry in entries && r.entry.symbol == Some(symbol)
  {
    if entries == [] then NotListed
    else match entries[0].symbol
      case None => Malformed
      case Some(s) => if s == symbol then Found(entries[0]) else FirstEntry(entries[1..], symbol)
  }

  /** What the scan returns, stated without the scan. */
  lemma {:induction false} FirstEntryMeaning(entries: seq<SymbolEntry>, symbol: string)
    ensures FirstEntry(entries, symbol).Found? ==>
      exists i | 0 <= i < |entries| ::
        entries[i] == FirstEntry(entries, symbol).entry && entries[i].symbol == Some(symbol) && ClearBefore(entries, symbol, i)
    ensures FirstEntry(entries, symbol).NotListed? <==> ClearBefore(entries, symbol, |entries|)
    ensures FirstEntry(entries, symbol).Malformed? ==>
      exists i | 0 <= i < |entries| :: entries[i].symbol.None? && ClearBefore(entries, symbol, i)
  {
    if entries != [] && entries[0].symbol.Some? && entries[0].symbol.value != symbol {
      var rest := entries[1..];
      FirstEntryMeaning(rest, symbol);
      assert forall j | 0 <= j < |rest| :: rest[j] == entries[j + 1];
      if FirstEntry(rest, symbol).Found? {
        var i :| 0 <= i < |rest| && rest[i] == FirstEntry(rest, symbol).entry && rest[i].symbol == Some(symbol) && ClearBefore(rest, symbol, i);
        assert ClearBefore(entries, symbol, i + 1);
      }
      if FirstEntry(rest, symbol).Malformed? {
        var i :| 0 <= i < |rest| && rest[i].symbol.None? && ClearBefore(rest, symbol, i);
        assert ClearBefore(entries, symbol, i + 1);
      }
      if ClearBefore(entries, symbol, |entries|) {
        assert ClearBefore(rest, symbol, |rest|);
      }
    }
  }

  /** The entry at position i is the one returned when it is the first whose 'symbol' is `symbol`. */
  lemma {:induction false} FirstEntryFoundAt(entries: seq<SymbolEntry>, symbol: string, i: nat)
    requires i < |entries| && entries[i].symbol == Some(symbol) && ClearBefore(entries, symbol, i)
    ensures FirstEntry(entries, symbol) == Found(entries[i])
  {
    if i > 0 {
      assert entries[0].symbol.Some? && entries[0].symbol.value != symbol;
      var rest := entries[1..];
      assert ClearBefore(rest, symbol, i - 1) by {
        forall j | 0 <= j < i - 1 ensures rest[j].symbol.Some? && rest[j].symbol.value != symbol {
          assert rest[j] == entries[j + 1];
        }
      }
      FirstEntryFoundAt(rest, symbol, i - 1);
    }
  }

  /** The loop `for s in exchange_info['symbols']: if s['symbol'] == symbol: return s`. */
  method FindSymbol(entries: seq<SymbolEntry>, symbol: string) returns (r: Lookup)
    ensures r == FirstEntry(entries, symbol)
    ensures r.Found? ==>
      exists i | 0 <= i < |entries| :: entries[i] == r.entry && entries[i].symbol == Some(symbol) && ClearBefore(entries, symbol, i)
    ensures r.NotListed? <==> ClearBefore(entries, symbol, |entries|)
  {
    var i := 0;
    while i < |entries|
      invariant 0 <= i <= |entries|
      invariant ClearBefore(entries, symbol, i)
      invariant FirstEntry(entries, symbol) == FirstEntry(entries[i..], symbol)
    {
      assert entries[i..][0] == entries[i] && entries[i..][1..] == entries[i + 1..];
      match entries[i].symbol {
        case None =>
          return Malformed;
        case Some(s) =>
          if s == symbol {
            return Found(entries[i]);
          }
      }
      i := i + 1;
    }
    return NotListed;
  }

  /** `get_symbol_info` given the reply to its `futures_exchange_info()` call. */
  function SymbolInfoOf(reply: Reply, symbol: string): (info: Option<SymbolEntry>)
    ensures info.Some? <==> reply.InfoReply? && FirstEntry(reply.symbols, symbol).Found?
    ensures info.Some? ==> info.value.symbol == Some(symbol) && info.value in reply.symbols
    // the first entry carrying the symbol, as the loop returns it
    ensures info.Some? ==> FirstEntry(reply.symbols, symbol) == Found(info.value)
  {
    match reply
    case InfoReply(entries) =>
      (match FirstEntry(entries, symbol)
       case Found(e) => Some(e)
       case _ => None)
    case _ => None
  }

  // ---- format_quantity / format_price ----------------------------------------------------

  datatype PrecisionKey = QuantityPrecision | PricePrecision

  /** `symbol_info.get(key, 8)` */
  function PrecisionOf(entry: SymbolEntry, key: PrecisionKey): int
  {
    var given := if key == QuantityPrecision then entry.quantityPrecision else entry.pricePrecision;
    if given.Some? then given.value else 8
  }

  /** The value `format_quantity` (key QuantityPrecision) or `format_price` (key PricePrecision)
      returns, given the reply to its exchange-information call. */
  function Formatted(reply: Reply, symbol: string, x: real, key: PrecisionKey, round: Rounder): (r: Option<real>)
    ensures r.None? <==> SymbolInfoOf(reply, symbol).None?
    ensures r.Some? ==> r.value == round(x, PrecisionOf(SymbolInfoOf(reply, symbol).value, key))
  {
    match SymbolInfoOf(reply, symbol)
    case None => None
    case Some(entry) => Some(round(x, PrecisionOf(entry, key)))
  }

  lemma FormattedDefaultPrecision(entries: seq<SymbolEntry>, symbol: string, x: real, round: Rounder, e: SymbolEntry)
    requires FirstEntry(entries, symbol) == Found(e)
    ensures e.quantityPrecision.None? ==> Formatted(InfoReply(entries), symbol, x, QuantityPrecision, round) == Some(round(x, 8))
    ensures e.pricePrecision.None? ==> Formatted(InfoReply(entries), symbol, x, PricePrecision, round) == Some(round(x, 8))
    ensures e.quantityPrecision.Some? ==>
      Formatted(InfoReply(entries), symbol, x, QuantityPrecision, round) == Some(round(x, e.quantityPrecision.value))
    ensures e.pricePrecision.Some? ==>
      Formatted(InfoReply(entries), symbol, x, PricePrecision, round) == Some(round(x, e.pricePrecision.value))
  {
  }

  /** The bot's shared state: the authenticated client and the exchange's rounding. */
  class Bot {
    const client: Client
    const round: Rounder

    constructor (client: Client, round: Rounder)
      ensures this.client == client && this.round == round
    {
      this.client := client;
      this.round := round;
    }

    method GetSymbolInfo(symbol: string) returns (info: Option<SymbolEntry>)
      requires client.Valid()
      modifies client
      ensures client.Valid()
      ensures client.log == old(client.log) + [Request(ExchangeInfo, old(client.Next()))]
      ensures client.cursor == old(client.cursor) + 1
      ensures info == SymbolInfoOf(old(client.Next()), symbol)
    {
      var reply := client.FuturesExchangeInfo();
      if !reply.InfoReply? {
        return None;
      }
      var found := FindSymbol(reply.symbols, symbol);
      info := if found.Found? then Some(found.entry) else None;
    }

    method FormatQuantity(symbol: string, quantity: real) returns (r: Option<real>)
      requires client.Valid()
      modifies client
      ensures client.Valid()
      ensures client.log == old(client.log) + [Request(ExchangeInfo, old(client.Next()))]
      ensures client.cursor == old(client.cursor) + 1
      ensures r == Formatted(old(client.Next()), symbol, quantity, QuantityPrecision, round)
    {
      var info := GetSymbolInfo(symbol);
      if info.None? {
        return None;
      }
      r := Some(round(quantity, PrecisionOf(info.value, QuantityPrecision)));
    }

    method FormatPrice(symbol: string, price: real) returns (r: Option<real>)
      requires client.Valid()
      modifies client
      ensures client.Valid()
      ensures client.log == old(client.log) + [Request(ExchangeInfo, old(client.Next()))]
      ensures client.cursor == old(client.cursor) + 1
      ensures r == Formatted(old(client.Next()), symbol, price, PricePrecision, round)
    {
      var info := GetSymbolInfo(symbol);
      if info.None? {
        return None;
      }
      r := Some(round(price, PrecisionOf(info.value, PricePrecision)));
    }
  }
}
