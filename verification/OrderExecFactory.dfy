/** Order executors and the factory that picks one by order type
    (OrderExecFactory.py). An executor turns an order into one call on the
    exchange gateway; the gateway itself is an oracle that answers each call
    with a response record or an error. */
module OrderExecFactory {
  import opened Wrappers

  /** The two gateway calls the executors make. */
  datatype ExchangeCall =
    | PlaceMarketOrder(symbol: string, side: string, size: real)
    | PlaceLimitOrder(symbol: string, side: string, price: real, size: real)

  /** The response record the gateway returns. */
  type Response = map<string, string>

  /** The exchange client: what it answers to each call, or the exception it raises. */
  datatype Gateway = Gateway(respond: ExchangeCall -> Result<Response, string>)

  datatype OrderExecutor =
    | MarketOrderExecutor(api: Gateway)
    | LimitOrderExecutor(api: Gateway)

  /** The gateway call `execute` makes: a market order forwards symbol, side and
      size and drops the price; a limit order forwards all four. */
  function Request(e: OrderExecutor, symbol: string, side: string, price: real, size: real): (c: ExchangeCall)
    ensures c.symbol == symbol && c.side == side && c.size == size
    ensures c.PlaceLimitOrder? <==> e.LimitOrderExecutor?
    ensures c.PlaceLimitOrder? ==> c.price == price
  {
    match e
    case MarketOrderExecutor(_) => PlaceMarketOrder(symbol, side, size)
    case LimitOrderExecutor(_) => PlaceLimitOrder(symbol, side, price, size)
  }

  /** `execute`: the executor's own gateway answers a market call for a market
      executor and a limit call for a limit executor, whatever it answers. */
  function Execute(e: OrderExecutor, symbol: string, side: string, price: real, size: real): (r: Result<Response, string>)
    ensures e.MarketOrderExecutor? ==> r == e.api.respond(PlaceMarketOrder(symbol, side, size))
    ensures e.LimitOrderExecutor? ==> r == e.api.respond(PlaceLimitOrder(symbol, side, price, size))
  {
    e.api.respond(Request(e, symbol, side, price, size))
  }

  /** The market executor's call does not depend on the price it is given. */
  lemma MarketIgnoresPrice(api: Gateway, symbol: string, side: string, p1: real, p2: real, size: real)
    ensures Request(MarketOrderExecutor(api), symbol, side, p1, size) ==
            Request(MarketOrderExecutor(api), symbol, side, p2, size)
    ensures Execute(MarketOrderExecutor(api), symbol, side, p1, size) ==
            Execute(MarketOrderExecutor(api), symbol, side, p2, size)
  {}

  // ---------------------------------------------------------------------------
  // Case-insensitive lookup
  // ---------------------------------------------------------------------------

  /** `str.lower` on one character, for the ASCII letters. */
  function LowerChar(c: char): (d: char)
    ensures 'A' <= c <= 'Z' ==> 'a' <= d <= 'z' && d as int - 'a' as int == c as int - 'A' as int
    ensures !('A' <= c <= 'Z') ==> d == c
  {
    if 'A' <= c <= 'Z' then (c as int - 'A' as int + 'a' as int) as char else c
  }

  /** `str.lower`, character by character. */
  function Lower(s: string): (r: string)
    ensures |r| == |s|
    ensures forall i :: 0 <= i < |s| ==> r[i] == LowerChar(s[i])
  {
    if s == [] then [] else [LowerChar(s[0])] + Lower(s[1..])
  }

  /** Lowering twice is lowering once. */
  lemma LowerIdempotent(s: string)
    ensures Lower(Lower(s)) == Lower(s)
  {
    assert forall i :: 0 <= i < |s| ==> LowerChar(LowerChar(s[i])) == LowerChar(s[i]);
  }

  /** `get_executor`: lower-case the order type and look it up among "market"
      and "limit"; any other name gives None. */
  function GetExecutor(orderType: string, api: Gateway): (r: Option<OrderExecutor>)
    ensures r == Some(MarketOrderExecutor(api)) <==> Lower(orderType) == "market"
    ensures r == Some(LimitOrderExecutor(api)) <==> Lower(orderType) == "limit"
    ensures r.None? <==> Lower(orderType) != "market" && Lower(orderType) != "limit"
  {
    var executors := map["market" := MarketOrderExecutor(api), "limit" := LimitOrderExecutor(api)];
    var key := Lower(orderType);
    if key in executors then Some(executors[key]) else None
  }

  /** The lookup only sees the lower-cased name. */
  lemma GetExecutorIgnoresCase(a: string, b: string, api: Gateway)
    requires Lower(a) == Lower(b)
    ensures GetExecutor(a, api) == GetExecutor(b, api)
  {}

  /** Exactly the spellings of "market" in any mix of cases select the market
      executor: same length, and each character equal to the lower-case one or
      to its upper-case form. */
  lemma {:induction false} MarketSpellings(orderType: string, api: Gateway)
    ensures GetExecutor(orderType, api) == Some(MarketOrderExecutor(api)) <==>
            |orderType| == 6 &&
            forall i :: 0 <= i < 6 ==> orderType[i] == "market"[i] || orderType[i] == "MARKET"[i]
  {
    var m, u := "market", "MARKET";
    if |orderType| == 6 {
      if Lower(orderType) == m {
        forall i | 0 <= i < 6 ensures orderType[i] == m[i] || orderType[i] == u[i] {
          assert LowerChar(orderType[i]) == m[i];
        }
      }
      if forall i :: 0 <= i < 6 ==> orderType[i] == m[i] || orderType[i] == u[i] {
        assert forall i :: 0 <= i < 6 ==> Lower(orderType)[i] == m[i];
      }
    }
  }
}
