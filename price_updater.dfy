/**
 * The scheduled price refresh of `StockPriceUpdaterService`: every stored
 * position gets the provider's current quote for its symbol, and a quote
 * obtained once in a pass is reused from a cache for the rest of that pass.
 *
 * The provider is a `Network`: given the log of quote requests sent so far,
 * ending with the current one, it yields that request's reply. `Double.valueOf`
 * is the parameter `parse` (None when it would throw).
 */
module PriceUpdater {
  import opened Optional
  import opened Provider
  import opened PortfolioModel

  const QuoteKey := "Global Quote"
  const PriceKey := "05. price"

  /** The provider as seen by one pass: the reply to the last request of a log. */
  type Network = seq<Option<string>> -> Reply

  /** The per-pass price cache; the symbol key may be null, as a `HashMap` key may. */
  type Cache = map<Option<string>, real>

  /** `fetchApiResponse`: a null body and a failed call both become the empty map. */
  function FetchApiResponse(reply: Reply): (r: map<string, Value>)
    ensures reply.Body? ==> r == reply.response
    ensures !reply.Body? ==> r == map[]
  {
    if reply.Body? then reply.response else map[]
  }

  /** The quoted price text: `"Global Quote"` is an object whose `"05. price"` is a string. */
  function QuotedPrice(response: map<string, Value>): (r: Option<string>)
    ensures r.Some? <==> QuoteKey in response && response[QuoteKey].Object? &&
                         Get(response[QuoteKey].members, PriceKey).Some? &&
                         Get(response[QuoteKey].members, PriceKey).value.Text?
    ensures r.Some? ==> Get(response[QuoteKey].members, PriceKey) == Some(Text(r.value))
  {
    if QuoteKey in response && response[QuoteKey].Object? then
      match Get(response[QuoteKey].members, PriceKey)
      case Some(Text(t)) => Some(t)
      case _ => None
    else None
  }

  /** The price a reply yields, if its quote is present and parses. */
  function Price(reply: Reply, parse: string -> Option<real>): Option<real> {
    match QuotedPrice(FetchApiResponse(reply))
    case Some(t) => parse(t)
    case None => None
  }

  /** A failed call or an empty body yields no price. */
  lemma FailedCallHasNoPrice(reply: Reply, parse: string -> Option<real>)
    requires !reply.Body?
    ensures Price(reply, parse) == None
  {
  }

  /** What one loop turn leaves behind: the position, the cache and the request log. */
  datatype Turn = Turn(stock: PortfolioStock, cache: Cache, requests: seq<Option<string>>)

  /**
   * One turn of the loop: a cached symbol takes the cached price without a
   * request; otherwise one request is sent and, when its quote parses, the
   * price is set and cached. Anything else leaves the position and the cache
   * as they were.
   */
  function Visit(stock: PortfolioStock, cache: Cache, requests: seq<Option<string>>,
                 network: Network, parse: string -> Option<real>): Turn
  {
    if stock.symbol in cache then
      Turn(stock.(currentPrice := Some(cache[stock.symbol])), cache, requests)
    else
      var sent := requests + [stock.symbol];
      match Price(network(sent), parse)
      case Some(p) => Turn(stock.(currentPrice := Some(p)), cache[stock.symbol := p], sent)
      case None => Turn(stock, cache, sent)
  }

  /** The same position, whatever its current price. */
  predicate SamePosition(a: PortfolioStock, b: PortfolioStock) {
    a.symbol == b.symbol && a.quantity == b.quantity && a.buyPrice == b.buyPrice
  }

  /**
   * A turn only ever sets the current price, sends at most one request (for
   * the position's own symbol) and only adds the position's symbol to the cache.
   */
  lemma VisitFrame(stock: PortfolioStock, cache: Cache, requests: seq<Option<string>>,
                   network: Network, parse: string -> Option<real>)
    ensures var t := Visit(stock, cache, requests, network, parse);
            SamePosition(t.stock, stock) &&
            (t.requests == requests || t.requests == requests + [stock.symbol]) &&
            (t.cache == cache || (stock.symbol !in cache && t.stock.currentPrice.Some? &&
                                  t.cache == cache[stock.symbol := t.stock.currentPrice.value]))
  {
  }

  /** A cached symbol is served from the cache and sends nothing. */
  lemma CacheHit(stock: PortfolioStock, cache: Cache, requests: seq<Option<string>>,
                 network: Network, parse: string -> Option<real>)
    requires stock.symbol in cache
    ensures var t := Visit(stock, cache, requests, network, parse);
            t.stock.currentPrice == Some(cache[stock.symbol]) && t.cache == cache && t.requests == requests
  {
  }

  /**
   * An uncached symbol sends one request; the position's price changes exactly
   * when the reply holds a quote that parses, and then the price is cached.
   */
  lemma CacheMiss(stock: PortfolioStock, cache: Cache, requests: seq<Option<string>>,
                  network: Network, parse: string -> Option<real>)
    requires stock.symbol !in cache
    ensures var t := Visit(stock, cache, requests, network, parse);
            var price := Price(network(requests + [stock.symbol]), parse);
            t.requests == requests + [stock.symbol] &&
            (price.None? ==> t.stock == stock && t.cache == cache) &&
            (price.Some? ==> t.stock.currentPrice == price && t.cache == cache[stock.symbol := price.value])
  {
  }

  /** A whole pass: every position in list order, a failed turn not stopping the rest. */
  datatype Pass = Pass(stocks: seq<PortfolioStock>, cache: Cache, requests: seq<Option<string>>)

  function Cycle(stocks: seq<PortfolioStock>, cache: Cache, requests: seq<Option<string>>,
                 network: Network, parse: string -> Option<real>): (p: Pass)
    ensures |p.stocks| == |stocks|
  {
    if stocks == [] then Pass([], cache, requests)
    else
      var before := Cycle(stocks[..|stocks| - 1], cache, requests, network, parse);
      var t := Visit(stocks[|stocks| - 1], before.cache, before.requests, network, parse);
      Pass(before.stocks + [t.stock], t.cache, t.requests)
  }

  /** The `j`-th position comes out of its own turn, taken with the cache and log the earlier turns left. */
  lemma {:induction false} CycleAt(stocks: seq<PortfolioStock>, cache: Cache, requests: seq<Option<string>>,
                                   network: Network, parse: string -> Option<real>, j: int)
    requires 0 <= j < |stocks|
    ensures var before := Cycle(stocks[..j], cache, requests, network, parse);
            Cycle(stocks, cache, requests, network, parse).stocks[j] ==
              Visit(stocks[j], before.cache, before.requests, network, parse).stock
  {
    var n := |stocks|;
    if j < n - 1 {
      var init := stocks[..n - 1];
      CycleAt(init, cache, requests, network, parse, j);
      assert init[..j] == stocks[..j];
    } else {
      assert stocks[..n - 1] == stocks[..j];
    }
  }

  /** Every position keeps its symbol, quantity and buy price through a pass. */
  lemma {:induction false} CycleKeepsPositions(stocks: seq<PortfolioStock>, cache: Cache, requests: seq<Option<string>>,
                                               network: Network, parse: string -> Option<real>)
    ensures forall j :: 0 <= j < |stocks| ==>
              SamePosition(Cycle(stocks, cache, requests, network, parse).stocks[j], stocks[j])
  {
    forall j | 0 <= j < |stocks|
      ensures SamePosition(Cycle(stocks, cache, requests, network, parse).stocks[j], stocks[j])
    {
      CycleAt(stocks, cache, requests, network, parse, j);
      var before := Cycle(stocks[..j], cache, requests, network, parse);
      VisitFrame(stocks[j], before.cache, before.requests, network, parse);
    }
  }

  /** `c` holds every entry of `d` with the same price. */
  predicate Extends(c: Cache, d: Cache) {
    forall k :: k in d ==> k in c && c[k] == d[k]
  }

  /** Later turns only add to the cache and append to the request log. */
  lemma {:induction false} CycleGrows(stocks: seq<PortfolioStock>, cache: Cache, requests: seq<Option<string>>,
                                      network: Network, parse: string -> Option<real>, i: int)
    requires 0 <= i <= |stocks|
    ensures var mid := Cycle(stocks[..i], cache, requests, network, parse);
            var end := Cycle(stocks, cache, requests, network, parse);
            Extends(end.cache, mid.cache) &&
            |mid.requests| <= |end.requests| && end.requests[..|mid.requests|] == mid.requests
  {
    var n := |stocks|;
    if i < n {
      var init := stocks[..n - 1];
      CycleGrows(init, cache, requests, network, parse, i);
      assert init[..i] == stocks[..i];
      var before := Cycle(init, cache, requests, network, parse);
      VisitFrame(stocks[n - 1], before.cache, before.requests, network, parse);
    } else {
      assert stocks[..i] == stocks;
    }
  }

  /**
   * Once a symbol's price is in the cache, every later position with that
   * symbol takes exactly that price.
   */
  lemma CachedPriceReused(stocks: seq<PortfolioStock>, cache: Cache, requests: seq<Option<string>>,
                          network: Network, parse: string -> Option<real>, i: int, j: int)
    requires 0 <= i <= j < |stocks|
    requires stocks[j].symbol in Cycle(stocks[..i], cache, requests, network, parse).cache
    ensures Cycle(stocks, cache, requests, network, parse).stocks[j].currentPrice ==
              Some(Cycle(stocks[..i], cache, requests, network, parse).cache[stocks[j].symbol])
  {
    var prefix := stocks[..j];
    assert prefix[..i] == stocks[..i];
    CycleGrows(prefix, cache, requests, network, parse, i);
    CycleAt(stocks, cache, requests, network, parse, j);
    var before := Cycle(prefix, cache, requests, network, parse);
    CacheHit(stocks[j], before.cache, before.requests, network, parse);
  }

  /** A turn sends no request for a symbol that is already cached. */
  lemma VisitNoRequestFor(stock: PortfolioStock, cache: Cache, requests: seq<Option<string>>,
                          network: Network, parse: string -> Option<real>, symbol: Option<string>)
    requires symbol in cache
    ensures var t := Visit(stock, cache, requests, network, parse);
            symbol in t.cache &&
            (t.requests == requests || (t.requests == requests + [stock.symbol] && stock.symbol != symbol))
  {
  }

  /** Appending nothing, or a request for another symbol, keeps `symbol` out of the log's tail. */
  lemma NoNewRequestFor(log: seq<Option<string>>, log': seq<Option<string>>, sent: Option<string>,
                        from: int, symbol: Option<string>)
    requires 0 <= from
    requires forall k :: from <= k < |log| ==> log[k] != symbol
    requires log' == log || (log' == log + [sent] && sent != symbol)
    ensures forall k :: from <= k < |log'| ==> log'[k] != symbol
  {
  }

  /** Once a symbol's price is in the cache, no request for it is sent again in the pass. */
  lemma {:induction false} CachedSymbolNotRequested(stocks: seq<PortfolioStock>, cache: Cache,
                                                    requests: seq<Option<string>>, network: Network,
                                                    parse: string -> Option<real>, i: int, symbol: Option<string>)
    requires 0 <= i <= |stocks|
    requires symbol in Cycle(stocks[..i], cache, requests, network, parse).cache
    ensures var mid := Cycle(stocks[..i], cache, requests, network, parse);
            var end := Cycle(stocks, cache, requests, network, parse);
            forall k :: |mid.requests| <= k < |end.requests| ==> end.requests[k] != symbol
  {
    var n := |stocks|;
    if i < n {
      var init := stocks[..n - 1];
      assert init[..i] == stocks[..i];
      CachedSymbolNotRequested(init, cache, requests, network, parse, i, symbol);
      CycleGrows(init, cache, requests, network, parse, i);
      var before := Cycle(init, cache, requests, network, parse);
      var last := stocks[n - 1];
      VisitNoRequestFor(last, before.cache, before.requests, network, parse, symbol);
      var end := Visit(last, before.cache, before.requests, network, parse).requests;
      var from := |Cycle(stocks[..i], cache, requests, network, parse).requests|;
      NoNewRequestFor(before.requests, end, last.symbol, from, symbol);
    } else {
      assert stocks[..i] == stocks;
    }
  }

  /** The `k`-th request of `log` asked for `symbol`, and its reply yields `price`. */
  predicate QuotedAt(log: seq<Option<string>>, k: int, symbol: Option<string>, price: real,
                     network: Network, parse: string -> Option<real>) {
    0 <= k < |log| && log[k] == symbol && Price(network(log[..k + 1]), parse) == Some(price)
  }

  /** Sending more requests does not change what an earlier one was answered. */
  lemma QuotedAtExtends(log: seq<Option<string>>, more: seq<Option<string>>, k: int, symbol: Option<string>,
                        price: real, network: Network, parse: string -> Option<real>)
    requires QuotedAt(log, k, symbol, price, network, parse)
    ensures QuotedAt(log + more, k, symbol, price, network, parse)
  {
    assert (log + more)[..k + 1] == log[..k + 1];
  }

  /**
   * Every price a pass caches came from a reply: starting from an empty
   * cache, each entry was parsed from the quote answering a request for that
   * symbol sent during the pass.
   */
  lemma {:induction false} CachedPriceWasQuoted(stocks: seq<PortfolioStock>, requests: seq<Option<string>>,
                                                network: Network, parse: string -> Option<real>, symbol: Option<string>)
    requires symbol in Cycle(stocks, map[], requests, network, parse).cache
    ensures var end := Cycle(stocks, map[], requests, network, parse);
            exists k :: |requests| <= k && QuotedAt(end.requests, k, symbol, end.cache[symbol], network, parse)
  {
    var n := |stocks|;
    var init, last := stocks[..n - 1], stocks[n - 1];
    var before := Cycle(init, map[], requests, network, parse);
    var end := Cycle(stocks, map[], requests, network, parse);
    var t := Visit(last, before.cache, before.requests, network, parse);
    assert end == Pass(before.stocks + [t.stock], t.cache, t.requests);
    VisitFrame(last, before.cache, before.requests, network, parse);
    if symbol in before.cache {
      CachedPriceWasQuoted(init, requests, network, parse, symbol);
      var k :| |requests| <= k && QuotedAt(before.requests, k, symbol, before.cache[symbol], network, parse);
      AtMostOneRequestPerPosition(init, map[], requests, network, parse);
      QuotedAtExtends(before.requests, end.requests[|before.requests|..], k, symbol, before.cache[symbol], network, parse);
      assert before.requests + end.requests[|before.requests|..] == end.requests;
    } else {
      CacheMiss(last, before.cache, before.requests, network, parse);
      var k := |end.requests| - 1;
      AtMostOneRequestPerPosition(init, map[], requests, network, parse);
      assert end.requests[..k + 1] == end.requests;
      assert QuotedAt(end.requests, k, symbol, end.cache[symbol], network, parse);
    }
  }

  /** A pass sends at most one request per position. */
  lemma {:induction false} AtMostOneRequestPerPosition(stocks: seq<PortfolioStock>, cache: Cache,
                                                       requests: seq<Option<string>>, network: Network,
                                                       parse: string -> Option<real>)
    ensures var end := Cycle(stocks, cache, requests, network, parse);
            |requests| <= |end.requests| <= |requests| + |stocks|
  {
    if stocks != [] {
      var init := stocks[..|stocks| - 1];
      AtMostOneRequestPerPosition(init, cache, requests, network, parse);
      var before := Cycle(init, cache, requests, network, parse);
      VisitFrame(stocks[|stocks| - 1], before.cache, before.requests, network, parse);
    }
  }

  /** A pass over one more position: its turn is taken with what the earlier turns left. */
  lemma CycleStep(stocks: seq<PortfolioStock>, cache: Cache, requests: seq<Option<string>>,
                  network: Network, parse: string -> Option<real>, i: int)
    requires 0 <= i < |stocks|
    ensures var before := Cycle(stocks[..i], cache, requests, network, parse);
            var t := Visit(stocks[i], before.cache, before.requests, network, parse);
            Cycle(stocks[..i + 1], cache, requests, network, parse) == Pass(before.stocks + [t.stock], t.cache, t.requests)
  {
    assert stocks[..i + 1][..i] == stocks[..i];
  }

  /**
   * The service: the price cache (empty between passes), the rows of the
   * portfolio-stock repository, and the log of quote requests it has sent.
   */
  class StockPriceUpdater {
    var priceCache: Cache
    var rows: seq<PortfolioStock>
    var requests: seq<Option<string>>

    predicate Valid()
      reads this
    {
      priceCache == map[]
    }

    constructor(rows: seq<PortfolioStock>)
      ensures Valid() && this.rows == rows && requests == []
    {
      priceCache := map[];
      this.rows := rows;
      requests := [];
    }

    /**
     * The body of the loop for one position: the cache lookup, else the quote
     * request and the checks on its reply. Returns the position as it is saved.
     */
    method TakeTurn(stock: PortfolioStock, network: Network, parse: string -> Option<real>)
      returns (saved: PortfolioStock)
      modifies this
      ensures rows == old(rows)
      ensures Turn(saved, priceCache, requests) == Visit(stock, old(priceCache), old(requests), network, parse)
    {
      saved := stock;
      var symbol := stock.symbol;
      if symbol in priceCache {
        saved := stock.(currentPrice := Some(priceCache[symbol]));
        return;
      }
      requests := requests + [symbol];
      var response := FetchApiResponse(network(requests));
      if QuoteKey in response && response[QuoteKey].Object? {
        var priceObj := Get(response[QuoteKey].members, PriceKey);
        if priceObj.Some? && priceObj.value.Text? {
          var currentPrice := parse(priceObj.value.text);
          if currentPrice.Some? {
            saved := stock.(currentPrice := currentPrice);
            priceCache := priceCache[symbol := currentPrice.value];
          }
        }
      }
    }

    /** The loop invariant of a pass: the first `i` rows have had their turn, the rest are untouched. */
    ghost predicate Refreshed(start: seq<PortfolioStock>, log: seq<Option<string>>, network: Network,
                              parse: string -> Option<real>, i: int)
      reads this
    {
      0 <= i <= |rows| == |start| && rows[i..] == start[i..] &&
      Pass(rows[..i], priceCache, requests) == Cycle(start[..i], map[], log, network, parse)
    }

    /** One iteration of the loop: row `i` takes its turn and is saved back. */
    method RefreshRow(ghost start: seq<PortfolioStock>, ghost log: seq<Option<string>>, network: Network,
                      parse: string -> Option<real>, i: int)
      requires Refreshed(start, log, network, parse, i) && i < |rows|
      modifies this
      ensures Refreshed(start, log, network, parse, i + 1)
    {
      ghost var before := Pass(rows[..i], priceCache, requests);
      ghost var t := Visit(start[i], priceCache, requests, network, parse);
      CycleStep(start, map[], log, network, parse, i);
      assert rows[i] == start[i];
      var saved := TakeTurn(rows[i], network, parse);
      assert Turn(saved, priceCache, requests) == t;
      rows := rows[i := saved];
      assert rows[..i + 1] == before.stocks + [t.stock];
    }

    /**
     * `updateStockPrices`: one pass over all rows, each saved back in place,
     * then the cache is cleared.
     */
    method UpdateStockPrices(network: Network, parse: string -> Option<real>)
      requires Valid()
      modifies this
      ensures Valid()
      ensures rows == Cycle(old(rows), map[], old(requests), network, parse).stocks
      ensures requests == Cycle(old(rows), map[], old(requests), network, parse).requests
    {
      ghost var start, log := rows, requests;
      var i := 0;
      while i < |rows|
        invariant Refreshed(start, log, network, parse, i)
      {
        RefreshRow(start, log, network, parse, i);
        i := i + 1;
      }
      assert start[..i] == start;
      assert rows[..i] == rows;
      priceCache := map[];
    }
  }
}
