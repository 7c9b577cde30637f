/**
 * The per-symbol result record (`StockData`): a mutable object whose setters
 * the aggregation pipeline calls, plus its value view `StockRecord`.
 */
module StockModel {
  import opened Optional
  import opened PriceSeries

  /** The field values of one `StockData` object; `None` stands for `null`. */
  datatype StockRecord = StockRecord(
    symbol: Option<string>,
    closingPrices: Option<Series>,
    latestPrice: Option<real>,
    movingAverage: Option<real>,
    volatility: Option<real>,
    ema: Option<real>,
    rsi: Option<real>,
    statusMessage: Option<string>)

  /** The record of a failed fetch: symbol and status set, everything else null. */
  function ErrorRecord(symbol: string, message: string): StockRecord {
    StockRecord(Some(symbol), None, None, None, None, None, None, Some(message))
  }

  /**
   * The entry with the greatest date, found as `Stream.max` with
   * `Map.Entry.comparingByKey()` does: a left-to-right reduction that keeps
   * the accumulated entry unless the next one is strictly greater.
   */
  function MaxByDate(s: Series): (m: DailyClose)
    requires |s| > 0
    ensures m in s
    ensures forall i :: 0 <= i < |s| ==> s[i].date <= m.date
  {
    if |s| == 1 then s[0]
    else
      var m := MaxByDate(s[..|s| - 1]);
      assert forall i :: 0 <= i < |s| - 1 ==> s[i] == s[..|s| - 1][i];
      if m.date >= s[|s| - 1].date then m else s[|s| - 1]
  }

  /**
   * The constructor's `latestPrice`: the price at the maximum date, or null
   * when the series is null or empty.
   */
  function LatestPrice(prices: Option<Series>): (r: Option<real>)
    ensures r.None? <==> prices.None? || prices.value == []
    ensures r.Some? ==> exists i :: 0 <= i < |prices.value| && r.value == prices.value[i].price
                                    && forall j :: 0 <= j < |prices.value| ==> prices.value[j].date <= prices.value[i].date
  {
    if prices.None? || prices.value == [] then None
    else
      var m := MaxByDate(prices.value);
      ghost var k :| 0 <= k < |prices.value| && prices.value[k] == m;
      Some(m.price)
  }

  /** For a TreeMap-ordered series the latest price is the last entry's. */
  lemma {:induction false} LatestPriceIsLast(s: Series)
    requires Ascending(s) && s != []
    ensures LatestPrice(Some(s)) == Some(s[|s| - 1].price)
    ensures LatestPrice(Some(s)) == Lookup(s, s[|s| - 1].date)
  {
    var m := MaxByDate(s);
    var k :| 0 <= k < |s| && s[k] == m;
    assert k == |s| - 1;
    LookupInAscending(s, |s| - 1);
  }

  /** In an ascending series the entry at position `k` is what `Lookup` finds for its date. */
  lemma {:induction false} LookupInAscending(s: Series, k: int)
    requires Ascending(s) && 0 <= k < |s|
    ensures Lookup(s, s[k].date) == Some(s[k].price)
  {
    if k > 0 {
      assert s[0].date < s[k].date;
      LookupInAscending(s[1..], k - 1);
    }
  }

  /** The service's `StockData`; the Lombok setters are plain field writes. */
  class StockData {
    var symbol: Option<string>
    var closingPrices: Option<Series>
    var latestPrice: Option<real>
    var movingAverage: Option<real>
    var volatility: Option<real>
    var ema: Option<real>
    var rsi: Option<real>
    var statusMessage: Option<string>

    /** A stored series is a TreeMap, so it is in ascending date order. */
    predicate Valid()
      reads this
    {
      closingPrices.Some? ==> Ascending(closingPrices.value)
    }

    function View(): StockRecord
      reads this
    {
      StockRecord(symbol, closingPrices, latestPrice, movingAverage, volatility, ema, rsi, statusMessage)
    }

    /** The no-argument constructor: every field null. */
    constructor Empty()
      ensures Valid()
      ensures View() == StockRecord(None, None, None, None, None, None, None, None)
    {
      symbol, closingPrices, latestPrice := None, None, None;
      movingAverage, volatility, ema, rsi, statusMessage := None, None, None, None, None;
    }

    /**
     * The two-argument constructor: stores symbol and series unchanged and
     * derives `latestPrice`; every other field, the status included, stays null.
     */
    constructor (symbol: string, closingPrices: Option<Series>)
      requires closingPrices.Some? ==> Ascending(closingPrices.value)
      ensures Valid()
      ensures View() == StockRecord(Some(symbol), closingPrices, LatestPrice(closingPrices), None, None, None, None, None)
    {
      this.symbol := Some(symbol);
      this.closingPrices := closingPrices;
      latestPrice := None;
      if closingPrices.Some? && closingPrices.value != [] {
        latestPrice := Some(MaxByDate(closingPrices.value).price);
      }
      movingAverage, volatility, ema, rsi, statusMessage := None, None, None, None, None;
    }
  }
}
