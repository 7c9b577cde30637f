/**
 * The market-data fetcher of `StockServiceImpl`: classifies the provider's
 * daily-series reply and parses at most the first 30 entries of the decoded
 * time-series map into a date-sorted series.
 */
module StockFetcher {
  import opened Optional
  import opened PriceSeries
  import opened Provider
  import opened StockModel

  const NoteKey := "Note"
  const ErrorKey := "Error Message"
  const DailyKey := "Time Series (Daily)"
  const CloseKey := "4. close"

  const NoResponseMessage := "No response from Alpha Vantage API"
  const RateLimitPrefix := "API rate limit reached: "
  const ApiErrorPrefix := "API error: "
  const UnexpectedMessage := "Unexpected API response structure"
  const ExceptionPrefix := "Exception: "

  /** The parse loop stops after this many map entries. */
  const MaxEntries := 30

  /** What the checks on the reply decided, in the order they are made. */
  datatype Reading =
    | Missing                        // null body
    | RateLimited(note: Value)       // "Note" present
    | ProviderError(error: Value)    // "Error Message" present
    | DailySeries(series: Value)     // "Time Series (Daily)" present
    | Unrecognised                   // none of the three keys
    | CallFailed(message: string)    // the HTTP call threw

  /**
   * The response checks. The first matching check decides, so a rate-limit
   * note wins over an error message, and both win over a time series.
   */
  function Classify(reply: Reply): (r: Reading)
    ensures r.Missing? <==> reply.NoBody?
    ensures r.CallFailed? <==> reply.Thrown?
    ensures r.RateLimited? <==> reply.Body? && NoteKey in reply.response
    ensures r.ProviderError? <==> reply.Body? && NoteKey !in reply.response && ErrorKey in reply.response
    ensures r.DailySeries? <==> reply.Body? && NoteKey !in reply.response && ErrorKey !in reply.response
                                && DailyKey in reply.response
    ensures r.Unrecognised? <==> reply.Body? && NoteKey !in reply.response && ErrorKey !in reply.response
                                 && DailyKey !in reply.response
    ensures r.RateLimited? ==> r.note == reply.response[NoteKey]
    ensures r.ProviderError? ==> r.error == reply.response[ErrorKey]
    ensures r.DailySeries? ==> r.series == reply.response[DailyKey]
    ensures r.CallFailed? ==> r.message == reply.message
  {
    match reply
    case NoBody => Missing
    case Thrown(m) => CallFailed(m)
    case Body(response) =>
      if NoteKey in response then RateLimited(response[NoteKey])
      else if ErrorKey in response then ProviderError(response[ErrorKey])
      else if DailyKey in response then DailySeries(response[DailyKey])
      else Unrecognised
  }

  /** What reading one day's "4. close" field yields. */
  datatype CloseField =
    | Absent              // missing or JSON null: `parseDoubleSafe(null)` gives null
    | CloseText(text: string)
    | Unreadable          // the record is not an object, or the close is not a string: a cast fails

  function CloseOf(record: Value): CloseField {
    match record
    case Object(members) =>
      (match Get(members, CloseKey)
       case None => Absent
       case Some(Null) => Absent
       case Some(Text(t)) => CloseText(t)
       case Some(_) => Unreadable)
    case _ => Unreadable
  }

  /** The entry's date and close, when both parse. */
  function Parsed(e: Member, parseDate: string -> Option<int>, parseClose: string -> Option<real>): Option<DailyClose> {
    match CloseOf(e.value)
    case CloseText(t) =>
      if parseDate(e.key).Some? && parseClose(t).Some? then Some(DailyClose(parseDate(e.key).value, parseClose(t).value))
      else None
    case _ => None
  }

  /** One step of the parse loop: `None` when reading the entry throws. */
  function Absorb(acc: Series, e: Member, parseDate: string -> Option<int>, parseClose: string -> Option<real>): Option<Series>
    requires Ascending(acc)
  {
    if CloseOf(e.value).Unreadable? then None
    else match Parsed(e, parseDate, parseClose)
      case Some(c) => Some(Put(acc, c.date, c.price))
      case None => Some(acc)
  }

  /** The series the parse loop builds from `es`, taken in iteration order. */
  function Collect(es: seq<Member>, parseDate: string -> Option<int>, parseClose: string -> Option<real>): (r: Option<Series>)
    ensures r.Some? ==> Ascending(r.value)
  {
    if es == [] then Some([])
    else match Collect(es[..|es| - 1], parseDate, parseClose)
      case None => None
      case Some(acc) => Absorb(acc, es[|es| - 1], parseDate, parseClose)
  }

  /** Independent reference: the close of the last entry in `es` that parses with date `d`. */
  function LastClose(es: seq<Member>, d: int, parseDate: string -> Option<int>, parseClose: string -> Option<real>): Option<real> {
    if es == [] then None
    else
      var p := Parsed(es[|es| - 1], parseDate, parseClose);
      if p.Some? && p.value.date == d then Some(p.value.price)
      else LastClose(es[..|es| - 1], d, parseDate, parseClose)
  }

  /** The entries the loop looks at: the first 30 in iteration order. */
  function Examined(es: seq<Member>): seq<Member> {
    if |es| <= MaxEntries then es else es[..MaxEntries]
  }

  /**
   * Every stored date comes from an entry whose date and close both parsed,
   * and it holds the close of the last such entry: a later key that parses
   * to the same date overwrites an earlier one.
   */
  lemma {:induction false} CollectKeepsLastClose(es: seq<Member>, d: int, parseDate: string -> Option<int>, parseClose: string -> Option<real>)
    requires Collect(es, parseDate, parseClose).Some?
    ensures Lookup(Collect(es, parseDate, parseClose).value, d) == LastClose(es, d, parseDate, parseClose)
  {
    if es != [] {
      var init := es[..|es| - 1];
      CollectKeepsLastClose(init, d, parseDate, parseClose);
      var acc := Collect(init, parseDate, parseClose).value;
      var c := Parsed(es[|es| - 1], parseDate, parseClose);
      if c.Some? {
        PutLookup(acc, c.value.date, c.value.price, d);
      }
    }
  }

  /** Some entry of `es` cannot be read as a day record. */
  predicate HasUnreadable(es: seq<Member>) {
    exists j :: 0 <= j < |es| && CloseOf(es[j].value).Unreadable?
  }

  /** The loop throws exactly when one of the entries it reads is unreadable. */
  lemma {:induction false} CollectFailsOnUnreadable(es: seq<Member>, parseDate: string -> Option<int>, parseClose: string -> Option<real>)
    ensures Collect(es, parseDate, parseClose).None? <==> HasUnreadable(es)
  {
    if es != [] {
      var init := es[..|es| - 1];
      var last := es[|es| - 1];
      CollectFailsOnUnreadable(init, parseDate, parseClose);
      if HasUnreadable(init) {
        var j :| 0 <= j < |init| && CloseOf(init[j].value).Unreadable?;
        assert es[j] == init[j];
      } else if CloseOf(last.value).Unreadable? {
        assert CloseOf(es[|es| - 1].value).Unreadable?;
      } else {
        assert Collect(es, parseDate, parseClose).Some?;
        forall j | 0 <= j < |es| ensures !CloseOf(es[j].value).Unreadable? {
          if j < |init| { assert es[j] == init[j]; }
        }
      }
    }
  }

  /** `parseDateSafe` / `parseDoubleSafe` plus the counting loop over the map's entries. */
  method ParseDaily(entries: seq<Member>, parseDate: string -> Option<int>, parseClose: string -> Option<real>)
    returns (r: Option<Series>)
    ensures r == Collect(Examined(entries), parseDate, parseClose)
  {
    var prices: Series := [];
    var count := 0;
    var i := 0;
    while i < |entries|
      invariant 0 <= i <= |entries| && i <= MaxEntries
      invariant count == i
      invariant Collect(entries[..i], parseDate, parseClose) == Some(prices)
    {
      var seen := count;
      count := count + 1;
      if seen >= MaxEntries {
        break;
      }
      var e := entries[i];
      assert entries[..i + 1][..i] == entries[..i];
      var date := parseDate(e.key);
      var close: Option<real>;
      match CloseOf(e.value) {
        case Unreadable =>
          CollectFailsOnUnreadable(Examined(entries), parseDate, parseClose);
          assert Examined(entries)[i] == e;
          return None;
        case Absent =>
          close := None;
        case CloseText(t) =>
          close := parseClose(t);
      }
      if date.Some? && close.Some? {
        prices := Put(prices, date.value, close.value);
      }
      i := i + 1;
    }
    assert entries[..i] == Examined(entries);
    r := Some(prices);
  }

  /** `errorStockData`: a fresh record with the symbol and status set and no series. */
  method ErrorStockData(symbol: string, message: string) returns (d: StockData)
    ensures fresh(d) && d.Valid()
    ensures d.View() == ErrorRecord(symbol, message)
  {
    d := new StockData.Empty();
    d.symbol := Some(symbol);
    d.statusMessage := Some(message);
  }

  /**
   * The series read from the "Time Series (Daily)" value, or `None` when
   * reading it throws. The loop iterates the decoded map, so a date key the
   * reply repeats is seen once, with its last record.
   */
  function DailyPrices(series: Value, parseDate: string -> Option<int>, parseClose: string -> Option<real>): Option<Series> {
    if series.Object? then Collect(Examined(Entries(series.members)), parseDate, parseClose) else None
  }

  /**
   * A date key given twice is one map entry holding the later record: an
   * unreadable first record does not make the parse throw.
   */
  lemma RepeatedDateKeyReadOnce(earlier: Member, later: Member, parseDate: string -> Option<int>, parseClose: string -> Option<real>)
    requires earlier.key == later.key
    requires CloseOf(earlier.value).Unreadable? && !CloseOf(later.value).Unreadable?
    ensures DailyPrices(Object([earlier, later]), parseDate, parseClose) == Collect([later], parseDate, parseClose)
    ensures DailyPrices(Object([earlier, later]), parseDate, parseClose).Some?
  {
    RepeatedKeyOneEntry(earlier, later);
    assert [later][..0] == [];
  }

  /**
   * `fetchStockDataInternal` after the HTTP call: `show` renders a JSON value
   * as string concatenation does, and `crash` is the message of the runtime
   * exception a malformed series raises.
   */
  method FetchStockDataInternal(symbol: string, reply: Reply, parseDate: string -> Option<int>,
                                parseClose: string -> Option<real>, show: Value -> string, crash: string)
    returns (d: StockData)
    ensures fresh(d) && d.Valid()
    ensures match Classify(reply)
      case Missing => d.View() == ErrorRecord(symbol, NoResponseMessage)
      case CallFailed(m) => d.View() == ErrorRecord(symbol, ExceptionPrefix + m)
      case RateLimited(note) => d.View() == ErrorRecord(symbol, RateLimitPrefix + show(note))
      case ProviderError(e) => d.View() == ErrorRecord(symbol, ApiErrorPrefix + show(e))
      case Unrecognised => d.View() == ErrorRecord(symbol, UnexpectedMessage)
      case DailySeries(v) =>
        (match DailyPrices(v, parseDate, parseClose)
         case Some(s) => d.View() == StockRecord(Some(symbol), Some(s), LatestPrice(Some(s)), None, None, None, None, None)
         case None => d.View() == ErrorRecord(symbol, ExceptionPrefix + crash))
  {
    match Classify(reply) {
      case Missing =>
        d := ErrorStockData(symbol, NoResponseMessage);
      case CallFailed(m) =>
        d := ErrorStockData(symbol, ExceptionPrefix + m);
      case RateLimited(note) =>
        d := ErrorStockData(symbol, RateLimitPrefix + show(note));
      case ProviderError(e) =>
        d := ErrorStockData(symbol, ApiErrorPrefix + show(e));
      case Unrecognised =>
        d := ErrorStockData(symbol, UnexpectedMessage);
      case DailySeries(v) =>
        if !v.Object? {
          // a null value or a non-object fails the cast or the iteration
          d := ErrorStockData(symbol, ExceptionPrefix + crash);
        } else {
          var prices := ParseDaily(Entries(v.members), parseDate, parseClose);
          if prices.Some? {
            d := new StockData(symbol, prices);
          } else {
            d := ErrorStockData(symbol, ExceptionPrefix + crash);
          }
        }
    }
  }
}
