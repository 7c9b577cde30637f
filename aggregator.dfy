/**
 * `DataAggregatorServiceImpl`: every requested symbol's fetch is resolved,
 * the fetched `StockData` is filtered and analysed in place, and the
 * resulting objects are collected in a map keyed by symbol. The futures are
 * given as already-resolved outcomes, one per requested symbol.
 */
module Aggregator {
  import opened Optional
  import opened PriceSeries
  import opened StockModel
  import opened Indicators

  const NoDataMessage := "No data returned from API or symbol not found."
  const NoRangeDataMessage := "No data available for the selected date range."
  const SimulatedPrefix := "Simulated final portfolio value: "
  const InterruptedPrefix := "Interrupted: "
  const ErrorPrefix := "Error: "

  /** A resolved `Future<StockData>`: a value, an `InterruptedException`, or any other exception (a timeout included). */
  datatype Outcome = Completed(data: StockData) | Interrupted(message: string) | Failed(message: string)

  /** The value an outcome carries, with the fetched object read as its field values. */
  datatype Resolution = Done(record: StockRecord) | Stopped(message: string) | Crashed(message: string)

  /** An inclusive date range, both ends given. */
  datatype DateRange = DateRange(start: int, end: int)

  /** The parameters of one `fetchAndAggregate*` call. */
  datatype Analysis = Analysis(maPeriod: int, volPeriod: int, shortPeriod: int, longPeriod: int,
                               withEmaRsi: bool, range: Option<DateRange>)

  /**
   * Calls the pipeline makes into code that is not part of this model:
   * `Math.sqrt`, `calculateEMA`, `calculateRSI` (given the record as it
   * stands when they are called) and the rendering of a `double` in a string.
   */
  datatype Foreign = Foreign(sqrt: real -> real, ema: (StockRecord, int) -> Option<real>,
                             rsi: (StockRecord, int) -> Option<real>, showReal: real -> string)

  /** Periods the arithmetic is defined for. */
  predicate ValidAnalysis(a: Analysis) {
    a.maPeriod >= 1 && a.volPeriod >= 1 && 1 <= a.shortPeriod <= a.longPeriod
  }

  /** A record whose series, if any, is date-ordered with positive prices. */
  predicate Admissible(rec: StockRecord) {
    rec.closingPrices.Some? ==> Ascending(rec.closingPrices.value) && AllPositive(Prices(rec.closingPrices.value))
  }

  function Max(x: int, y: int): int {
    if x >= y then x else y
  }

  // ---------------------------------------------------------------- date-range filter

  predicate InRange(d: int, r: DateRange) {
    r.start <= d <= r.end
  }

  /** The entries of `s` whose date lies in `r`, in their order in `s`. */
  function Window(s: Series, r: DateRange): (w: Series)
    ensures forall x :: x in w <==> x in s && InRange(x.date, r)
  {
    if s == [] then []
    else
      var init, last := s[..|s| - 1], s[|s| - 1];
      assert s == init + [last];
      var w := Window(init, r);
      if InRange(last.date, r) then w + [last] else w
  }

  lemma {:induction false} WindowAscending(s: Series, r: DateRange)
    requires Ascending(s)
    ensures Ascending(Window(s, r))
  {
    if s != [] {
      var init, last := s[..|s| - 1], s[|s| - 1];
      WindowAscending(init, r);
      var w := Window(init, r);
      forall k | 0 <= k < |w| ensures w[k].date < last.date {
        assert w[k] in init;
      }
    }
  }

  lemma {:induction false} WindowPositive(s: Series, r: DateRange)
    requires AllPositive(Prices(s))
    ensures AllPositive(Prices(Window(s, r)))
  {
    var w := Window(s, r);
    forall k | 0 <= k < |w| ensures Prices(w)[k] > 0.0 {
      assert w[k] in s;
      var j :| 0 <= j < |s| && s[j] == w[k];
      assert Prices(s)[j] == s[j].price;
    }
  }

  lemma {:induction false} WindowEmpty(s: Series, r: DateRange)
    requires forall i :: 0 <= i < |s| ==> !InRange(s[i].date, r)
    ensures Window(s, r) == []
  {
    if s != [] {
      WindowEmpty(s[..|s| - 1], r);
    }
  }

  /** Filtering twice gives the same series as filtering once. */
  lemma {:induction false} WindowIdempotent(s: Series, r: DateRange)
    ensures Window(Window(s, r), r) == Window(s, r)
  {
    if s != [] {
      var init, last := s[..|s| - 1], s[|s| - 1];
      WindowIdempotent(init, r);
      var w := Window(init, r);
      if InRange(last.date, r) {
        assert (w + [last])[..|w|] == w;
      }
    }
  }

  /** One more entry of an ascending series: the window `put`s it when its date is in range. */
  lemma {:induction false} WindowStep(s: Series, i: int, r: DateRange)
    requires Ascending(s) && 0 <= i < |s|
    ensures Ascending(Window(s[..i], r))
    ensures Window(s[..i + 1], r) ==
              if InRange(s[i].date, r) then Put(Window(s[..i], r), s[i].date, s[i].price) else Window(s[..i], r)
  {
    var w := Window(s[..i], r);
    assert s[..i + 1][..i] == s[..i];
    WindowAscending(s[..i], r);
    if InRange(s[i].date, r) {
      forall k | 0 <= k < |w| ensures w[k].date < s[i].date {
        assert w[k] in s[..i];
      }
      PutAfterLast(w, s[i].date, s[i].price);
    }
  }

  /** The filter's loop: every entry is visited in date order and `put` into a fresh `TreeMap` when in range. */
  method FilterRange(s: Series, r: DateRange) returns (filtered: Series)
    requires Ascending(s)
    ensures filtered == Window(s, r)
  {
    filtered := [];
    var i := 0;
    while i < |s|
      invariant 0 <= i <= |s|
      invariant filtered == Window(s[..i], r)
    {
      var e := s[i];
      WindowStep(s, i, r);
      if r.start <= e.date && e.date <= r.end {
        filtered := Put(filtered, e.date, e.price);
      }
      i := i + 1;
    }
    assert s[..i] == s;
  }

  // ---------------------------------------------------------------- one symbol

  /** The moving-average setter: the last of the moving averages, when there is one. */
  function Averaged(rec: StockRecord, prices: seq<real>, a: Analysis): StockRecord
    requires ValidAnalysis(a)
  {
    var ma := MovingAverages(prices, a.maPeriod);
    if ma != [] then rec.(movingAverage := Some(ma[|ma| - 1])) else rec
  }

  /** The setters past the size gate: volatility, simulated-value status, then EMA and RSI when requested. */
  function Gated(rec: StockRecord, prices: seq<real>, a: Analysis, f: Foreign): StockRecord
    requires ValidAnalysis(a) && AllPositive(prices)
  {
    var value := SimulatedValue(prices, a.shortPeriod, a.longPeriod);
    var simulated := rec.(volatility := Volatility(prices, a.volPeriod, f.sqrt),
                          statusMessage := Some(SimulatedPrefix + f.showReal(value)));
    if a.withEmaRsi then
      var withEma := simulated.(ema := f.ema(simulated, a.maPeriod));
      withEma.(rsi := f.rsi(withEma, a.maPeriod))
    else simulated
  }

  /** The analytics once the series `s` is known to be non-empty. */
  function Analyzed(rec: StockRecord, s: Series, a: Analysis, f: Foreign): StockRecord
    requires rec.closingPrices == Some(s) && Admissible(rec) && ValidAnalysis(a)
  {
    var withMa := Averaged(rec, Prices(s), a);
    if |s| >= Max(a.maPeriod, a.volPeriod) then Gated(withMa, Prices(s), a, f) else withMa
  }

  /** The series the analytics run on: the stored one, or its window when a range is given. */
  function Effective(s: Series, a: Analysis): (w: Series)
    requires Ascending(s) && AllPositive(Prices(s))
    ensures Ascending(w) && AllPositive(Prices(w))
  {
    if a.range.Some? then
      WindowAscending(s, a.range.value);
      WindowPositive(s, a.range.value);
      Window(s, a.range.value)
    else s
  }

  /** The field values a fetched `StockData` ends up with. */
  function Processed(rec: StockRecord, a: Analysis, f: Foreign): (r: StockRecord)
    requires Admissible(rec) && ValidAnalysis(a)
    ensures r.symbol == rec.symbol && r.latestPrice == rec.latestPrice
    ensures Admissible(r)
  {
    if rec.closingPrices.None? || rec.closingPrices.value == [] then
      rec.(statusMessage := Some(NoDataMessage))
    else
      var s := rec.closingPrices.value;
      var w := Effective(s, a);
      if a.range.Some? then
        var narrowed := rec.(closingPrices := Some(w));
        if w == [] then narrowed.(statusMessage := Some(NoRangeDataMessage))
        else Analyzed(narrowed, w, a, f)
      else Analyzed(rec, s, a, f)
  }

  /** `Analyzed` changes only the analytics fields and the status. */
  lemma {:induction false} AnalyzedFrame(rec: StockRecord, s: Series, a: Analysis, f: Foreign)
    requires rec.closingPrices == Some(s) && Admissible(rec) && ValidAnalysis(a)
    ensures var r := Analyzed(rec, s, a, f);
      r.symbol == rec.symbol && r.closingPrices == rec.closingPrices && r.latestPrice == rec.latestPrice
  {
  }

  /**
   * A null or empty series only sets the no-data status; in particular it
   * replaces whatever error status the fetch produced.
   */
  lemma {:induction false} NoSeriesOnlySetsStatus(rec: StockRecord, a: Analysis, f: Foreign)
    requires Admissible(rec) && ValidAnalysis(a)
    requires rec.closingPrices.None? || rec.closingPrices == Some([])
    ensures Processed(rec, a, f) == rec.(statusMessage := Some(NoDataMessage))
  {
  }

  /** A failed fetch comes out with the no-data status and nothing else but its symbol. */
  lemma {:induction false} FetchErrorBecomesNoData(symbol: string, message: string, a: Analysis, f: Foreign)
    requires ValidAnalysis(a)
    ensures Processed(ErrorRecord(symbol, message), a, f) == ErrorRecord(symbol, NoDataMessage)
  {
    NoSeriesOnlySetsStatus(ErrorRecord(symbol, message), a, f);
  }

  /** A range that selects no stored date stores the empty series and the range status, and runs no analytics. */
  lemma {:induction false} EmptyWindowStatus(rec: StockRecord, r: DateRange, a: Analysis, f: Foreign)
    requires Admissible(rec) && ValidAnalysis(a) && a.range == Some(r)
    requires rec.closingPrices.Some? && rec.closingPrices.value != []
    requires forall i :: 0 <= i < |rec.closingPrices.value| ==> !InRange(rec.closingPrices.value[i].date, r)
    ensures Processed(rec, a, f) == rec.(closingPrices := Some([]), statusMessage := Some(NoRangeDataMessage))
  {
    WindowEmpty(rec.closingPrices.value, r);
  }

  /** A range whose start is after its end always ends in the range status. */
  lemma {:induction false} ReversedRangeHasNoData(rec: StockRecord, r: DateRange, a: Analysis, f: Foreign)
    requires Admissible(rec) && ValidAnalysis(a) && a.range == Some(r) && r.start > r.end
    requires rec.closingPrices.Some? && rec.closingPrices.value != []
    ensures Processed(rec, a, f).closingPrices == Some([])
    ensures Processed(rec, a, f).statusMessage == Some(NoRangeDataMessage)
  {
    EmptyWindowStatus(rec, r, a, f);
  }

  /** With a non-empty effective series, the record is analysed on that series (the window, when a range is given). */
  lemma {:induction false} ProcessedIsAnalyzed(rec: StockRecord, a: Analysis, f: Foreign)
    requires Admissible(rec) && ValidAnalysis(a)
    requires rec.closingPrices.Some? && Effective(rec.closingPrices.value, a) != []
    ensures var w := Effective(rec.closingPrices.value, a);
      Processed(rec, a, f) == Analyzed(rec.(closingPrices := Some(w)), w, a, f)
  {
    if a.range.None? {
      assert rec.(closingPrices := Some(rec.closingPrices.value)) == rec;
    }
  }

  /**
   * The stored moving average is the mean of the last `maPeriod` prices
   * whenever there are that many, and is left as it was otherwise.
   */
  lemma {:induction false} AnalyzedAverage(rec: StockRecord, s: Series, a: Analysis, f: Foreign)
    requires rec.closingPrices == Some(s) && Admissible(rec) && ValidAnalysis(a)
    ensures Analyzed(rec, s, a, f).movingAverage ==
              if |s| >= a.maPeriod then Some(Mean(Prices(s), |s| - a.maPeriod, |s|)) else rec.movingAverage
  {
  }

  /**
   * Past the size gate the volatility is set (and is never null), the status
   * reports the simulated value, and EMA and RSI are set only when requested.
   */
  lemma {:induction false} AnalyzedPastGate(rec: StockRecord, s: Series, a: Analysis, f: Foreign)
    requires rec.closingPrices == Some(s) && Admissible(rec) && ValidAnalysis(a)
    requires |s| >= Max(a.maPeriod, a.volPeriod)
    ensures var r := Analyzed(rec, s, a, f);
      && r.volatility == Volatility(Prices(s), a.volPeriod, f.sqrt)
      && r.volatility.Some?
      && r.statusMessage == Some(SimulatedPrefix + f.showReal(SimulatedValue(Prices(s), a.shortPeriod, a.longPeriod)))
      && (!a.withEmaRsi ==> r.ema == rec.ema && r.rsi == rec.rsi)
  {
  }

  /** Below the size gate only the moving average may change. */
  lemma {:induction false} AnalyzedBelowGate(rec: StockRecord, s: Series, a: Analysis, f: Foreign)
    requires rec.closingPrices == Some(s) && Admissible(rec) && ValidAnalysis(a)
    requires |s| < Max(a.maPeriod, a.volPeriod)
    ensures Analyzed(rec, s, a, f) == rec.(movingAverage := Analyzed(rec, s, a, f).movingAverage)
  {
  }

  /** The filter keeps exactly the stored entries whose date lies in the range. */
  lemma {:induction false} FilterKeepsRange(rec: StockRecord, r: DateRange, a: Analysis, f: Foreign)
    requires Admissible(rec) && ValidAnalysis(a) && a.range == Some(r)
    requires rec.closingPrices.Some? && rec.closingPrices.value != []
    ensures Processed(rec, a, f).closingPrices.Some?
    ensures forall x :: x in Processed(rec, a, f).closingPrices.value <==> x in rec.closingPrices.value && InRange(x.date, r)
  {
    var s := rec.closingPrices.value;
    WindowAscending(s, r);
    WindowPositive(s, r);
    if Window(s, r) != [] {
      AnalyzedFrame(rec.(closingPrices := Some(Window(s, r))), Window(s, r), a, f);
    }
  }

  /** `setMovingAverage` with the last moving average, when there is one. */
  method SetAverage(data: StockData, prices: seq<real>, a: Analysis)
    requires ValidAnalysis(a)
    modifies data
    ensures data.View() == Averaged(old(data.View()), prices, a)
  {
    var ma := CalculateMovingAverage(prices, a.maPeriod);
    if ma != [] {
      data.movingAverage := Some(ma[|ma| - 1]);
    }
  }

  /** The setters that run once the series is long enough for every period. */
  method SetGated(data: StockData, prices: seq<real>, a: Analysis, f: Foreign)
    requires ValidAnalysis(a) && AllPositive(prices)
    modifies data
    ensures data.View() == Gated(old(data.View()), prices, a, f)
  {
    data.volatility := Volatility(prices, a.volPeriod, f.sqrt);
    var value := SimulateStrategy(prices, a.shortPeriod, a.longPeriod);
    data.statusMessage := Some(SimulatedPrefix + f.showReal(value));
    if a.withEmaRsi {
      data.ema := f.ema(data.View(), a.maPeriod);
      data.rsi := f.rsi(data.View(), a.maPeriod);
    }
  }

  /** The analytics setters, run once the stored series `s` is known to be non-empty. */
  method RunAnalytics(data: StockData, s: Series, a: Analysis, f: Foreign)
    requires data.closingPrices == Some(s) && data.Valid() && Admissible(data.View()) && ValidAnalysis(a)
    modifies data
    ensures data.Valid()
    ensures data.View() == Analyzed(old(data.View()), s, a, f)
  {
    var prices := Prices(s);
    SetAverage(data, prices, a);
    if |s| >= Max(a.maPeriod, a.volPeriod) {
      SetGated(data, prices, a, f);
    }
  }

  /** The lambda body for a completed future: the setters run on the fetched object. */
  method Analyze(data: StockData, a: Analysis, f: Foreign)
    requires data.Valid() && Admissible(data.View()) && ValidAnalysis(a)
    modifies data
    ensures data.Valid()
    ensures data.View() == Processed(old(data.View()), a, f)
  {
    if data.closingPrices.None? || data.closingPrices.value == [] {
      data.statusMessage := Some(NoDataMessage);
      return;
    }
    var s := data.closingPrices.value;
    if a.range.Some? {
      WindowAscending(s, a.range.value);
      WindowPositive(s, a.range.value);
      var filtered := FilterRange(s, a.range.value);
      data.closingPrices := Some(filtered);
      if filtered == [] {
        data.statusMessage := Some(NoRangeDataMessage);
        return;
      }
      RunAnalytics(data, filtered, a, f);
    } else {
      RunAnalytics(data, s, a, f);
    }
  }

  // ---------------------------------------------------------------- all symbols

  /** The position of the last occurrence of `x` in `xs`. */
  function LastIndex(xs: seq<string>, x: string): (i: int)
    requires x in xs
    ensures 0 <= i < |xs| && xs[i] == x
    ensures forall j :: i < j < |xs| ==> xs[j] != x
  {
    if xs[|xs| - 1] == x then |xs| - 1
    else
      assert x in xs[..|xs| - 1] by {
        var k :| 0 <= k < |xs| && xs[k] == x;
        assert xs[..|xs| - 1][k] == x;
      }
      LastIndex(xs[..|xs| - 1], x)
  }

  /** The map built by `put(keys[i], values[i])` for each `i` in order. */
  function LastWins<T>(keys: seq<string>, values: seq<T>): map<string, T>
    requires |keys| == |values|
  {
    if keys == [] then map[]
    else LastWins(keys[..|keys| - 1], values[..|values| - 1])[keys[|keys| - 1] := values[|values| - 1]]
  }

  /** Duplicate keys collapse: the map holds every key once, with the value of its last `put`. */
  lemma {:induction false} LastWinsAt<T>(keys: seq<string>, values: seq<T>)
    requires |keys| == |values|
    ensures LastWins(keys, values).Keys == set k | k in keys
    ensures forall k :: k in keys ==> LastWins(keys, values)[k] == values[LastIndex(keys, k)]
  {
    if keys != [] {
      var n := |keys| - 1;
      var ki, vi := keys[..n], values[..n];
      LastWinsAt(ki, vi);
      assert keys == ki + [keys[n]];
      forall k | k in keys ensures LastWins(keys, values)[k] == values[LastIndex(keys, k)] {
        if k != keys[n] {
          assert k in ki;
          assert LastIndex(keys, k) == LastIndex(ki, k);
        }
      }
    }
  }

  /** The field values behind an outcome. */
  function Resolve(o: Outcome): Resolution
    reads if o.Completed? then {o.data} else {}
  {
    match o
    case Completed(d) => Done(d.View())
    case Interrupted(m) => Stopped(m)
    case Failed(m) => Crashed(m)
  }

  /** The record stored under `symbol` for its outcome. */
  function Result(symbol: string, o: Resolution, a: Analysis, f: Foreign): StockRecord
    requires o.Done? ==> Admissible(o.record)
    requires ValidAnalysis(a)
  {
    match o
    case Done(rec) => Processed(rec, a, f)
    case Stopped(m) => ErrorRecord(symbol, InterruptedPrefix + m)
    case Crashed(m) => ErrorRecord(symbol, ErrorPrefix + m)
  }

  /** A failed future yields a fresh record with the symbol and a prefixed status, and no series. */
  method ErrorData(symbol: string, status: string) returns (d: StockData)
    ensures fresh(d) && d.Valid()
    ensures d.View() == ErrorRecord(symbol, status)
  {
    d := new StockData.Empty();
    d.symbol := Some(symbol);
    d.statusMessage := Some(status);
  }

  /** The `try` block and its two `catch` blocks for one entry of the futures map. */
  method Deliver(symbol: string, o: Outcome, a: Analysis, f: Foreign) returns (d: StockData)
    requires ValidAnalysis(a)
    requires o.Completed? ==> Admissible(o.data.View())
    modifies if o.Completed? then {o.data} else {}
    ensures if o.Completed? then d == o.data else fresh(d)
    ensures d.View() == Result(symbol, old(Resolve(o)), a, f)
  {
    match o {
      case Completed(data) =>
        assert data.Valid();
        Analyze(data, a, f);
        d := data;
      case Interrupted(m) =>
        d := ErrorData(symbol, InterruptedPrefix + m);
      case Failed(m) =>
        d := ErrorData(symbol, ErrorPrefix + m);
    }
  }

  /** The futures map: one `put` per requested symbol, in order. */
  method SubmitAll(symbols: seq<string>, fetched: seq<Outcome>) returns (futures: map<string, Outcome>)
    requires |fetched| == |symbols|
    ensures futures == LastWins(symbols, fetched)
  {
    futures := map[];
    var i := 0;
    while i < |symbols|
      invariant 0 <= i <= |symbols|
      invariant futures == LastWins(symbols[..i], fetched[..i])
    {
      assert symbols[..i + 1][..i] == symbols[..i] && fetched[..i + 1][..i] == fetched[..i];
      futures := futures[symbols[i] := fetched[i]];
      i := i + 1;
    }
    assert symbols[..i] == symbols && fetched[..i] == fetched;
  }

  /** The objects behind the completed futures of a futures map. */
  function FetchedObjects(futures: map<string, Outcome>): set<StockData> {
    set s | s in futures && futures[s].Completed? :: futures[s].data
  }

  /**
   * `forEach` part-way through: every symbol in `results` has been resolved
   * and every symbol still `remaining` keeps the record it was fetched with.
   */
  ghost predicate Resolving(futures: map<string, Outcome>, owner: map<StockData, string>,
                            before: map<string, StockRecord>, a: Analysis, f: Foreign,
                            results: map<string, StockData>, remaining: set<string>)
    reads owner.Keys, results.Values
  {
    && ValidAnalysis(a)
    && remaining <= futures.Keys
    && results.Keys == futures.Keys - remaining
    && (forall s :: s in futures && futures[s].Completed? ==>
          && futures[s].data in owner && owner[futures[s].data] == s
          && s in before && Admissible(before[s]))
    && (forall s :: s in remaining && futures[s].Completed? ==> futures[s].data.View() == before[s])
    && (forall s :: s in results && futures[s].Completed? ==>
          results[s] == futures[s].data && results[s].View() == Processed(before[s], a, f))
    && (forall s :: s in results && !futures[s].Completed? ==>
          results[s] !in owner && results[s].View() == Result(s, Resolve(futures[s]), a, f))
  }

  /** One `forEach` step: some remaining entry is resolved and put under its symbol. */
  method ResolveOne(futures: map<string, Outcome>, ghost owner: map<StockData, string>,
                    ghost before: map<string, StockRecord>, a: Analysis, f: Foreign,
                    results: map<string, StockData>, remaining: set<string>)
    returns (results': map<string, StockData>, remaining': set<string>)
    requires remaining != {}
    requires Resolving(futures, owner, before, a, f, results, remaining)
    modifies owner.Keys
    ensures Resolving(futures, owner, before, a, f, results', remaining')
    ensures remaining' < remaining
    ensures forall s :: s in results ==> s in results' && results'[s] == results[s]
    ensures forall s :: s in results' && s !in results && !futures[s].Completed? ==> fresh(results'[s])
  {
    var s :| s in remaining;
    var d := Deliver(s, futures[s], a, f);
    results' := results[s := d];
    remaining' := remaining - {s};
  }

  /** `futures.forEach`: each entry resolved and its result put under its symbol, in any order. */
  method ResolveAll(futures: map<string, Outcome>, ghost owner: map<StockData, string>,
                    ghost before: map<string, StockRecord>, a: Analysis, f: Foreign)
    returns (results: map<string, StockData>)
    requires Resolving(futures, owner, before, a, f, map[], futures.Keys)
    modifies owner.Keys
    ensures results.Keys == futures.Keys
    ensures forall s :: s in results ==>
              var o := futures[s];
              && (if o.Completed? then results[s] == o.data else fresh(results[s]))
              && results[s].View() == Result(s, old(Resolve(o)), a, f)
  {
    results := map[];
    var remaining := futures.Keys;
    while remaining != {}
      invariant Resolving(futures, owner, before, a, f, results, remaining)
      invariant forall s :: s in results && !futures[s].Completed? ==> fresh(results[s])
      decreases remaining
    {
      results, remaining := ResolveOne(futures, owner, before, a, f, results, remaining);
    }
  }

  /** Which symbol each fetched object was requested for. */
  ghost function Owners(symbols: seq<string>, fetched: seq<Outcome>): map<StockData, string>
    requires |fetched| == |symbols|
    requires forall i, j :: 0 <= i < j < |fetched| && fetched[i].Completed? && fetched[j].Completed? ==>
               fetched[i].data != fetched[j].data
  {
    map i | 0 <= i < |fetched| && fetched[i].Completed? :: fetched[i].data := symbols[i]
  }

  /** A fetched object is owned by the symbol it was requested for. */
  lemma {:induction false} OwnerAt(symbols: seq<string>, fetched: seq<Outcome>, i: int)
    requires |fetched| == |symbols|
    requires forall i, j :: 0 <= i < j < |fetched| && fetched[i].Completed? && fetched[j].Completed? ==>
               fetched[i].data != fetched[j].data
    requires 0 <= i < |fetched| && fetched[i].Completed?
    ensures fetched[i].data in Owners(symbols, fetched)
    ensures Owners(symbols, fetched)[fetched[i].data] == symbols[i]
  {
    var owner := Owners(symbols, fetched);
    var j :| 0 <= j < |fetched| && fetched[j].Completed? && fetched[j].data == fetched[i].data
             && owner[fetched[i].data] == symbols[j];
    assert i == j;
  }

  /** The object kept in the futures map under `s` was requested for `s`. */
  lemma {:induction false} OwnersOfFutures(symbols: seq<string>, fetched: seq<Outcome>)
    requires |fetched| == |symbols|
    requires forall i, j :: 0 <= i < j < |fetched| && fetched[i].Completed? && fetched[j].Completed? ==>
               fetched[i].data != fetched[j].data
    ensures forall s :: s in LastWins(symbols, fetched) && LastWins(symbols, fetched)[s].Completed? ==>
              && LastWins(symbols, fetched)[s].data in Owners(symbols, fetched)
              && Owners(symbols, fetched)[LastWins(symbols, fetched)[s].data] == s
  {
    LastWinsAt(symbols, fetched);
    forall s | s in LastWins(symbols, fetched) && LastWins(symbols, fetched)[s].Completed?
      ensures LastWins(symbols, fetched)[s].data in Owners(symbols, fetched)
      ensures Owners(symbols, fetched)[LastWins(symbols, fetched)[s].data] == s
    {
      OwnerAt(symbols, fetched, LastIndex(symbols, s));
    }
  }

  /** Before the first `forEach` step nothing is resolved and every fetched record is as fetched. */
  lemma {:induction false} StartResolving(symbols: seq<string>, fetched: seq<Outcome>, a: Analysis, f: Foreign)
    returns (owner: map<StockData, string>, before: map<string, StockRecord>)
    requires |fetched| == |symbols| && ValidAnalysis(a)
    requires forall i :: 0 <= i < |fetched| && fetched[i].Completed? ==> Admissible(fetched[i].data.View())
    requires forall i, j :: 0 <= i < j < |fetched| && fetched[i].Completed? && fetched[j].Completed? ==>
               fetched[i].data != fetched[j].data
    ensures owner.Keys <= set i | 0 <= i < |fetched| && fetched[i].Completed? :: fetched[i].data
    ensures Resolving(LastWins(symbols, fetched), owner, before, a, f, map[], LastWins(symbols, fetched).Keys)
  {
    var futures := LastWins(symbols, fetched);
    LastWinsAt(symbols, fetched);
    OwnersOfFutures(symbols, fetched);
    owner := Owners(symbols, fetched);
    before := map s | s in futures && futures[s].Completed? :: futures[s].data.View();
  }

  /**
   * The body shared by the three `fetchAndAggregate*` overloads: the futures
   * map is filled in symbol order, then each of its entries is resolved and
   * its result put under its symbol.
   */
  method FetchAndAggregateWith(symbols: seq<string>, fetched: seq<Outcome>, a: Analysis, f: Foreign)
    returns (results: map<string, StockData>)
    requires |fetched| == |symbols| && ValidAnalysis(a)
    requires forall i :: 0 <= i < |fetched| && fetched[i].Completed? ==>
               fetched[i].data.Valid() && Admissible(fetched[i].data.View())
    requires forall i, j :: 0 <= i < j < |fetched| && fetched[i].Completed? && fetched[j].Completed? ==>
               fetched[i].data != fetched[j].data
    modifies set i | 0 <= i < |fetched| && fetched[i].Completed? :: fetched[i].data
    ensures results.Keys == set s | s in symbols
    ensures forall s :: s in results ==>
              var o := fetched[LastIndex(symbols, s)];
              && (if o.Completed? then results[s] == o.data else fresh(results[s]))
              && results[s].View() == Result(s, old(Resolve(o)), a, f)
  {
    var futures := SubmitAll(symbols, fetched);
    LastWinsAt(symbols, fetched);
    ghost var owner, before := StartResolving(symbols, fetched, a, f);
    results := ResolveAll(futures, owner, before, a, f);
  }

  /** `fetchAndAggregate(symbols)`: fixed periods 5/5/5/20, no range, no EMA or RSI. */
  method FetchAndAggregate(symbols: seq<string>, fetched: seq<Outcome>, f: Foreign)
    returns (results: map<string, StockData>)
    requires |fetched| == |symbols|
    requires forall i :: 0 <= i < |fetched| && fetched[i].Completed? ==>
               fetched[i].data.Valid() && Admissible(fetched[i].data.View())
    requires forall i, j :: 0 <= i < j < |fetched| && fetched[i].Completed? && fetched[j].Completed? ==>
               fetched[i].data != fetched[j].data
    modifies set i | 0 <= i < |fetched| && fetched[i].Completed? :: fetched[i].data
    ensures results.Keys == set s | s in symbols
    ensures forall s :: s in results ==>
              results[s].View() == Result(s, old(Resolve(fetched[LastIndex(symbols, s)])), Analysis(5, 5, 5, 20, false, None), f)
  {
    results := FetchAndAggregateWith(symbols, fetched, Analysis(5, 5, 5, 20, false, None), f);
  }

  /** `fetchAndAggregate(symbols, maPeriod, volPeriod, shortPeriod, longPeriod)`: custom periods, EMA and RSI. */
  method FetchAndAggregateCustom(symbols: seq<string>, fetched: seq<Outcome>, maPeriod: int, volPeriod: int,
                                 shortPeriod: int, longPeriod: int, f: Foreign)
    returns (results: map<string, StockData>)
    requires |fetched| == |symbols| && ValidAnalysis(Analysis(maPeriod, volPeriod, shortPeriod, longPeriod, true, None))
    requires forall i :: 0 <= i < |fetched| && fetched[i].Completed? ==>
               fetched[i].data.Valid() && Admissible(fetched[i].data.View())
    requires forall i, j :: 0 <= i < j < |fetched| && fetched[i].Completed? && fetched[j].Completed? ==>
               fetched[i].data != fetched[j].data
    modifies set i | 0 <= i < |fetched| && fetched[i].Completed? :: fetched[i].data
    ensures results.Keys == set s | s in symbols
    ensures forall s :: s in results ==>
              results[s].View() == Result(s, old(Resolve(fetched[LastIndex(symbols, s)])),
                                          Analysis(maPeriod, volPeriod, shortPeriod, longPeriod, true, None), f)
  {
    results := FetchAndAggregateWith(symbols, fetched, Analysis(maPeriod, volPeriod, shortPeriod, longPeriod, true, None), f);
  }

  /** The range a pair of optional dates selects: only when both are given. */
  function RangeOf(startDate: Option<int>, endDate: Option<int>): (r: Option<DateRange>)
    ensures r.Some? <==> startDate.Some? && endDate.Some?
    ensures r.Some? ==> r.value.start == startDate.value && r.value.end == endDate.value
  {
    if startDate.Some? && endDate.Some? then Some(DateRange(startDate.value, endDate.value)) else None
  }

  /** `fetchAndAggregateWithDateRange`: as the custom overload, after filtering to the range when both dates are given. */
  method FetchAndAggregateWithDateRange(symbols: seq<string>, fetched: seq<Outcome>, maPeriod: int, volPeriod: int,
                                        shortPeriod: int, longPeriod: int, startDate: Option<int>, endDate: Option<int>,
                                        f: Foreign)
    returns (results: map<string, StockData>)
    requires |fetched| == |symbols|
    requires ValidAnalysis(Analysis(maPeriod, volPeriod, shortPeriod, longPeriod, true, RangeOf(startDate, endDate)))
    requires forall i :: 0 <= i < |fetched| && fetched[i].Completed? ==>
               fetched[i].data.Valid() && Admissible(fetched[i].data.View())
    requires forall i, j :: 0 <= i < j < |fetched| && fetched[i].Completed? && fetched[j].Completed? ==>
               fetched[i].data != fetched[j].data
    modifies set i | 0 <= i < |fetched| && fetched[i].Completed? :: fetched[i].data
    ensures results.Keys == set s | s in symbols
    ensures forall s :: s in results ==>
              results[s].View() == Result(s, old(Resolve(fetched[LastIndex(symbols, s)])),
                                          Analysis(maPeriod, volPeriod, shortPeriod, longPeriod, true, RangeOf(startDate, endDate)), f)
  {
    var a := Analysis(maPeriod, volPeriod, shortPeriod, longPeriod, true, RangeOf(startDate, endDate));
    results := FetchAndAggregateWith(symbols, fetched, a, f);
  }
}
