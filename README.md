# Stock-market service core, modelled in Dafny

This project models the sequential logic inside a Spring stock-market service. The service fetches daily closing prices from the Alpha Vantage API, derives analytics from them, values user portfolios, refreshes stored prices on a schedule, and exports reports. The model covers six pieces of that service:

- **The fetcher** (`StockFetcher`, `Indicators`, from `StockServiceImpl`).
  - It classifies the provider's daily-series reply: null body, then `"Note"`, then `"Error Message"`, then `"Time Series (Daily)"`.
  - It parses at most the first 30 entries of the decoded time-series map into a date-sorted series. The decoder keeps each date key once, at its first position, holding its last record (`Provider.Entries`).
  - It builds the error records.
  - It computes the sliding-window moving average and the population variance behind the volatility.
  - It runs the moving-average crossover trading simulation.
- **The result record** (`StockModel`, from `StockData`).
  - The record is a class whose fields the pipeline sets in place.
  - Its two-argument constructor derives `latestPrice` as the price at the greatest date.
  - `PriceSeries` models the `TreeMap<LocalDate, Double>` behind it as a strictly date-ascending sequence, with `Put` as `TreeMap.put`.
- **The aggregation pipeline** (`Aggregator`, from `DataAggregatorServiceImpl`).
  - It covers all three `fetchAndAggregate*` overloads.
  - The futures map is filled in symbol order, and each entry is resolved into the result map under its symbol.
  - Each fetched object goes through, in place: the no-data status, the inclusive date-range filter, the moving average, and the size gate in front of volatility, simulation, EMA and RSI.
- **The price refresh** (`PriceUpdater`, from `StockPriceUpdaterService`).
  - The scheduled pass runs over all stored positions.
  - It uses a read-through price cache that is cleared at the end of the pass.
  - `fetchApiResponse` never yields null.
- **Portfolio valuation** (`PortfolioService`, from `PortfolioServiceImpl`).
  - It covers the null-safe price and quantity helpers.
  - The loop totals of `updatePortfolioAnalytics` are shown equal to the stream totals of `getPortfolioAnalytics`.
  - The per-position allocation lines are built in list order.
- **PDF text layout** (`PdfExport`, from `PdfExportUtil`).
  - It covers Java's `split(" ")`, the greedy word wrap, the wrapped height of a cell and the height of a table row.
  - It also covers the null case of the number formatter.

## Modelling conventions

- **Abstractions:**
  - Prices and amounts are exact `real`s.
  - Dates are day numbers (`int`).
  - A Java `null` is `None`.
- **Foreign calls as parameters.** Each call into code outside the model is a function parameter:
  - `LocalDate.parse`, `Double.parseDouble` and `Double.valueOf` return `Option` (`None` where they would throw);
  - `Math.sqrt`, `calculateEMA` and `calculateRSI` are uninterpreted;
  - the string rendering of a JSON value or a `double` is a parameter;
  - so are the font's `getStringWidth` and `String.format("%.2f")`.
- **Futures.** They are given as already-resolved outcomes, one per requested symbol: `Completed(data)`, `Interrupted(message)` or `Failed(message)`. A timeout is a `Failed`.
- **The provider during a refresh pass** is a `Network`: a function from the log of quote requests sent so far to the reply to the last of them. The log is part of the updater's state, so the model can state which requests a pass sends. A real provider may answer the same symbol differently over time, and a function of the whole log allows that.
- **The price cache** is keyed by `Option<string>`, because a Java `HashMap` accepts the null symbol of a position without one.
- **Java's `String.split(" ")`:**
  - a text without a space is its own single piece, so `""` gives one empty word;
  - otherwise every piece is kept except the trailing empty ones, so leading and inner empty pieces stay.
- **Duplicate symbols.** The service's description says the aggregator yields one result per requested symbol. The code keys the futures map by symbol, so duplicate symbols collapse into one entry and the later `put` wins. The model follows the code (`Aggregator.LastWinsAt`).
- **`ema` and `rsi` fields.** `StockData.java` as shown declares no such fields, yet the aggregator calls `setEma` and `setRsi`. The model's record therefore has `ema` and `rsi` fields next to the declared ones.

## Model

| member | source | states |
|---|---|---|
| `PriceSeries.Put` | src/main/java/com/example/stockmarket/service/StockServiceImpl.java:53 | `TreeMap.put` keeps the series strictly ascending by date, and keeps every lower bound on its dates that the new date also satisfies |
| `PriceSeries.PutLookup` | src/main/java/com/example/stockmarket/service/StockServiceImpl.java:53 | after a put the new date holds the new price and every other date keeps its old lookup |
| `PriceSeries.PutAfterLast` | src/main/java/com/example/stockmarket/service/DataAggregatorServiceImpl.java:126 | putting a date later than every stored one appends it |
| `Provider.PutMember` | src/main/java/com/example/stockmarket/service/StockServiceImpl.java:46 | one decoded member put into the object's map: a key already present keeps its position and takes the new value, a new key is appended, and keys stay distinct |
| `Provider.Entries` | src/main/java/com/example/stockmarket/service/StockServiceImpl.java:46-48 | the entries the loop iterates have distinct keys |
| `Provider.EntriesLookup` | src/main/java/com/example/stockmarket/service/StockServiceImpl.java:46-48 | every key's entry holds what `Map.get` returns: the same keys as the reply, each with its last value |
| `Provider.EntriesOfDistinct` | src/main/java/com/example/stockmarket/service/StockServiceImpl.java:46-48 | an object without repeated keys is iterated in the order it was written |
| `Provider.RepeatedKeyOneEntry` | src/main/java/com/example/stockmarket/service/StockServiceImpl.java:46-48 | a key written twice is a single entry holding the later value |
| `StockFetcher.Classify` | src/main/java/com/example/stockmarket/service/StockServiceImpl.java:35-59 | checks in fixed order, each an if-and-only-if: null body; a thrown call; `"Note"` present (even alongside `"Error Message"`); `"Error Message"` without `"Note"`; `"Time Series (Daily)"` without both; none of the three. Each reading carries the value of the key that decided it |
| `StockFetcher.Collect` | src/main/java/com/example/stockmarket/service/StockServiceImpl.java:47-55 | the series the parse loop builds is in strictly ascending, duplicate-free date order |
| `StockFetcher.CollectKeepsLastClose` | src/main/java/com/example/stockmarket/service/StockServiceImpl.java:50-53 | the price stored for a date is the close of the last entry whose date and close both parsed to that date. A date with no such entry is absent, so a later key that parses to the same date overwrites an earlier one |
| `StockFetcher.CollectFailsOnUnreadable` | src/main/java/com/example/stockmarket/service/StockServiceImpl.java:48-51 | the loop throws exactly when an examined day record is not an object or has a non-string close |
| `StockFetcher.ParseDaily` | src/main/java/com/example/stockmarket/service/StockServiceImpl.java:47-55 | the counting loop's result is the series built from only the first 30 entries it iterates. Skipped entries still count toward the 30 |
| `StockFetcher.RepeatedDateKeyReadOnce` | src/main/java/com/example/stockmarket/service/StockServiceImpl.java:46-55 | a date key given first with an unreadable record and then with a readable one parses as the readable record alone, without throwing |
| `StockFetcher.ErrorStockData` | src/main/java/com/example/stockmarket/service/StockServiceImpl.java:81-86 | a fresh record with only symbol and status set; the series and every other field are null |
| `StockFetcher.FetchStockDataInternal` | src/main/java/com/example/stockmarket/service/StockServiceImpl.java:25-63 | each classification gives its exact status text with no series. A parsed series gives the symbol, the series and its latest price, with a null status. A malformed series or a thrown call gives `"Exception: "` plus the message. The series is parsed from the decoded map's entries, so a date key the reply repeats is read once, with its last record |
| `StockModel.MaxByDate` | src/main/java/com/example/stockmarket/model/StockData.java:25-26 | the entry found is in the series and no date is greater than its date |
| `StockModel.LatestPrice` | src/main/java/com/example/stockmarket/model/StockData.java:24-28 | null exactly when the series is null or empty; otherwise the price of an entry at the maximum date, hence one of the map's values |
| `StockModel.LatestPriceIsLast` | src/main/java/com/example/stockmarket/model/StockData.java:24-28 | for a date-ordered series the latest price is the last entry's, i.e. the lookup at the greatest date |
| `StockModel.StockData.Empty` | src/main/java/com/example/stockmarket/model/StockData.java:10-19 | the no-argument constructor leaves every field null |
| `StockModel.StockData.constructor` | src/main/java/com/example/stockmarket/model/StockData.java:21-30 | symbol and series are stored unchanged and `latestPrice` is derived; every other field, the status included, stays null |
| `Indicators.CalculateMovingAverage` | src/main/java/com/example/stockmarket/service/StockServiceImpl.java:89-100 | the result has `max(0, n - period + 1)` elements, and element `i` is the mean of `prices[i .. i + period)` |
| `Indicators.MovingAveragesWithinBounds` | src/main/java/com/example/stockmarket/service/StockServiceImpl.java:92-98 | every moving average lies between any lower and upper bound of the prices |
| `Indicators.SquaredDeviations` | src/main/java/com/example/stockmarket/service/StockServiceImpl.java:107 | the sum of squared deviations is never negative |
| `Indicators.Variance` | src/main/java/com/example/stockmarket/service/StockServiceImpl.java:102-107 | absent exactly when there are fewer prices than `period`; otherwise non-negative |
| `Indicators.Volatility` | src/main/java/com/example/stockmarket/service/StockServiceImpl.java:102-109 | null exactly when `n < period`; otherwise `sqrt` of the population variance of the last `period` prices |
| `Indicators.ConstantWindowHasNoVariance` | src/main/java/com/example/stockmarket/service/StockServiceImpl.java:105-107 | a window of equal prices has variance zero |
| `Indicators.TradeFollowsSignal` | src/main/java/com/example/stockmarket/service/StockServiceImpl.java:120-126 | shares grow only when `shortMA > longMA` and `cash >= price`; cash grows only when `shortMA < longMA` and shares are held |
| `Indicators.TradeKeepsValue` | src/main/java/com/example/stockmarket/service/StockServiceImpl.java:120-126 | a trade keeps cash or shares at zero, neither negative, and does not change the holdings' worth at the trade price |
| `Indicators.RunKeepsExclusive` | src/main/java/com/example/stockmarket/service/StockServiceImpl.java:114-127 | the invariant holds after every iteration of the loop |
| `Indicators.SimulatedValue` | src/main/java/com/example/stockmarket/service/StockServiceImpl.java:111-132 | 0 when `n < longPeriod`, the initial 10000 when `n == longPeriod`, and never negative |
| `Indicators.TradeStep` | src/main/java/com/example/stockmarket/service/StockServiceImpl.java:120-126 | the loop body buys with all cash, sells all shares or holds, as the trade rule says |
| `Indicators.SimulateStrategy` | src/main/java/com/example/stockmarket/service/StockServiceImpl.java:111-133 | the loop and the final liquidation at the last price compute the simulated value |
| `Indicators.RisingWindowMeans` | src/main/java/com/example/stockmarket/service/StockServiceImpl.java:117-118 | with non-decreasing prices the short window's mean is never below the long window's |
| `Indicators.RisingPricesNeverLose` | src/main/java/com/example/stockmarket/service/StockServiceImpl.java:111-132 | with positive, non-decreasing prices the strategy ends with at least its initial 10000 |
| `Aggregator.Window` | src/main/java/com/example/stockmarket/service/DataAggregatorServiceImpl.java:124-128 | an entry is kept exactly when it is stored and `start <= date <= end` |
| `Aggregator.WindowAscending` | src/main/java/com/example/stockmarket/service/DataAggregatorServiceImpl.java:123-128 | the filtered series is again in ascending date order |
| `Aggregator.WindowIdempotent` | src/main/java/com/example/stockmarket/service/DataAggregatorServiceImpl.java:122-129 | filtering twice gives the same series as filtering once |
| `Aggregator.FilterRange` | src/main/java/com/example/stockmarket/service/DataAggregatorServiceImpl.java:123-128 | the loop that puts in-range entries into a fresh `TreeMap` yields exactly the window |
| `Aggregator.Processed` | src/main/java/com/example/stockmarket/service/DataAggregatorServiceImpl.java:115-151 | the symbol and `latestPrice` never change; filtering replaces the series but leaves `latestPrice` at its pre-filter value |
| `Aggregator.NoSeriesOnlySetsStatus` | src/main/java/com/example/stockmarket/service/DataAggregatorServiceImpl.java:116-120 | a null or empty series only sets the no-data status and skips all analytics |
| `Aggregator.FetchErrorBecomesNoData` | src/main/java/com/example/stockmarket/service/DataAggregatorServiceImpl.java:28-31 | a fetcher error record, such as a rate-limit one, comes out with its status overwritten by the no-data message |
| `Aggregator.EmptyWindowStatus` | src/main/java/com/example/stockmarket/service/DataAggregatorServiceImpl.java:129-135 | a range that selects no date stores the empty series and the range status, and runs no analytics |
| `Aggregator.ReversedRangeHasNoData` | src/main/java/com/example/stockmarket/service/DataAggregatorServiceImpl.java:125-135 | when `start > end` the range status always results |
| `Aggregator.ProcessedIsAnalyzed` | src/main/java/com/example/stockmarket/service/DataAggregatorServiceImpl.java:122-151 | with a non-empty effective series, the analytics run on that series (the window, when a range is given) |
| `Aggregator.AnalyzedFrame` | src/main/java/com/example/stockmarket/service/DataAggregatorServiceImpl.java:138-150 | the analytics leave symbol, series and `latestPrice` as they were |
| `Aggregator.AnalyzedAverage` | src/main/java/com/example/stockmarket/service/DataAggregatorServiceImpl.java:138-139 | the moving average becomes the mean of the last `maPeriod` prices whenever there are that many, regardless of the size gate; otherwise it is left unchanged |
| `Aggregator.AnalyzedPastGate` | src/main/java/com/example/stockmarket/service/DataAggregatorServiceImpl.java:140-150 | at `size >= max(maPeriod, volPeriod)`: the volatility is set and non-null, the status is `"Simulated final portfolio value: "` plus the simulated value, and EMA and RSI change only when the overload computes them |
| `Aggregator.AnalyzedBelowGate` | src/main/java/com/example/stockmarket/service/DataAggregatorServiceImpl.java:140-151 | below the gate only the moving average may change |
| `Aggregator.FilterKeepsRange` | src/main/java/com/example/stockmarket/service/DataAggregatorServiceImpl.java:122-129 | after processing with a range the stored series holds exactly the original in-range entries |
| `Aggregator.SetAverage` | src/main/java/com/example/stockmarket/service/DataAggregatorServiceImpl.java:138-139 | the setter writes the last moving average, when there is one |
| `Aggregator.SetGated` | src/main/java/com/example/stockmarket/service/DataAggregatorServiceImpl.java:142-150 | the gated setters write volatility, the simulated-value status, then EMA and RSI when requested |
| `Aggregator.RunAnalytics` | src/main/java/com/example/stockmarket/service/DataAggregatorServiceImpl.java:138-151 | the setters leave the object holding the analysed record and keep its series date-ordered |
| `Aggregator.Analyze` | src/main/java/com/example/stockmarket/service/DataAggregatorServiceImpl.java:115-151 | the lambda body turns a fetched object, in place, into the processed record |
| `Aggregator.LastWinsAt` | src/main/java/com/example/stockmarket/service/DataAggregatorServiceImpl.java:110-112 | the futures map's keys are exactly the requested symbols, and each holds the outcome of that symbol's last request |
| `Aggregator.ErrorData` | src/main/java/com/example/stockmarket/service/DataAggregatorServiceImpl.java:153-164 | a fresh record with the symbol and the prefixed status, and no series |
| `Aggregator.Deliver` | src/main/java/com/example/stockmarket/service/DataAggregatorServiceImpl.java:114-164 | a completed future yields the same object, analysed. An interrupted or failed one yields a fresh record with `"Interrupted: "` or `"Error: "` plus the message |
| `Aggregator.SubmitAll` | src/main/java/com/example/stockmarket/service/DataAggregatorServiceImpl.java:110-112 | the futures map is built by one put per requested symbol, in order |
| `Aggregator.ResolveOne` | src/main/java/com/example/stockmarket/service/DataAggregatorServiceImpl.java:113-165 | one `forEach` step resolves one remaining entry, keeps every earlier result, and preserves the pass invariant |
| `Aggregator.ResolveAll` | src/main/java/com/example/stockmarket/service/DataAggregatorServiceImpl.java:113-165 | the result map has exactly the futures' keys, and each entry holds its outcome's result |
| `Aggregator.FetchAndAggregateWith` | src/main/java/com/example/stockmarket/service/DataAggregatorServiceImpl.java:106-167 | the result keys are the set of input symbols, and each result is its symbol's last outcome resolved |
| `Aggregator.FetchAndAggregate` | src/main/java/com/example/stockmarket/service/DataAggregatorServiceImpl.java:19-57 | the same with fixed periods 5/5/5/20, the gate `size >= 5`, no range, and no EMA or RSI |
| `Aggregator.FetchAndAggregateCustom` | src/main/java/com/example/stockmarket/service/DataAggregatorServiceImpl.java:59-104 | the same with custom periods; EMA and RSI use `maPeriod` |
| `Aggregator.RangeOf` | src/main/java/com/example/stockmarket/service/DataAggregatorServiceImpl.java:122 | a range exists exactly when both dates are given |
| `Aggregator.FetchAndAggregateWithDateRange` | src/main/java/com/example/stockmarket/service/DataAggregatorServiceImpl.java:106-167 | as the custom overload, filtering to the range when both dates are given |
| `PriceUpdater.FetchApiResponse` | src/main/java/com/example/stockmarket/service/StockPriceUpdaterService.java:33-41 | never null: a decoded body is returned as is, and a null body or a thrown call gives the empty map |
| `PriceUpdater.QuotedPrice` | src/main/java/com/example/stockmarket/service/StockPriceUpdaterService.java:62-65 | a price text exists exactly when `"Global Quote"` is a map whose `"05. price"` is a string, and it is that string |
| `PriceUpdater.FailedCallHasNoPrice` | src/main/java/com/example/stockmarket/service/StockPriceUpdaterService.java:33-41 | a failed call or a null body never yields a price |
| `PriceUpdater.VisitFrame` | src/main/java/com/example/stockmarket/service/StockPriceUpdaterService.java:47-76 | a turn only sets the current price. It sends at most one request, for the position's own symbol, and adds at most that symbol, with the price it set, to the cache |
| `PriceUpdater.CacheHit` | src/main/java/com/example/stockmarket/service/StockPriceUpdaterService.java:51-57 | a cached symbol takes the cached price and sends no request |
| `PriceUpdater.CacheMiss` | src/main/java/com/example/stockmarket/service/StockPriceUpdaterService.java:59-76 | an uncached symbol sends one request. A parsable quote sets the price and caches it; anything else leaves the position and the cache unchanged |
| `PriceUpdater.Cycle` | src/main/java/com/example/stockmarket/service/StockPriceUpdaterService.java:46-80 | a pass returns one position per stored position |
| `PriceUpdater.CycleAt` | src/main/java/com/example/stockmarket/service/StockPriceUpdaterService.java:46-80 | each position comes out of its own turn, taken with the cache and request log the earlier turns left. A failure at one position does not stop the rest |
| `PriceUpdater.CycleKeepsPositions` | src/main/java/com/example/stockmarket/service/StockPriceUpdaterService.java:46-80 | every position keeps its symbol, quantity and buy price |
| `PriceUpdater.CycleGrows` | src/main/java/com/example/stockmarket/service/StockPriceUpdaterService.java:51-71 | later turns only add to the cache and append to the request log |
| `PriceUpdater.CachedPriceReused` | src/main/java/com/example/stockmarket/service/StockPriceUpdaterService.java:51-57 | once a symbol is cached, every later position with that symbol takes exactly the cached price |
| `PriceUpdater.CachedSymbolNotRequested` | src/main/java/com/example/stockmarket/service/StockPriceUpdaterService.java:51-61 | once a symbol is cached, no further request for it is sent in the pass |
| `PriceUpdater.CachedPriceWasQuoted` | src/main/java/com/example/stockmarket/service/StockPriceUpdaterService.java:62-71 | every cached price was parsed from the reply to a request for that symbol sent during the pass |
| `PriceUpdater.AtMostOneRequestPerPosition` | src/main/java/com/example/stockmarket/service/StockPriceUpdaterService.java:46-61 | a pass sends at most one request per position |
| `PriceUpdater.StockPriceUpdater.constructor` | src/main/java/com/example/stockmarket/service/StockPriceUpdaterService.java:24-30 | the service starts with an empty cache |
| `PriceUpdater.StockPriceUpdater.TakeTurn` | src/main/java/com/example/stockmarket/service/StockPriceUpdaterService.java:47-76 | the loop body's cache lookup and `instanceof` chain produce exactly one turn of the pass |
| `PriceUpdater.StockPriceUpdater.RefreshRow` | src/main/java/com/example/stockmarket/service/StockPriceUpdaterService.java:46-80 | one iteration extends the refreshed prefix of the rows by one row and leaves the rest untouched |
| `PriceUpdater.StockPriceUpdater.UpdateStockPrices` | src/main/java/com/example/stockmarket/service/StockPriceUpdaterService.java:44-84 | the rows become the pass's positions and the log gains the pass's requests; the cache is empty on return |
| `PortfolioService.SafePrice` | src/main/java/com/example/stockmarket/service/PortfolioServiceImpl.java:170-174 | the price if non-null, else the fallback if non-null, else 0 |
| `PortfolioService.SafeQuantity` | src/main/java/com/example/stockmarket/service/PortfolioServiceImpl.java:176-178 | the quantity widened to a whole-valued double if non-null, else 0 |
| `PortfolioService.ListedStocks` | src/main/java/com/example/stockmarket/service/PortfolioServiceImpl.java:142-143 | only rows with a non-null, non-empty symbol are kept |
| `PortfolioService.ListedStocksMembers` | src/main/java/com/example/stockmarket/service/PortfolioServiceImpl.java:141-157 | a row is kept exactly when it is present and has such a symbol |
| `PortfolioService.Allocate` | src/main/java/com/example/stockmarket/service/PortfolioServiceImpl.java:144-154 | an allocation line holds the symbol and the position value. Its percentage times the total equals 100 times the value when the total is positive, and 0 otherwise. Its quantity is `qty` if positive, else 0. Its current price is the stock's current price, else its buy price, else 0. Its buy price is the stock's, else 0 |
| `PortfolioService.AllocationsFollowListed` | src/main/java/com/example/stockmarket/service/PortfolioServiceImpl.java:140-157 | exactly one allocation line per listed row, in list order |
| `PortfolioService.ProportionalSum` | src/main/java/com/example/stockmarket/service/PortfolioServiceImpl.java:147 | proportional lines have percentages summing to 100 times their values' share of the total |
| `PortfolioService.AllocationsValue` | src/main/java/com/example/stockmarket/service/PortfolioServiceImpl.java:141-155 | the lines' position values add up to the listed rows' total value |
| `PortfolioService.AllocationsProportional` | src/main/java/com/example/stockmarket/service/PortfolioServiceImpl.java:147 | with a positive total every line's percentage is its value's share |
| `PortfolioService.AllocationsShare` | src/main/java/com/example/stockmarket/service/PortfolioServiceImpl.java:130-157 | with a positive total the percentages add up to the listed rows' share of the total value, times 100 |
| `PortfolioService.AllocationsSumToHundred` | src/main/java/com/example/stockmarket/service/PortfolioServiceImpl.java:130-157 | when every row has a symbol and the total value is positive, the percentages add up to exactly 100 |
| `PortfolioService.UpdatePortfolioAnalytics` | src/main/java/com/example/stockmarket/service/PortfolioServiceImpl.java:106-122 | an unknown portfolio gives `"Portfolio not found"`. Otherwise the loop totals equal the stream totals, the P&L is their difference, and the portfolio is returned unchanged |
| `PortfolioService.GetPortfolioAnalytics` | src/main/java/com/example/stockmarket/service/PortfolioServiceImpl.java:124-168 | an unknown portfolio gives `"Portfolio not found"`. Otherwise the result holds the portfolio's id, name and owner; the stream totals of value (every row, whatever its symbol) and cost; their difference; and the allocation lines |
| `PdfExport.SplitAll` | src/main/java/com/example/stockmarket/util/PdfExportUtil.java:109 | splitting at every space gives at least one piece |
| `PdfExport.DropTrailingEmpty` | src/main/java/com/example/stockmarket/util/PdfExportUtil.java:109 | the result is a prefix of the pieces and does not end with an empty piece |
| `PdfExport.SplitAllJoins` | src/main/java/com/example/stockmarket/util/PdfExportUtil.java:109 | joining the pieces with single spaces gives the text back |
| `PdfExport.SplitAllPieces` | src/main/java/com/example/stockmarket/util/PdfExportUtil.java:109 | without leading or repeated spaces, only the last piece can be empty, and it is empty exactly when the text is empty or ends with a space |
| `PdfExport.JavaSplitSingleSpaced` | src/main/java/com/example/stockmarket/util/PdfExportUtil.java:109 | a single-spaced text splits into non-empty words that join back to it |
| `PdfExport.Wrap` | src/main/java/com/example/stockmarket/util/PdfExportUtil.java:112-122 | every finished line is non-empty |
| `PdfExport.WrapText` | src/main/java/com/example/stockmarket/util/PdfExportUtil.java:107-125 | a null text wraps to exactly one empty line, and every line of a non-null text is non-empty |
| `PdfExport.EmptyTextHasNoLines` | src/main/java/com/example/stockmarket/util/PdfExportUtil.java:109-124 | an empty text produces no line |
| `PdfExport.WrapStepBreaks` | src/main/java/com/example/stockmarket/util/PdfExportUtil.java:113-121 | a line is finished exactly when it is non-empty and the widened line would exceed the width; the word then starts the next line |
| `PdfExport.WrapJoins` | src/main/java/com/example/stockmarket/util/PdfExportUtil.java:112-122 | for non-empty words, the finished lines plus the current one join back to the words |
| `PdfExport.WrapRoundTrip` | src/main/java/com/example/stockmarket/util/PdfExportUtil.java:107-125 | a single-spaced text wraps into lines that join back to it: no word is dropped or reordered |
| `PdfExport.WrapKeepsWords` | src/main/java/com/example/stockmarket/util/PdfExportUtil.java:107-125 | for every text without a leading space or two spaces in a row, the lines join back to the words `split` keeps: the text itself, less one trailing space |
| `PdfExport.WrapFitsOrSingleWord` | src/main/java/com/example/stockmarket/util/PdfExportUtil.java:113-123 | every line fits the width or is a single word placed alone, however wide |
| `PdfExport.WrapLineCount` | src/main/java/com/example/stockmarket/util/PdfExportUtil.java:112-123 | the greedy wrap never produces more lines than there are words |
| `PdfExport.WrapTextLineBounds` | src/main/java/com/example/stockmarket/util/PdfExportUtil.java:107-125 | a single-spaced text wraps into at least one line and at most one line per word |
| `PdfExport.ScaleLines` | src/main/java/com/example/stockmarket/util/PdfExportUtil.java:130 | more lines of the same font size are never less high |
| `PdfExport.WrappedHeightBounds` | src/main/java/com/example/stockmarket/util/PdfExportUtil.java:127-131 | a cell of single-spaced text is at least one line (`1.2 * fontSize`) high and at most one line per word high |
| `PdfExport.WrappedHeightEdges` | src/main/java/com/example/stockmarket/util/PdfExportUtil.java:127-131 | a null cell is `1.2 * fontSize` high and an empty cell has height 0 |
| `PdfExport.RowHeight` | src/main/java/com/example/stockmarket/util/PdfExportUtil.java:133-140 | at least `minHeight` and at least every cell's wrapped height, and equal to `minHeight` or to one of those heights |
| `PdfExport.WrapWord` | src/main/java/com/example/stockmarket/util/PdfExportUtil.java:113-121 | one iteration of the loop, measuring the widened line and breaking or appending, is exactly one greedy wrap step |
| `PdfExport.WrapTextLoop` | src/main/java/com/example/stockmarket/util/PdfExportUtil.java:107-125 | the `StringBuilder` loop produces exactly the greedy wrap |
| `PdfExport.FormatDouble` | src/main/java/com/example/stockmarket/util/PdfExportUtil.java:142-144 | a null value formats as `""`; any other value is formatted |

## Left out

- Concurrency. The executor, `Future.get` with its 30-second timeout, `ConcurrentHashMap` semantics, and re-setting the thread's interrupt flag are not modelled. Futures are already-resolved outcomes, and `forEach` resolves them one at a time in an arbitrary order.
- Network access, URL building and API keys (`AlphaVantageConfig`):
  - the daily-series fetch is a `Reply` given to `FetchStockDataInternal`;
  - the quote fetch is a `Network` parameter;
  - `fetchCurrentPrice` and the repository-backed CRUD methods of `PortfolioServiceImpl` are not part of this model.
- Persistence:
  - `portfolioStockRepository.save` is the write of a row back into `StockPriceUpdater.rows`;
  - a failing save is not modelled;
  - the repositories of `PortfolioServiceImpl` are inputs, namely the portfolio found (if any) and its rows.
- Logging, including `logPortfolioSummary` and `logStockAllocations`. Their output is the only effect of `updatePortfolioAnalytics` beyond its totals, and it is not modelled.
- Floating point. Arithmetic is exact, and IEEE rounding, NaN, infinities and the `1.2f` float constant's rounding are not modelled. `Math.sqrt` is an uninterpreted parameter, and the properties are stated about the variance.
- EMA and RSI. `calculateEMA` and `calculateRSI` are defined in no file of the model, so they are uninterpreted parameters. The Bollinger and MACD fields, read only by the exporters, are not part of this model.
- Renderers. The PDF drawing, pagination and content-stream calls of `PdfExportUtil`, and the CSV and Excel exporters, are rendering I/O. `String.format("%.2f")` is a parameter of `FormatDouble`.
- Exceptions thrown by `getStringWidth` for characters outside the font's encoding are not modelled.
- Indicators.CalculateMovingAverage, Indicators.Volatility and Indicators.SimulateStrategy: they require periods of at least 1 and `shortPeriod <= longPeriod`, and the simulation requires positive prices. The source accepts the other inputs, with these results, none of which is modelled:
  - a moving-average period of 0 gives `size + 1` NaN averages (`0.0 / 0`), and a negative period gives `size - period + 1` averages of `-0.0`;
  - a volatility period of 0 gives NaN, and a negative period makes `subList` throw;
  - with `shortPeriod > longPeriod`, `subList(i - shortPeriod, i)` throws as soon as the loop runs, that is when there are more prices than `longPeriod`;
  - a simulation period of 0 averages an empty window to 0.0 (`orElse(0.0)`), with no division;
  - a negative `shortPeriod` makes `subList` throw as soon as the loop runs, and a negative `longPeriod` makes it throw whatever the prices, since the loop then starts below index 0;
  - a zero price makes the bought holdings infinite, and a negative price buys a negative number of shares.
- Aggregator.Analyzed: an exception thrown by the analytics (the `subList` cases above) is caught by the aggregator's `catch (Exception e)` and turns the symbol's record into an "Error: " record. The preconditions exclude those inputs, so this path is not modelled.
- Aggregator.Analyzed: the injected service is taken to be a `StockServiceImpl`, so the gate's `instanceof` test is always true; a service of another class, which would skip the analytics, is not modelled.
- Aggregator.FetchAndAggregateWith: symbols are strings, so a null symbol, on which `ConcurrentHashMap.put` throws because it refuses null keys, is not modelled.
- Aggregator.FetchAndAggregateWith and the three overloads:
  - they carry the same period and positive-price preconditions;
  - they require each completed future to carry its own object, as every fetch builds a new one;
  - they do not state that the results' series stay date-ordered (`StockData.Valid`).
- PdfExport.RowHeight: requires at least as many column widths as cells. The source would throw an index-out-of-bounds exception, which escapes the export and is not modelled.
- PriceUpdater.StockPriceUpdater.UpdateStockPrices: the provider is modelled as a function of the request log, so a provider that answers identical request logs differently is not captured.
