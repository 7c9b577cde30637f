/**
 * The analytics of `StockServiceImpl`: the sliding-window moving average, the
 * population variance behind the volatility, and the moving-average
 * crossover trading simulation. Prices are exact reals; a window of the price
 * list is written as the index range `[lo, hi)`.
 */
module Indicators {
  import opened Optional

  /** The sum of `xs[lo..hi]`. */
  function Sum(xs: seq<real>, lo: int, hi: int): real
    requires 0 <= lo <= hi <= |xs|
    decreases hi - lo
  {
    if lo == hi then 0.0 else Sum(xs, lo, hi - 1) + xs[hi - 1]
  }

  /** The arithmetic mean of a non-empty window (`average()` of a non-empty stream). */
  function Mean(xs: seq<real>, lo: int, hi: int): real
    requires 0 <= lo < hi <= |xs|
  {
    Sum(xs, lo, hi) / ((hi - lo) as real)
  }

  /** Every price of the window `[lo, hi)` lies in `[low, high]`. */
  predicate WithinBounds(xs: seq<real>, lo: int, hi: int, low: real, high: real)
    requires 0 <= lo <= hi <= |xs|
  {
    forall j :: lo <= j < hi ==> low <= xs[j] <= high
  }

  lemma {:induction false} SumAtMost(xs: seq<real>, lo: int, hi: int, c: real)
    requires 0 <= lo <= hi <= |xs|
    requires forall j :: lo <= j < hi ==> xs[j] <= c
    ensures Sum(xs, lo, hi) <= ((hi - lo) as real) * c
    decreases hi - lo
  {
    if lo < hi {
      SumAtMost(xs, lo, hi - 1, c);
    }
  }

  lemma {:induction false} SumAtLeast(xs: seq<real>, lo: int, hi: int, c: real)
    requires 0 <= lo <= hi <= |xs|
    requires forall j :: lo <= j < hi ==> c <= xs[j]
    ensures ((hi - lo) as real) * c <= Sum(xs, lo, hi)
    decreases hi - lo
  {
    if lo < hi {
      SumAtLeast(xs, lo, hi - 1, c);
    }
  }

  lemma {:induction false} SumSplit(xs: seq<real>, lo: int, mid: int, hi: int)
    requires 0 <= lo <= mid <= hi <= |xs|
    ensures Sum(xs, lo, hi) == Sum(xs, lo, mid) + Sum(xs, mid, hi)
    decreases hi - mid
  {
    if mid < hi {
      SumSplit(xs, lo, mid, hi - 1);
    }
  }

  lemma MulMonotone(k: real, x: real, y: real)
    requires k >= 0.0 && x <= y
    ensures k * x <= k * y
  {
    assert k * y - k * x == k * (y - x);
  }

  lemma MulStrict(k: real, x: real, y: real)
    requires k > 0.0 && x < y
    ensures k * x < k * y
  {
    assert k * y - k * x == k * (y - x);
  }

  /** A lower bound on a quotient: `t * c <= x` gives `c <= x / t`. */
  lemma QuotientAtLeast(x: real, t: real, c: real)
    requires t > 0.0 && t * c <= x
    ensures c <= x / t
  {
    var q := x / t;
    assert t * q == x;
    if c > q {
      MulStrict(t, q, c);
    }
  }

  /** An upper bound on a quotient: `x <= t * c` gives `x / t <= c`. */
  lemma QuotientAtMost(x: real, t: real, c: real)
    requires t > 0.0 && x <= t * c
    ensures x / t <= c
  {
    var q := x / t;
    assert t * q == x;
    if q > c {
      MulStrict(t, c, q);
    }
  }

  /** The mean of a window whose prices lie in `[low, high]` lies there too. */
  lemma {:induction false} MeanWithinBounds(xs: seq<real>, lo: int, hi: int, low: real, high: real)
    requires 0 <= lo < hi <= |xs|
    requires WithinBounds(xs, lo, hi, low, high)
    ensures low <= Mean(xs, lo, hi) <= high
  {
    var n := (hi - lo) as real;
    SumAtMost(xs, lo, hi, high);
    SumAtLeast(xs, lo, hi, low);
    QuotientAtMost(Sum(xs, lo, hi), n, high);
    QuotientAtLeast(Sum(xs, lo, hi), n, low);
  }

  // ---------------------------------------------------------------- moving average

  /** Element `i` is the mean of the window `[i, i + period)`; empty when the series is shorter than a window. */
  function MovingAverages(prices: seq<real>, period: int): seq<real>
    requires period >= 1
  {
    if |prices| < period then []
    else seq(|prices| - period + 1, i requires 0 <= i < |prices| - period + 1 => Mean(prices, i, i + period))
  }

  /** `calculateMovingAverage`: a nested loop summing each window. */
  method CalculateMovingAverage(prices: seq<real>, period: int) returns (averages: seq<real>)
    requires period >= 1
    ensures |averages| == if |prices| < period then 0 else |prices| - period + 1
    ensures averages == MovingAverages(prices, period)
  {
    averages := [];
    var i := 0;
    while i <= |prices| - period
      invariant 0 <= i <= if |prices| < period then 0 else |prices| - period + 1
      invariant |averages| == i
      invariant forall k :: 0 <= k < i ==> averages[k] == Mean(prices, k, k + period)
    {
      var sum := 0.0;
      var j := i;
      while j < i + period
        invariant i <= j <= i + period
        invariant sum == Sum(prices, i, j)
      {
        sum := sum + prices[j];
        j := j + 1;
      }
      averages := averages + [sum / (period as real)];
      i := i + 1;
    }
  }

  /** Every moving average lies between the smallest and the largest price. */
  lemma {:induction false} MovingAveragesWithinBounds(prices: seq<real>, period: int, low: real, high: real)
    requires period >= 1
    requires WithinBounds(prices, 0, |prices|, low, high)
    ensures forall k :: 0 <= k < |MovingAverages(prices, period)| ==> low <= MovingAverages(prices, period)[k] <= high
  {
    var averages := MovingAverages(prices, period);
    forall k | 0 <= k < |averages| ensures low <= averages[k] <= high {
      MeanWithinBounds(prices, k, k + period, low, high);
    }
  }

  // ---------------------------------------------------------------- volatility

  /** The sum of squared deviations of the window `[lo, hi)` from `m`. */
  function SquaredDeviations(xs: seq<real>, lo: int, hi: int, m: real): (r: real)
    requires 0 <= lo <= hi <= |xs|
    ensures r >= 0.0
    decreases hi - lo
  {
    if lo == hi then 0.0
    else
      var d := xs[hi - 1] - m;
      SquareIsNonNegative(d);
      SquaredDeviations(xs, lo, hi - 1, m) + d * d
  }

  lemma SquareIsNonNegative(d: real)
    ensures d * d >= 0.0
  {
    if d < 0.0 {
      assert d * d == (-d) * (-d);
    }
  }

  /**
   * The population variance (divided by `period`) of the last `period`
   * prices; absent when there are fewer prices than that.
   */
  function Variance(prices: seq<real>, period: int): (r: Option<real>)
    requires period >= 1
    ensures r.None? <==> |prices| < period
    ensures r.Some? ==> r.value >= 0.0
  {
    if |prices| < period then None
    else
      var lo := |prices| - period;
      Some(SquaredDeviations(prices, lo, |prices|, Mean(prices, lo, |prices|)) / (period as real))
  }

  /** `calculateVolatility`: the square root (`sqrt`, left uninterpreted) of the variance. */
  function Volatility(prices: seq<real>, period: int, sqrt: real -> real): (r: Option<real>)
    requires period >= 1
    ensures r.None? <==> |prices| < period
    ensures r.Some? ==> r.value == sqrt(Variance(prices, period).value)
  {
    match Variance(prices, period)
    case None => None
    case Some(v) => Some(sqrt(v))
  }

  lemma {:induction false} NoDeviationFromConstant(xs: seq<real>, lo: int, hi: int, c: real)
    requires 0 <= lo <= hi <= |xs|
    requires forall j :: lo <= j < hi ==> xs[j] == c
    ensures SquaredDeviations(xs, lo, hi, c) == 0.0
    decreases hi - lo
  {
    if lo < hi {
      NoDeviationFromConstant(xs, lo, hi - 1, c);
    }
  }

  /** A window of equal prices has variance (hence volatility `sqrt(0)`) zero. */
  lemma {:induction false} ConstantWindowHasNoVariance(prices: seq<real>, period: int, c: real)
    requires period >= 1 && |prices| >= period
    requires forall i :: |prices| - period <= i < |prices| ==> prices[i] == c
    ensures Variance(prices, period) == Some(0.0)
  {
    var lo := |prices| - period;
    MeanWithinBounds(prices, lo, |prices|, c, c);
    NoDeviationFromConstant(prices, lo, |prices|, c);
  }

  // ---------------------------------------------------------------- crossover simulation

  const InitialCash: real := 10000.0

  /** The simulation's two-variable state. */
  datatype Holdings = Holdings(cash: real, shares: real)

  /** The simulation's invariant: never negative, and never cash and shares at once. */
  predicate Exclusive(h: Holdings) {
    h.cash >= 0.0 && h.shares >= 0.0 && (h.cash == 0.0 || h.shares == 0.0)
  }

  /** The holdings marked at `price`. */
  function ValueAt(h: Holdings, price: real): real {
    h.cash + h.shares * price
  }

  predicate AllPositive(prices: seq<real>) {
    forall i :: 0 <= i < |prices| ==> prices[i] > 0.0
  }

  /**
   * One step of the loop: buy with all cash when the short mean is above the
   * long one, sell all shares when it is below.
   */
  function Trade(h: Holdings, shortMA: real, longMA: real, price: real): Holdings
    requires price > 0.0
  {
    if shortMA > longMA && h.cash >= price then Holdings(0.0, h.cash / price)
    else if shortMA < longMA && h.shares > 0.0 then Holdings(h.shares * price, 0.0)
    else h
  }

  /** Shares are bought only on a rising signal with enough cash, and sold only on a falling signal. */
  lemma {:induction false} TradeFollowsSignal(h: Holdings, shortMA: real, longMA: real, price: real)
    requires price > 0.0 && Exclusive(h)
    ensures Trade(h, shortMA, longMA, price).shares > h.shares ==> shortMA > longMA && h.cash >= price
    ensures Trade(h, shortMA, longMA, price).cash > h.cash ==> shortMA < longMA && h.shares > 0.0
  {
    var r := Trade(h, shortMA, longMA, price);
    if shortMA > longMA && h.cash >= price {
      assert r.cash == 0.0 <= h.cash;
    } else if shortMA < longMA && h.shares > 0.0 {
      assert r.shares == 0.0;
    }
  }

  /** A trade keeps the invariant and does not change what the holdings are worth at the trade's price. */
  lemma {:induction false} TradeKeepsValue(h: Holdings, shortMA: real, longMA: real, price: real)
    requires price > 0.0 && Exclusive(h)
    ensures Exclusive(Trade(h, shortMA, longMA, price))
    ensures ValueAt(Trade(h, shortMA, longMA, price), price) == ValueAt(h, price)
  {
    var r := Trade(h, shortMA, longMA, price);
    if shortMA > longMA && h.cash >= price {
      assert h.shares == 0.0;
      assert r.shares * price == h.cash;
    } else if shortMA < longMA && h.shares > 0.0 {
      assert h.cash == 0.0;
    }
  }

  /** The holdings once the loop has handled days `longPeriod .. i - 1`. */
  function Run(prices: seq<real>, shortPeriod: int, longPeriod: int, i: int): Holdings
    requires 1 <= shortPeriod <= longPeriod <= i <= |prices|
    requires AllPositive(prices)
    decreases i
  {
    if i == longPeriod then Holdings(InitialCash, 0.0)
    else
      var d := i - 1;
      Trade(Run(prices, shortPeriod, longPeriod, d), Mean(prices, d - shortPeriod, d), Mean(prices, d - longPeriod, d), prices[d])
  }

  lemma {:induction false} RunKeepsExclusive(prices: seq<real>, shortPeriod: int, longPeriod: int, i: int)
    requires 1 <= shortPeriod <= longPeriod <= i <= |prices|
    requires AllPositive(prices)
    ensures Exclusive(Run(prices, shortPeriod, longPeriod, i))
    decreases i
  {
    if i > longPeriod {
      var d := i - 1;
      RunKeepsExclusive(prices, shortPeriod, longPeriod, d);
      TradeKeepsValue(Run(prices, shortPeriod, longPeriod, d), Mean(prices, d - shortPeriod, d), Mean(prices, d - longPeriod, d), prices[d]);
    }
  }

  /**
   * The simulation's result: 0 for a series shorter than the long window,
   * otherwise the cash after the loop, with any shares sold at the last price.
   */
  function SimulatedValue(prices: seq<real>, shortPeriod: int, longPeriod: int): (r: real)
    requires 1 <= shortPeriod <= longPeriod
    requires AllPositive(prices)
    ensures |prices| < longPeriod ==> r == 0.0
    ensures |prices| == longPeriod ==> r == InitialCash
    ensures r >= 0.0
  {
    if |prices| < longPeriod then 0.0
    else
      var h := Run(prices, shortPeriod, longPeriod, |prices|);
      RunKeepsExclusive(prices, shortPeriod, longPeriod, |prices|);
      if h.shares > 0.0 then h.shares * prices[|prices| - 1] else h.cash
  }

  /** The body of the simulation loop: buy with all cash, sell all shares, or hold. */
  method TradeStep(cash: real, shares: real, shortMA: real, longMA: real, price: real) returns (cash': real, shares': real)
    requires price > 0.0
    ensures Holdings(cash', shares') == Trade(Holdings(cash, shares), shortMA, longMA, price)
  {
    cash', shares' := cash, shares;
    if shortMA > longMA && cash >= price {
      shares' := cash / price;
      cash' := 0.0;
    } else if shortMA < longMA && shares > 0.0 {
      cash' := shares * price;
      shares' := 0.0;
    }
  }

  /** `simulateSimpleMovingAverageStrategy`. */
  method SimulateStrategy(prices: seq<real>, shortPeriod: int, longPeriod: int) returns (value: real)
    requires 1 <= shortPeriod <= longPeriod
    requires AllPositive(prices)
    ensures value == SimulatedValue(prices, shortPeriod, longPeriod)
  {
    if |prices| < longPeriod {
      return 0.0;
    }
    var cash := InitialCash;
    var shares := 0.0;
    var i := longPeriod;
    while i < |prices|
      invariant longPeriod <= i <= |prices|
      invariant Holdings(cash, shares) == Run(prices, shortPeriod, longPeriod, i)
    {
      var shortMA := Mean(prices, i - shortPeriod, i);
      var longMA := Mean(prices, i - longPeriod, i);
      cash, shares := TradeStep(cash, shares, shortMA, longMA, prices[i]);
      i := i + 1;
    }
    // liquidate at the last price
    if shares > 0.0 {
      cash := shares * prices[|prices| - 1];
    }
    value := cash;
  }

  // ---------------------------------------------------------------- rising prices

  predicate NonDecreasing(prices: seq<real>) {
    forall i, j :: 0 <= i <= j < |prices| ==> prices[i] <= prices[j]
  }

  /** Arithmetic core of the next lemma: adding a part whose mean is at most `c <= b / sr` cannot raise the mean. */
  lemma MeanOfCombination(a: real, b: real, kr: real, sr: real, c: real)
    requires kr >= 0.0 && sr > 0.0
    requires a <= kr * c && sr * c <= b
    ensures (a + b) / (kr + sr) <= b / sr
  {
    var m := b / sr;
    QuotientAtLeast(b, sr, c);
    MulMonotone(kr, c, m);
    assert sr * m == b;
    assert a + b <= kr * m + sr * m;
    assert kr * m + sr * m == (kr + sr) * m;
    QuotientAtMost(a + b, kr + sr, m);
  }

  /** With rising prices no entry before `k` is above `prices[k]` and none from `k` on is below it. */
  lemma {:induction false} RisingAround(prices: seq<real>, lo: int, k: int, hi: int)
    requires 0 <= lo <= k < hi <= |prices|
    requires NonDecreasing(prices)
    ensures Sum(prices, lo, k) <= ((k - lo) as real) * prices[k]
    ensures ((hi - k) as real) * prices[k] <= Sum(prices, k, hi)
  {
    SumAtMost(prices, lo, k, prices[k]);
    SumAtLeast(prices, k, hi, prices[k]);
  }

  /** With rising prices the short window's mean is never below the long window's. */
  lemma {:induction false} RisingWindowMeans(prices: seq<real>, shortPeriod: int, longPeriod: int, i: int)
    requires 1 <= shortPeriod <= longPeriod <= i <= |prices|
    requires NonDecreasing(prices)
    ensures Mean(prices, i - shortPeriod, i) >= Mean(prices, i - longPeriod, i)
  {
    var lo, k := i - longPeriod, i - shortPeriod;
    RisingAround(prices, lo, k, i);
    SumSplit(prices, lo, k, i);
    var below, above := Sum(prices, lo, k), Sum(prices, k, i);
    var kr, sr := (k - lo) as real, (i - k) as real;
    assert Sum(prices, lo, i) == below + above && (i - lo) as real == kr + sr;
    assert Mean(prices, lo, i) == (below + above) / (kr + sr);
    MeanOfCombination(below, above, kr, sr, prices[k]);
  }

  /** The invariant of a rising-market run: still all cash, or holding shares worth at least the initial cash. */
  predicate Ahead(prices: seq<real>, i: int, h: Holdings)
    requires 1 <= i <= |prices|
  {
    h == Holdings(InitialCash, 0.0) || (h.cash == 0.0 && h.shares > 0.0 && h.shares * prices[i - 1] >= InitialCash)
  }

  lemma {:induction false} AheadStep(prices: seq<real>, i: int, h: Holdings, shortMA: real, longMA: real)
    requires 1 <= i < |prices|
    requires AllPositive(prices) && NonDecreasing(prices)
    requires shortMA >= longMA
    requires Ahead(prices, i, h)
    ensures Ahead(prices, i + 1, Trade(h, shortMA, longMA, prices[i]))
  {
    var next := Trade(h, shortMA, longMA, prices[i]);
    assert prices[i - 1] <= prices[i];
    if h.shares > 0.0 {
      assert next == h;
      MulMonotone(h.shares, prices[i - 1], prices[i]);
    } else if next != h {
      assert next.shares * prices[i] == InitialCash;
    }
  }

  lemma {:induction false} RunStaysAhead(prices: seq<real>, shortPeriod: int, longPeriod: int, i: int)
    requires 1 <= shortPeriod <= longPeriod <= i <= |prices|
    requires AllPositive(prices) && NonDecreasing(prices)
    ensures Ahead(prices, i, Run(prices, shortPeriod, longPeriod, i))
    decreases i
  {
    if i > longPeriod {
      var d := i - 1;
      RunStaysAhead(prices, shortPeriod, longPeriod, d);
      RisingWindowMeans(prices, shortPeriod, longPeriod, d);
      AheadStep(prices, d, Run(prices, shortPeriod, longPeriod, d), Mean(prices, d - shortPeriod, d), Mean(prices, d - longPeriod, d));
    }
  }

  /** When prices never fall, the strategy never ends below its initial cash. */
  lemma {:induction false} RisingPricesNeverLose(prices: seq<real>, shortPeriod: int, longPeriod: int)
    requires 1 <= shortPeriod <= longPeriod <= |prices|
    requires AllPositive(prices) && NonDecreasing(prices)
    ensures SimulatedValue(prices, shortPeriod, longPeriod) >= InitialCash
  {
    RunStaysAhead(prices, shortPeriod, longPeriod, |prices|);
  }
}
