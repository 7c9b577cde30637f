/**
 * The valuation arithmetic of `PortfolioServiceImpl`: null-safe prices and
 * quantities, the portfolio's total value, cost and profit, and the
 * per-position allocation breakdown. The two repositories become inputs: the
 * portfolio the id lookup found (if any) and the portfolio's stock rows.
 */
module PortfolioService {
  import opened Optional
  import opened PortfolioModel

  const PortfolioNotFound := "Portfolio not found"

  /** `getSafePrice`: the price, else the fallback, else zero. */
  function SafePrice(price: Option<real>, fallback: Option<real>): (r: real)
    ensures price.Some? ==> r == price.value
    ensures price.None? && fallback.Some? ==> r == fallback.value
    ensures price.None? && fallback.None? ==> r == 0.0
  {
    if price.Some? then price.value
    else if fallback.Some? then fallback.value
    else 0.0
  }

  /** `getSafeQuantity`: the quantity widened to a double, else zero. */
  function SafeQuantity(quantity: Option<int>): (r: real)
    ensures quantity.Some? ==> r == quantity.value as real
    ensures quantity.None? ==> r == 0.0
    ensures r == r.Floor as real
  {
    if quantity.Some? then quantity.value as real else 0.0
  }

  /** A position at its current price, falling back to the buy price. */
  function PositionValue(s: PortfolioStock): real {
    SafePrice(s.currentPrice, s.buyPrice) * SafeQuantity(s.quantity)
  }

  /** A position at its buy price, or zero without one. */
  function PositionCost(s: PortfolioStock): real {
    SafePrice(s.buyPrice, Some(0.0)) * SafeQuantity(s.quantity)
  }

  /** `mapToDouble(f).sum()` over the stock rows. */
  function SumOver(stocks: seq<PortfolioStock>, f: PortfolioStock -> real): real {
    if stocks == [] then 0.0 else SumOver(stocks[..|stocks| - 1], f) + f(stocks[|stocks| - 1])
  }

  /** The stream total of position values: every row counts, whatever its symbol. */
  function TotalValue(stocks: seq<PortfolioStock>): real {
    SumOver(stocks, PositionValue)
  }

  /** The stream total of position costs. */
  function TotalCost(stocks: seq<PortfolioStock>): real {
    SumOver(stocks, PositionCost)
  }

  /** A row that gets an allocation line: its symbol is non-null and non-empty. */
  predicate Listed(s: PortfolioStock) {
    s.symbol.Some? && s.symbol.value != ""
  }

  /** The rows with an allocation line, in list order. */
  function ListedStocks(stocks: seq<PortfolioStock>): (r: seq<PortfolioStock>)
    ensures forall i :: 0 <= i < |r| ==> Listed(r[i])
  {
    if stocks == [] then []
    else
      var init, last := stocks[..|stocks| - 1], stocks[|stocks| - 1];
      if Listed(last) then ListedStocks(init) + [last] else ListedStocks(init)
  }

  /** A row is kept exactly when it is present and listed. */
  lemma {:induction false} ListedStocksMembers(stocks: seq<PortfolioStock>, x: PortfolioStock)
    ensures x in ListedStocks(stocks) <==> x in stocks && Listed(x)
  {
    if stocks != [] {
      var init, last := stocks[..|stocks| - 1], stocks[|stocks| - 1];
      ListedStocksMembers(init, x);
      assert stocks == init + [last];
    }
  }

  /** One allocation line, for a portfolio whose total value is `total`. */
  function Allocate(s: PortfolioStock, total: real): (a: StockAllocation)
    requires Listed(s)
    ensures a.symbol == s.symbol.value
    ensures a.currentPrice == SafePrice(s.currentPrice, s.buyPrice)
    ensures a.positionValue == PositionValue(s)
    ensures total > 0.0 ==> a.allocation * total == a.positionValue * 100.0
    ensures total <= 0.0 ==> a.allocation == 0.0
    ensures a.quantity == if s.quantity.Some? && s.quantity.value > 0 then s.quantity.value else 0
    ensures a.buyPrice == if s.buyPrice.Some? then s.buyPrice.value else 0.0
  {
    var price := SafePrice(s.currentPrice, s.buyPrice);
    var qty := SafeQuantity(s.quantity);
    var positionValue := price * qty;
    StockAllocation(
      s.symbol.value,
      if total > 0.0 then positionValue / total * 100.0 else 0.0,
      positionValue,
      if s.buyPrice.Some? then s.buyPrice.value else 0.0,
      price,
      if qty > 0.0 then qty.Floor else 0)
  }

  /** The allocation list the loop builds: one line per listed row, in list order. */
  function Allocations(stocks: seq<PortfolioStock>, total: real): seq<StockAllocation> {
    if stocks == [] then []
    else
      var init, last := stocks[..|stocks| - 1], stocks[|stocks| - 1];
      if Listed(last) then Allocations(init, total) + [Allocate(last, total)] else Allocations(init, total)
  }

  /** Exactly one allocation line per listed row, in list order. */
  lemma {:induction false} AllocationsFollowListed(stocks: seq<PortfolioStock>, total: real)
    ensures |Allocations(stocks, total)| == |ListedStocks(stocks)|
    ensures forall i :: 0 <= i < |ListedStocks(stocks)| ==>
              Allocations(stocks, total)[i] == Allocate(ListedStocks(stocks)[i], total)
  {
    if stocks != [] {
      AllocationsFollowListed(stocks[..|stocks| - 1], total);
    }
  }

  /** The sum of the allocation percentages. */
  function AllocationSum(lines: seq<StockAllocation>): real {
    if lines == [] then 0.0 else AllocationSum(lines[..|lines| - 1]) + lines[|lines| - 1].allocation
  }

  /** Adding one line keeps "percentages times total equals 100 times the value". */
  lemma ShareStep(sum: real, value: real, allocation: real, positionValue: real, total: real, sum': real, value': real)
    requires sum * total == 100.0 * value
    requires allocation * total == positionValue * 100.0
    requires sum' == sum + allocation && value' == value + positionValue
    ensures sum' * total == 100.0 * value'
  {
    assert sum' * total == sum * total + allocation * total;
  }

  /** The sum of the lines' position values. */
  function PositionSum(lines: seq<StockAllocation>): real {
    if lines == [] then 0.0 else PositionSum(lines[..|lines| - 1]) + lines[|lines| - 1].positionValue
  }

  /** Every line's percentage is its position value's share of `total`. */
  predicate Proportional(lines: seq<StockAllocation>, total: real) {
    forall i :: 0 <= i < |lines| ==> lines[i].allocation * total == lines[i].positionValue * 100.0
  }

  /** No lines and no value: zero on both sides. */
  lemma NothingShared(total: real)
    ensures 0.0 * total == 100.0 * 0.0
  {
  }

  /** Proportional lines: the percentages times the total are 100 times the position values. */
  lemma {:induction false} ProportionalSum(lines: seq<StockAllocation>, total: real)
    requires Proportional(lines, total)
    ensures AllocationSum(lines) * total == 100.0 * PositionSum(lines)
  {
    if lines == [] {
      NothingShared(total);
    } else {
      var init, last := lines[..|lines| - 1], lines[|lines| - 1];
      assert Proportional(init, total) by {
        forall i | 0 <= i < |init| ensures init[i] == lines[i] { }
      }
      ProportionalSum(init, total);
      ShareStep(AllocationSum(init), PositionSum(init), last.allocation, last.positionValue, total,
                AllocationSum(lines), PositionSum(lines));
    }
  }

  /** The allocation lines carry the listed rows' position values, in total. */
  lemma {:induction false} AllocationsValue(stocks: seq<PortfolioStock>, total: real)
    ensures PositionSum(Allocations(stocks, total)) == TotalValue(ListedStocks(stocks))
  {
    if stocks != [] {
      var init, last := stocks[..|stocks| - 1], stocks[|stocks| - 1];
      AllocationsValue(init, total);
      if Listed(last) {
        var lines := Allocations(init, total) + [Allocate(last, total)];
        assert lines[..|lines| - 1] == Allocations(init, total);
        var listed := ListedStocks(init) + [last];
        assert listed[..|listed| - 1] == ListedStocks(init);
      }
    }
  }

  /** With a positive total every allocation line is proportional. */
  lemma {:induction false} AllocationsProportional(stocks: seq<PortfolioStock>, total: real)
    requires total > 0.0
    ensures Proportional(Allocations(stocks, total), total)
  {
    AllocationsFollowListed(stocks, total);
  }

  /** With a positive total, the percentages add up to the listed rows' share of the total value. */
  lemma {:induction false} AllocationsShare(stocks: seq<PortfolioStock>, total: real)
    requires total > 0.0
    ensures AllocationSum(Allocations(stocks, total)) * total == 100.0 * TotalValue(ListedStocks(stocks))
  {
    var lines := Allocations(stocks, total);
    AllocationsValue(stocks, total);
    AllocationsProportional(stocks, total);
    ProportionalSum(lines, total);
    SameShare(AllocationSum(lines), PositionSum(lines), TotalValue(ListedStocks(stocks)), total);
  }

  /** Equal values have equal shares. */
  lemma SameShare(x: real, p: real, v: real, total: real)
    requires x * total == 100.0 * p && p == v
    ensures x * total == 100.0 * v
  {
  }

  /** A positive factor cancels. */
  lemma Cancel(x: real, y: real, t: real)
    requires t > 0.0 && x * t == y * t
    ensures x == y
  {
    calc {
      x;
      (x * t) / t;
      (y * t) / t;
      y;
    }
  }

  /** When every row is listed and the total is positive, the percentages add up to 100. */
  lemma {:induction false} AllocationsSumToHundred(stocks: seq<PortfolioStock>)
    requires forall i :: 0 <= i < |stocks| ==> Listed(stocks[i])
    requires TotalValue(stocks) > 0.0
    ensures AllocationSum(Allocations(stocks, TotalValue(stocks))) == 100.0
  {
    var total := TotalValue(stocks);
    var lines := Allocations(stocks, total);
    EveryRowListed(stocks);
    AllocationsValue(stocks, total);
    AllocationsProportional(stocks, total);
    ProportionalSum(lines, total);
    SameShare(AllocationSum(lines), PositionSum(lines), total, total);
    Cancel(AllocationSum(lines), 100.0, total);
  }

  lemma {:induction false} EveryRowListed(stocks: seq<PortfolioStock>)
    requires forall i :: 0 <= i < |stocks| ==> Listed(stocks[i])
    ensures ListedStocks(stocks) == stocks
  {
    if stocks != [] {
      var init := stocks[..|stocks| - 1];
      EveryRowListed(init);
      assert stocks == init + [stocks[|stocks| - 1]];
    }
  }

  /**
   * `updatePortfolioAnalytics`: an unknown portfolio is an error; otherwise
   * the loop accumulates the same totals as the stream sums and the
   * portfolio is returned unchanged (the totals only reach the log).
   */
  method UpdatePortfolioAnalytics(portfolio: Option<Portfolio>, stocks: seq<PortfolioStock>)
    returns (r: Result<Portfolio>, totalValue: real, totalCost: real, pnl: real)
    ensures portfolio.None? ==> r == Err(PortfolioNotFound)
    ensures portfolio.Some? ==> r == Ok(portfolio.value)
    ensures portfolio.Some? ==> totalValue == TotalValue(stocks) && totalCost == TotalCost(stocks)
    ensures portfolio.Some? ==> pnl == TotalValue(stocks) - TotalCost(stocks)
  {
    if portfolio.None? {
      return Err(PortfolioNotFound), 0.0, 0.0, 0.0;
    }
    totalValue, totalCost := 0.0, 0.0;
    var i := 0;
    while i < |stocks|
      invariant 0 <= i <= |stocks|
      invariant totalValue == TotalValue(stocks[..i])
      invariant totalCost == TotalCost(stocks[..i])
    {
      var stock := stocks[i];
      var currentPrice := SafePrice(stock.currentPrice, stock.buyPrice);
      var qty := SafeQuantity(stock.quantity);
      totalValue := totalValue + currentPrice * qty;
      totalCost := totalCost + SafePrice(stock.buyPrice, Some(0.0)) * qty;
      assert stocks[..i + 1][..i] == stocks[..i];
      i := i + 1;
    }
    assert stocks[..i] == stocks;
    pnl := totalValue - totalCost;
    r := Ok(portfolio.value);
  }

  /**
   * `getPortfolioAnalytics`: an unknown portfolio is an error; otherwise the
   * stream totals, their difference, and the allocation lines built in a loop.
   */
  method GetPortfolioAnalytics(portfolio: Option<Portfolio>, stocks: seq<PortfolioStock>)
    returns (r: Result<PortfolioAnalytics>)
    ensures portfolio.None? ==> r == Err(PortfolioNotFound)
    ensures portfolio.Some? ==> r.Ok?
    ensures portfolio.Some? ==>
              var p := portfolio.value;
              r.value == PortfolioAnalytics(p.id, p.name, p.owner, TotalValue(stocks), TotalCost(stocks),
                                            TotalValue(stocks) - TotalCost(stocks),
                                            Allocations(stocks, TotalValue(stocks)))
  {
    if portfolio.None? {
      return Err(PortfolioNotFound);
    }
    var p := portfolio.value;
    var totalValue := TotalValue(stocks);
    var totalCost := TotalCost(stocks);
    var pnl := totalValue - totalCost;
    var allocations: seq<StockAllocation> := [];
    var i := 0;
    while i < |stocks|
      invariant 0 <= i <= |stocks|
      invariant allocations == Allocations(stocks[..i], totalValue)
    {
      var stock := stocks[i];
      assert stocks[..i + 1][..i] == stocks[..i];
      if stock.symbol.Some? && stock.symbol.value != "" {
        var currentPrice := SafePrice(stock.currentPrice, stock.buyPrice);
        var qty := SafeQuantity(stock.quantity);
        var positionValue := currentPrice * qty;
        var allocation := if totalValue > 0.0 then positionValue / totalValue * 100.0 else 0.0;
        var buyPrice := if stock.buyPrice.Some? then stock.buyPrice.value else 0.0;
        var quantity := if qty > 0.0 then qty.Floor else 0;
        var line := StockAllocation(stock.symbol.value, allocation, positionValue, buyPrice, currentPrice, quantity);
        assert line == Allocate(stock, totalValue);
        allocations := allocations + [line];
      }
      i := i + 1;
    }
    assert stocks[..i] == stocks;
    r := Ok(PortfolioAnalytics(p.id, p.name, p.owner, totalValue, totalCost, pnl, allocations));
  }
}
