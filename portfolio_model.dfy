/**
 * The portfolio entities as the valuation and refresh code read them: every
 * column is nullable, so each becomes an `Option`. Identifiers, the owning
 * portfolio back-reference and the creation time carry no logic here.
 */
module PortfolioModel {
  import opened Optional

  /** One position: a row of the portfolio-stock table. */
  datatype PortfolioStock = PortfolioStock(
    symbol: Option<string>,
    quantity: Option<int>,
    buyPrice: Option<real>,
    currentPrice: Option<real>)

  /** A portfolio's own columns. */
  datatype Portfolio = Portfolio(id: int, name: Option<string>, owner: Option<string>)

  /** One line of the allocation breakdown. */
  datatype StockAllocation = StockAllocation(
    symbol: string,
    allocation: real,
    positionValue: real,
    buyPrice: real,
    currentPrice: real,
    quantity: int)

  /** The analytics transfer object. */
  datatype PortfolioAnalytics = PortfolioAnalytics(
    portfolioId: int,
    name: Option<string>,
    owner: Option<string>,
    totalValue: real,
    totalCost: real,
    pnl: real,
    allocations: seq<StockAllocation>)
}
