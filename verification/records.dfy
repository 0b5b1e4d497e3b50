/** The records of the stock-portfolio application that the core passes
    around: the rows of the backend's tables, the legacy holding shape the
    portfolio tab displays, and the quote message pushed by the price feed.
    Prices, quantities and amounts are JavaScript numbers, modelled as
    exact reals; nullable columns are Options. */
module Records {
  import opened Wrappers

  /** A row of the `assets` table. */
  datatype Asset = Asset(
    id: string,
    symbol: string,
    name: string,
    assetType: string,
    currency: string)

  /** A row of the `portfolios` table. */
  datatype Portfolio = Portfolio(
    id: string,
    userId: string,
    name: string,
    description: Option<string>,
    currency: string,
    isPublic: bool,
    benchmarkSymbol: Option<string>)

  /** A row of the `holdings` table. */
  datatype Holding = Holding(
    id: string,
    portfolioId: string,
    assetId: string,
    quantity: real,
    averageCost: real,
    totalCost: real)

  datatype TransactionType =
    | Buy | Sell | Dividend | Split | TransferIn | TransferOut | Fee | Interest

  /** A row of the `transactions` table. */
  datatype Transaction = Transaction(
    id: string,
    portfolioId: string,
    assetId: string,
    transactionType: TransactionType,
    quantity: real,
    pricePerUnit: real,
    totalAmount: real,
    fees: real,
    transactionDate: string,
    notes: Option<string>)

  /** The legacy per-ticker holding the portfolio tab computes its totals from. */
  datatype PortfolioHolding = PortfolioHolding(
    ticker: string,
    name: string,
    shares: real,
    avgPrice: real,
    currentPrice: real)

  /** A quote message pushed by the live price feed; the optional fields may
      be missing from a message. */
  datatype StockUpdate = StockUpdate(
    symbol: string,
    price: real,
    change: real,
    changePercent: real,
    volume: Option<real>,
    high: Option<real>,
    low: Option<real>,
    open: Option<real>,
    marketCap: Option<real>,
    timestamp: string)
}
