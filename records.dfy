/**
 * Record shapes of the portfolio store. Dates are day ordinals, money and
 * quantities are reals, and an empty account id means "no account filter".
 */
module Records {

  /** An open lot: the part of one buy trade that has not been sold yet. */
  datatype Holding = Holding(
    accountId: string,
    date: int,
    quantity: real,
    price: real,
    brokerage: real,  // brokerage of the buy trade not yet applied to a sale
    gst: real)        // GST on that brokerage not yet applied to a sale

  /** Immutable log entry written by every buy trade. */
  datatype BuyEntry = BuyEntry(
    tradeId: string,
    total: real,
    accountId: string,
    date: int,
    quantity: real,
    price: real,
    brokerage: real,
    gst: real)

  /** Immutable log entry written for every (sell trade, lot consumed) pair. */
  datatype SellEntry = SellEntry(
    tradeId: string,
    accountId: string,
    buyDate: int,
    sellDate: int,
    quantity: real,
    buyPrice: real,
    sellPrice: real,
    appliedBuyBrokerage: real,
    appliedSellBrokerage: real,
    appliedBuyGst: real,
    appliedSellGst: real,
    total: real,
    profitOrLoss: real,
    capitalGainOrLoss: real,
    cgtDiscount: bool)

  datatype Account = Account(name: string, accountId: string)

  /** A dated value of a price series (adjusted close) or an exchange-rate series. */
  datatype SeriesEntry = SeriesEntry(date: int, value: real)

  datatype ChartDataPoint = ChartDataPoint(time: int, value: real)

  /**
   * What the reports read of a security: its descriptive fields, the user's
   * classification lists and its three trade collections.
   */
  datatype SecurityData = SecurityData(
    symbol: string,
    name: string,
    currency: string,
    exchange: string,
    kind: string,
    countries: seq<string>,
    financialStatus: seq<string>,
    miningStatus: seq<string>,
    resources: seq<string>,
    products: seq<string>,
    recommendations: seq<string>,
    holdings: seq<Holding>,
    buyHistory: seq<BuyEntry>,
    sellHistory: seq<SellEntry>)

  function BuyDate(e: BuyEntry): int { e.date }

  function SellDate(e: SellEntry): int { e.sellDate }

  function HoldingDate(h: Holding): int { h.date }

  function Quantity(h: Holding): real { h.quantity }

  /** The account filter of the reports: the empty id lets every account through. */
  predicate PassesFilter(accountIdFilter: string, accountId: string) {
    accountIdFilter == "" || accountIdFilter == accountId
  }
}
