/**
 * The record shapes shared by the server modules: a resolved price series, the
 * realised-Sharpe report, the risk-free-rate metadata, an allocation input and
 * the metrics request parameters.
 */
module Types {
  import opened Numeric
  import opened Records

  /** One symbol's aligned dates, prices and simple returns (`returns` in the source). */
  datatype Series = Series(symbol: string, dates: seq<string>, prices: seq<real>, periodReturns: seq<real>)

  /** The realised Sharpe report of a weighted portfolio. */
  datatype SharpeResult = SharpeResult(
    windowDays: nat,
    nObs: nat,
    sharpeDaily: real,
    sharpeAnnual: real,
    meanExcessDaily: real,
    stdDaily: real,
    rfAnnual: real,
    rfDaily: real,
    start: string,
    end: string,
    weights: Record<real>)

  /** The latest risk-free rate: as a fraction, as the quoted percentage text, and its date. */
  datatype RfMeta = RfMeta(rf: Float, value: string, date: string)

  /** Amount invested per symbol. */
  type AllocationInput = Record<real>

  /** The request of a metrics or allocation call; `period` and `interval` are the raw texts. */
  datatype PortfolioMetricsParams = PortfolioMetricsParams(symbols: seq<string>, period: string, interval: string, totalAssets: real)
}
