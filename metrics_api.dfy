/**
 * The client's copy of the request validators (`MetricsAPI`): the same period and interval
 * regular expressions and the same symbol-list check as the server.
 */
module MetricsApi {
  import opened JsText
  import opened Grammar
  import Server = PortfolioDataFetcher

  predicate IsValidPeriod(period: string) {
    PeriodText(period)
  }

  predicate IsValidInterval(interval: string) {
    IntervalText(interval)
  }

  predicate IsValidSymbols(symbols: seq<string>) {
    |symbols| > 0 && forall i :: 0 <= i < |symbols| ==> |Trim(symbols[i])| > 0
  }

  /** The client accepts exactly what the server accepts. */
  lemma SameAsServer(symbols: seq<string>, period: string, interval: string)
    ensures IsValidPeriod(period) <==> Server.IsValidPeriod(period)
    ensures IsValidInterval(interval) <==> Server.IsValidInterval(interval)
    ensures IsValidSymbols(symbols) <==> Server.IsValidSymbols(symbols)
  {
  }

  /** A period the client accepts is one the URL builder recognises: a fixed period, or a count
      of years, months or days. */
  lemma ClientPeriodRecognised(period: string)
    requires IsValidPeriod(period)
    ensures period == "ytd" || period == "max" ||
            (MatchDynamicPeriod(period).Some? && IsPeriodUnit(MatchDynamicPeriod(period).value.1))
  {
  }
}
