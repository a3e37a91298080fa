/**
 * PortfolioDataFetcher: checks a metrics request, builds each symbol's Yahoo chart URL, keeps
 * the non-null closes of each downloaded chart and folds them into a symbol → closes record.
 * The clock and the downloads are parameters: `now`, the start of the year and dayjs's
 * calendar subtraction come in a Clock, and each symbol's HTTP response is given.
 */
module PortfolioDataFetcher {
  import opened Wrappers
  import opened JsText
  import opened Records
  import opened NullFilter
  import opened Grammar

  /** The fallback look-back: one 365-day year, in seconds. */
  const YearlySeconds: int := 31536000

  const ChartBase: string := "https://query1.finance.yahoo.com/v8/finance/chart/"

  predicate IsValidPeriod(period: string) {
    PeriodText(period)
  }

  predicate IsValidInterval(interval: string) {
    IntervalText(interval)
  }

  /** A non-empty list whose every symbol is non-blank after `trim()`. */
  predicate IsValidSymbols(symbols: seq<string>) {
    |symbols| > 0 && forall i :: 0 <= i < |symbols| ==> |Trim(symbols[i])| > 0
  }

  /** The symbols are valid exactly when there is one and each holds a character that is not
      white space. */
  lemma ValidSymbolsIff(symbols: seq<string>)
    ensures IsValidSymbols(symbols) <==> |symbols| > 0 && forall i :: 0 <= i < |symbols| ==> HasNonSpace(symbols[i])
  {
    forall i | 0 <= i < |symbols| ensures |Trim(symbols[i])| > 0 <==> HasNonSpace(symbols[i]) {
      TrimEmptyIff(symbols[i]);
    }
  }

  predicate HasNonSpace(s: string) {
    exists j :: 0 <= j < |s| && !IsSpace(s[j])
  }

  /** A valid period is a dynamic period the URL builder can capture, or one of the two fixed
      periods. */
  lemma ValidPeriodIff(period: string)
    ensures IsValidPeriod(period) <==> MatchDynamicPeriod(period).Some? || period == "ytd" || period == "max"
  {
  }

  datatype DateUnit = Year | Month | Day

  /** The dayjs unit a period suffix names. */
  function UnitOf(u: string): (d: DateUnit)
    requires IsPeriodUnit(u)
    ensures d == Year <==> u == "y"
    ensures d == Month <==> u == "mo"
  {
    if u == "y" then Year else if u == "mo" then Month else Day
  }

  /** The clock the URL builder reads: `dayjs().unix()`, `dayjs().startOf("year").unix()` and
      `dayjs().subtract(n, unit).unix()`. */
  datatype Clock = Clock(now: int, startOfYear: int, ago: (nat, DateUnit) -> int)

  /** `period1` of the chart URL. */
  function PeriodStart(period: string, clock: Clock): (start: int)
    ensures period == "ytd" ==> start == clock.startOfYear
    ensures period == "max" ==> start == 0
    ensures !IsValidPeriod(period) ==> start == clock.now - YearlySeconds
  {
    if period == "ytd" then clock.startOfYear
    else if period == "max" then 0
    else match MatchDynamicPeriod(period)
      case Some((digits, unit)) => clock.ago(DigitsValue(digits), UnitOf(unit))
      case None => clock.now - YearlySeconds
  }

  /** `N y`, `N mo` and `N d` look back N years, months or days. */
  lemma PeriodStartDynamic(n: nat, u: string, clock: Clock)
    requires IsPeriodUnit(u)
    ensures PeriodStart(NatText(n) + u, clock) == clock.ago(n, UnitOf(u))
  {
    PeriodRoundTrip(n, u);
    NatTextRoundTrip(n);
    assert NatText(n) + u != "ytd" && NatText(n) + u != "max" by {
      assert IsDigit((NatText(n) + u)[0]);
    }
  }

  /** generateYahooChartUrl. */
  function ChartUrl(symbol: string, period: string, interval: string, clock: Clock): (url: string)
    ensures var head := ChartBase + symbol + "?period1=" + IntText(PeriodStart(period, clock));
            var tail := "&period2=" + IntText(clock.now) + "&interval=" + interval;
            |url| == |head| + |tail| && url[..|head|] == head && url[|head|..] == tail
  {
    ChartBase + symbol + "?period1=" + IntText(PeriodStart(period, clock)) + "&period2=" + IntText(clock.now) + "&interval=" + interval
  }

  /** The parts of a validated chart response that are read: each result's quotes, each quote's
      nullable closes, and the error object. */
  datatype Quote = Quote(close: Option<seq<Option<real>>>)
  datatype ChartData = ChartData(quote: Option<seq<Quote>>)
  datatype ChartError = ChartError(code: string, description: string)
  datatype ChartResponse = ChartResponse(result: Option<seq<ChartData>>, error: Option<ChartError>)

  /** `chart.result?.[0]?.indicators?.quote?.[0]?.close`. */
  function FirstClose(data: ChartResponse): Option<seq<Option<real>>> {
    match data.result
    case Some(results) =>
      if results != [] && results[0].quote.Some? && results[0].quote.value != [] then results[0].quote.value[0].close
      else None
    case None => None
  }

  /** extractClosed: the first quote's closes without the nulls, or `[]` when there are none. */
  function ExtractClosed(data: ChartResponse): (closes: seq<real>)
    ensures FirstClose(data).None? ==> closes == []
    ensures FirstClose(data).Some? ==> |closes| == PresentCount(FirstClose(data).value)
    ensures FirstClose(data).Some? ==> forall x :: x in closes <==> Some(x) in FirstClose(data).value
  {
    match FirstClose(data)
    case None => []
    case Some(c) =>
      PresentLength(c);
      forall x ensures x in Present(c) <==> Some(x) in c {
        PresentMembers(c, x);
      }
      Present(c)
  }

  /** An HTTP response: its status and, when it parsed against the schema, its content. */
  datatype Response = Response(status: int, body: Option<ChartResponse>)

  datatype FetchError =
    | NetworkError                 // fetch rejected
    | HttpStatus(status: int)      // "HTTP <status>"
    | SchemaMismatch               // the schema's parse threw
    | ApiError(code: string)       // "API Error: <code>"
    | InsufficientData(url: string) // "Insufficient data for <url>"

  /** getYahooChartJson, given the outcome of the fetch (None when it rejected). */
  function GetChart(url: string, response: Option<Response>): (r: Result<ChartResponse, FetchError>)
    ensures r.Success? <==> response.Some? && 200 <= response.value.status <= 299 && response.value.body.Some? &&
                            response.value.body.value.error.None? && |ExtractClosed(response.value.body.value)| >= 2
    ensures r.Success? ==> r.value == response.value.body.value
    ensures response.None? ==> r == Failure(NetworkError)
    ensures response.Some? && !(200 <= response.value.status <= 299) ==> r == Failure(HttpStatus(response.value.status))
    ensures (response.Some? && 200 <= response.value.status <= 299 && response.value.body.None?) ==> r == Failure(SchemaMismatch)
    ensures (response.Some? && 200 <= response.value.status <= 299 && response.value.body.Some? &&
             response.value.body.value.error.Some?) ==> r == Failure(ApiError(response.value.body.value.error.value.code))
    ensures (response.Some? && 200 <= response.value.status <= 299 && response.value.body.Some? &&
             response.value.body.value.error.None? && |ExtractClosed(response.value.body.value)| < 2) ==>
              r == Failure(InsufficientData(url))
  {
    match response
    case None => Failure(NetworkError)
    case Some(resp) =>
      if !(200 <= resp.status <= 299) then Failure(HttpStatus(resp.status))
      else match resp.body
        case None => Failure(SchemaMismatch)
        case Some(data) =>
          if data.error.Some? then Failure(ApiError(data.error.value.code))
          else if |ExtractClosed(data)| < 2 then Failure(InsufficientData(url))
          else Success(data)
  }

  /** The outcome for the i-th symbol. */
  function Fetch(symbols: seq<string>, period: string, interval: string, clock: Clock,
                 responses: seq<Option<Response>>, i: nat): Result<ChartResponse, FetchError>
    requires |responses| == |symbols| && i < |symbols|
  {
    GetChart(ChartUrl(symbols[i], period, interval, clock), responses[i])
  }

  /** The closes of every symbol, in order, when every download succeeded. */
  function AllCloses(symbols: seq<string>, period: string, interval: string, clock: Clock,
                     responses: seq<Option<Response>>): (closes: seq<seq<real>>)
    requires |responses| == |symbols|
    requires forall i :: 0 <= i < |symbols| ==> Fetch(symbols, period, interval, clock, responses, i).Success?
    ensures |closes| == |symbols|
    ensures forall i :: 0 <= i < |symbols| ==> |closes[i]| >= 2
  {
    seq(|symbols|, i requires 0 <= i < |symbols| => ExtractClosed(Fetch(symbols, period, interval, clock, responses, i).value))
  }

  /** resolve: the closes folded into a record by symbol, or `{}` when any download fails. */
  function Resolve(symbols: seq<string>, period: string, interval: string, clock: Clock,
                   responses: seq<Option<Response>>): (prices: Record<seq<real>>)
    requires |responses| == |symbols|
    ensures (exists i :: 0 <= i < |symbols| && Fetch(symbols, period, interval, clock, responses, i).Failure?) ==> prices == []
  {
    if forall i :: 0 <= i < |symbols| ==> Fetch(symbols, period, interval, clock, responses, i).Success? then
      Assign(symbols, AllCloses(symbols, period, interval, clock, responses))
    else []
  }

  /** When every download succeeds, each requested symbol holds the closes of its LAST request,
      with at least two prices, no other key appears, and no key appears twice. */
  lemma ResolveRecord(symbols: seq<string>, period: string, interval: string, clock: Clock,
                      responses: seq<Option<Response>>, k: string)
    requires |responses| == |symbols|
    requires forall i :: 0 <= i < |symbols| ==> Fetch(symbols, period, interval, clock, responses, i).Success?
    ensures var prices := Resolve(symbols, period, interval, clock, responses);
            DistinctKeys(prices) &&
            (k in symbols ==> Get(prices, k) == Some(ExtractClosed(Fetch(symbols, period, interval, clock, responses, LastIndex(symbols, k)).value)) &&
                              |Get(prices, k).value| >= 2) &&
            (k !in symbols ==> Get(prices, k) == None)
  {
    var closes := AllCloses(symbols, period, interval, clock, responses);
    AssignSpec(symbols, closes, k);
  }
}
