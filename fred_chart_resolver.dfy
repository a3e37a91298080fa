/**
 * FredChartResolver: the realised Sharpe ratio of a weighted portfolio. Each symbol's
 * adjusted closes become a series of simple returns; the series are aligned on their
 * common dates; the weighted daily excess returns give a daily and an annual Sharpe
 * ratio. The download of each chart is not modelled: its parsed content is a parameter.
 */
module FredChartResolver {
  import opened Wrappers
  import opened Numeric
  import opened Records
  import opened Types
  import opened StringOrder
  import opened NullFilter

  /** `new Date(t * 1000).toISOString().slice(0, 10)`: the UTC day of a Unix time as YYYY-MM-DD.
      The calendar arithmetic is not part of this model. */
  const IsoDay: int -> string

  const DefaultTradingDays: real := 252.0

  /** Fewer common dates than this is an error. */
  const MinObservations: nat := 30

  /** The fields of one parsed chart result that the resolver reads. */
  datatype ChartResult = ChartResult(timestamp: seq<int>, adjclose: seq<seq<Option<real>>>)

  datatype ResolveError =
    | EmptyResult(symbol: string)     // "Empty result for <symbol>"
    | LengthMismatch(symbol: string)  // "Length mismatch for <symbol>"
    | EmptyAllocations                // "Empty allocations"
    | TooFewObservations              // "Too few overlapping observations"

  /** `res.indicators.adjclose?.[0]?.adjclose ?? []`. */
  function FirstAdjClose(res: ChartResult): seq<Option<real>> {
    if res.adjclose == [] then [] else res.adjclose[0]
  }

  /** The dates of the non-null prices, in order. */
  function KeptDates(ts: seq<int>, adj: seq<Option<real>>): seq<string>
    requires |ts| == |adj|
  {
    if ts == [] then []
    else
      var k := |ts| - 1;
      KeptDates(ts[..k], adj[..k]) + (if adj[k].Some? then [IsoDay(ts[k])] else [])
  }

  /** Dropping nulls keeps dates and prices paired: both have one entry per non-null price. */
  lemma {:induction false} KeptLengths(ts: seq<int>, adj: seq<Option<real>>)
    requires |ts| == |adj|
    ensures |KeptDates(ts, adj)| == |Present(adj)| == PresentCount(adj)
  {
    if ts != [] {
      KeptLengths(ts[..|ts| - 1], adj[..|adj| - 1]);
    }
  }

  /** `prices[i] / prices[i - 1] - 1`, or 0 when that is not finite (a previous price of 0). */
  function StepReturn(prev: real, cur: real): (r: real)
    ensures prev == 0.0 ==> r == 0.0
  {
    if prev == 0.0 then 0.0 else cur / prev - 1.0
  }

  /** The return of each price over its predecessor. */
  function StepReturns(prices: seq<real>): (r: seq<real>)
    ensures |r| == if prices == [] then 0 else |prices| - 1
    ensures forall i :: 0 <= i < |r| ==> r[i] == StepReturn(prices[i], prices[i + 1])
  {
    if prices == [] then [] else seq(|prices| - 1, i requires 0 <= i < |prices| - 1 => StepReturn(prices[i], prices[i + 1]))
  }

  /** `slice(1)`. */
  function Tail<T>(s: seq<T>): (t: seq<T>)
    ensures |t| == if s == [] then 0 else |s| - 1
  {
    if s == [] then [] else s[1..]
  }

  /**
   * resolveBySymbol, after the download: rejects an empty result and unequal timestamp and price
   * arrays; keeps the dated non-null prices; and pairs each kept price from the second on with
   * its date and its return over the previous kept price.
   */
  method ToReturnSeries(symbol: string, results: seq<ChartResult>) returns (res: Result<Series, ResolveError>)
    ensures results == [] ==> res == Failure(EmptyResult(symbol))
    ensures results != [] && |results[0].timestamp| != |FirstAdjClose(results[0])| ==> res == Failure(LengthMismatch(symbol))
    ensures results != [] && |results[0].timestamp| == |FirstAdjClose(results[0])| ==>
              var ts, adj := results[0].timestamp, FirstAdjClose(results[0]);
              res == Success(Series(symbol, Tail(KeptDates(ts, adj)), Tail(Present(adj)), StepReturns(Present(adj))))
  {
    if results == [] {
      return Failure(EmptyResult(symbol));
    }
    var ts := results[0].timestamp;
    var adj := FirstAdjClose(results[0]);
    if |ts| != |adj| {
      return Failure(LengthMismatch(symbol));
    }
    var dates: seq<string> := [];
    var prices: seq<real> := [];
    for i := 0 to |ts|
      invariant dates == KeptDates(ts[..i], adj[..i])
      invariant prices == Present(adj[..i])
    {
      assert ts[..i + 1][..i] == ts[..i] && adj[..i + 1][..i] == adj[..i];
      var v := adj[i];
      if v.Some? {
        dates := dates + [IsoDay(ts[i])];
        prices := prices + [v.value];
      }
    }
    assert ts[..|ts|] == ts && adj[..|adj|] == adj;
    var rets: seq<real> := [];
    var i := 1;
    while i < |prices|
      invariant 1 <= i <= if prices == [] then 1 else |prices|
      invariant |rets| == i - 1
      invariant forall k :: 0 <= k < i - 1 ==> rets[k] == StepReturn(prices[k], prices[k + 1])
    {
      rets := rets + [StepReturn(prices[i - 1], prices[i])];
      i := i + 1;
    }
    assert rets == StepReturns(prices);
    return Success(Series(symbol, Tail(dates), Tail(prices), rets));
  }

  /** A resolved series pairs dates, prices and returns one to one, one fewer than the non-null
      prices. */
  lemma SeriesShape(ts: seq<int>, adj: seq<Option<real>>)
    requires |ts| == |adj|
    ensures var k := PresentCount(adj);
            var len := if k == 0 then 0 else k - 1;
            |Tail(KeptDates(ts, adj))| == len && |Tail(Present(adj))| == len && |StepReturns(Present(adj))| == len
  {
    KeptLengths(ts, adj);
  }

  /** Each price after the first is its predecessor compounded by its return, unless the
      predecessor was 0. */
  lemma Compounding(prices: seq<real>, i: nat)
    requires i < |StepReturns(prices)| && prices[i] != 0.0
    ensures prices[i] * (1.0 + StepReturns(prices)[i]) == prices[i + 1]
  {
    StepCompounds(prices[i], StepReturns(prices)[i], prices[i + 1]);
  }

  /** A return over a non-zero price compounds that price into the next one. */
  lemma StepCompounds(p: real, r: real, q: real)
    requires p != 0.0 && r == StepReturn(p, q)
    ensures p * (1.0 + r) == q
  {
    assert r == q / p - 1.0;
  }

  /** d is a date of every series. */
  predicate InEvery(d: string, seriesList: seq<Series>) {
    forall j :: 0 <= j < |seriesList| ==> d in seriesList[j].dates
  }

  /** The dates of ds present in every series, in the order of ds. */
  function FilterCommon(ds: seq<string>, seriesList: seq<Series>): seq<string> {
    if ds == [] then []
    else
      var k := |ds| - 1;
      FilterCommon(ds[..k], seriesList) + (if InEvery(ds[k], seriesList) then [ds[k]] else [])
  }

  /** The first series' dates that every series has. */
  function CommonDates(seriesList: seq<Series>): seq<string>
    requires |seriesList| > 0
  {
    FilterCommon(seriesList[0].dates, seriesList)
  }

  lemma {:induction false} FilterCommonMembers(ds: seq<string>, seriesList: seq<Series>, d: string)
    ensures d in FilterCommon(ds, seriesList) <==> d in ds && InEvery(d, seriesList)
  {
    if ds != [] {
      var k := |ds| - 1;
      FilterCommonMembers(ds[..k], seriesList, d);
      assert ds == ds[..k] + [ds[k]];
    }
  }

  /** The common dates are sorted, and are exactly the dates every series has. */
  lemma CommonDatesSpec(seriesList: seq<Series>, d: string)
    requires |seriesList| > 0
    ensures Sorted(Sort(CommonDates(seriesList)))
    ensures d in Sort(CommonDates(seriesList)) <==> InEvery(d, seriesList)
  {
    FilterCommonMembers(seriesList[0].dates, seriesList, d);
    assert d in Sort(CommonDates(seriesList)) <==> d in multiset(Sort(CommonDates(seriesList)));
  }

  /** The per-series map of `m.set(dates[i], returns[i])` for each i in turn: a later duplicate
      date overwrites an earlier one, and a date past the end of the returns maps to undefined. */
  function ReturnIndex(dates: seq<string>, rets: seq<real>): map<string, Option<real>> {
    if dates == [] then map[]
    else
      var k := |dates| - 1;
      ReturnIndex(dates[..k], rets)[dates[k] := if k < |rets| then Some(rets[k]) else None]
  }

  /** The map has exactly the series' dates as keys, each holding the return at its last
      occurrence. */
  lemma {:induction false} ReturnIndexSpec(dates: seq<string>, rets: seq<real>, d: string)
    ensures d in ReturnIndex(dates, rets) <==> d in dates
    ensures d in dates ==>
              ReturnIndex(dates, rets)[d] == (var k := LastIndex(dates, d); if k < |rets| then Some(rets[k]) else None)
  {
    if dates != [] {
      var k := |dates| - 1;
      ReturnIndexSpec(dates[..k], rets, d);
      assert dates == dates[..k] + [dates[k]];
    }
  }

  /** `m.get(d)`, with undefined and missing read as 0. */
  function Lookup(m: map<string, Option<real>>, d: string): real {
    if d in m && m[d].Some? then m[d].value else 0.0
  }

  function Indexes(seriesList: seq<Series>): (ms: seq<map<string, Option<real>>>)
    ensures |ms| == |seriesList|
  {
    seq(|seriesList|, j requires 0 <= j < |seriesList| => ReturnIndex(seriesList[j].dates, seriesList[j].periodReturns))
  }

  /** One row per date, one column per series. */
  function ReturnMatrix(dates: seq<string>, maps: seq<map<string, Option<real>>>): (m: seq<seq<real>>)
    ensures |m| == |dates| && forall t :: 0 <= t < |dates| ==> |m[t]| == |maps|
  {
    seq(|dates|, t requires 0 <= t < |dates| => seq(|maps|, j requires 0 <= j < |maps| => Lookup(maps[j], dates[t])))
  }

  /** Builds one series' date-to-return map with a loop. */
  method BuildReturnIndex(s: Series) returns (m: map<string, Option<real>>)
    ensures m == ReturnIndex(s.dates, s.periodReturns)
  {
    m := map[];
    for i := 0 to |s.dates|
      invariant m == ReturnIndex(s.dates[..i], s.periodReturns)
    {
      assert s.dates[..i + 1][..i] == s.dates[..i];
      m := m[s.dates[i] := if i < |s.periodReturns| then Some(s.periodReturns[i]) else None];
    }
    assert s.dates[..|s.dates|] == s.dates;
  }

  /** intersectDates: the sorted common dates and the matrix of returns on them. */
  method IntersectDates(seriesList: seq<Series>) returns (dates: seq<string>, matrix: seq<seq<real>>)
    requires |seriesList| > 0
    ensures dates == Sort(CommonDates(seriesList))
    ensures matrix == ReturnMatrix(dates, Indexes(seriesList))
  {
    dates := Sort(CommonDates(seriesList));
    var maps: seq<map<string, Option<real>>> := [];
    for j := 0 to |seriesList|
      invariant |maps| == j
      invariant forall k :: 0 <= k < j ==> maps[k] == ReturnIndex(seriesList[k].dates, seriesList[k].periodReturns)
    {
      var m := BuildReturnIndex(seriesList[j]);
      maps := maps + [m];
    }
    assert maps == Indexes(seriesList);
    matrix := ReturnMatrix(dates, maps);
  }

  /** Entry (t, j) of the matrix is series j's return on the t-th common date (taken at the date's
      last occurrence in that series), or 0 when the series has no return there. */
  lemma MatrixEntry(seriesList: seq<Series>, t: nat, j: nat)
    requires |seriesList| > 0
    requires t < |Sort(CommonDates(seriesList))| && j < |seriesList|
    ensures var dates := Sort(CommonDates(seriesList));
            var s := seriesList[j];
            dates[t] in s.dates &&
            ReturnMatrix(dates, Indexes(seriesList))[t][j] ==
              (var k := LastIndex(s.dates, dates[t]); if k < |s.periodReturns| then s.periodReturns[k] else 0.0)
  {
    var dates := Sort(CommonDates(seriesList));
    CommonDatesSpec(seriesList, dates[t]);
    ReturnIndexSpec(seriesList[j].dates, seriesList[j].periodReturns, dates[t]);
  }

  datatype Stats = Stats(mean: real, std: real)

  /** statsMeanStd: the mean and the sample standard deviation, with divisor `n − 1 || 1`. */
  function StatsMeanStd(x: seq<real>): (st: Stats)
    ensures st.std >= 0.0
    ensures |x| > 0 ==> st.mean * |x| as real == Sum(x)
  {
    if |x| == 0 then Stats(0.0, 0.0)
    else
      var n := |x|;
      var mean := Sum(x) / n as real;
      var divisor := if n - 1 != 0 then n - 1 else 1;
      Stats(mean, Sqrt(SumSqDev(x, mean) / divisor as real))
  }

  /** No observations give (0, 0); one observation is its own mean with deviation 0; a constant
      list has deviation 0. */
  lemma StatsEdgeCases(x: seq<real>, c: real)
    ensures |x| == 0 ==> StatsMeanStd(x) == Stats(0.0, 0.0)
    ensures |x| == 1 ==> StatsMeanStd(x) == Stats(x[0], 0.0)
    ensures |x| > 0 && (forall i :: 0 <= i < |x| ==> x[i] == c) ==> StatsMeanStd(x) == Stats(c, 0.0)
  {
    if |x| == 1 {
      MeanConstant(x, x[0]);
      SumSqDevConstant(x, x[0]);
    }
    if |x| > 0 && forall i :: 0 <= i < |x| ==> x[i] == c {
      MeanConstant(x, c);
      SumSqDevConstant(x, c);
    }
  }

  /** The entries with a positive amount, in order. */
  function PositiveEntries(allocations: AllocationInput): (e: AllocationInput)
    ensures forall i :: 0 <= i < |e| ==> e[i].1 > 0.0
  {
    if allocations == [] then []
    else
      var k := |allocations| - 1;
      PositiveEntries(allocations[..k]) + (if allocations[k].1 > 0.0 then [allocations[k]] else [])
  }

  lemma {:induction false} PositiveEntriesMembers(allocations: AllocationInput, entry: (string, real))
    ensures entry in PositiveEntries(allocations) <==> entry in allocations && entry.1 > 0.0
  {
    if allocations != [] {
      var k := |allocations| - 1;
      PositiveEntriesMembers(allocations[..k], entry);
      assert allocations == allocations[..k] + [allocations[k]];
    }
  }

  function AmountsOf(e: AllocationInput): (a: seq<real>)
    ensures |a| == |e| && forall i :: 0 <= i < |e| ==> a[i] == e[i].1
  {
    seq(|e|, i requires 0 <= i < |e| => e[i].1)
  }

  /** The total of positive amounts: positive unless there are none. */
  function PositiveTotal(e: AllocationInput): (total: real)
    requires forall i :: 0 <= i < |e| ==> e[i].1 > 0.0
    ensures total == Sum(AmountsOf(e))
    ensures total >= 0.0 && (|e| > 0 ==> total > 0.0)
  {
    var a := AmountsOf(e);
    assert |e| > 0 ==> a[0] > 0.0;
    SumNonNegative(a);
    Sum(a)
  }

  /** Each entry's amount as a fraction of the total. */
  function Proportions(e: AllocationInput, total: real): (w: Record<real>)
    requires total != 0.0
    ensures |w| == |e|
    ensures forall i :: 0 <= i < |e| ==> w[i].0 == e[i].0 && w[i].1 * total == e[i].1
  {
    seq(|e|, i requires 0 <= i < |e| => (e[i].0, e[i].1 / total))
  }

  function NormalizeAllocations(allocations: AllocationInput): Result<Record<real>, ResolveError> {
    var e := PositiveEntries(allocations);
    if |e| == 0 then Failure(EmptyAllocations)
    else Success(Proportions(e, PositiveTotal(e)))
  }

  /** Normalisation fails exactly when no amount is positive. */
  lemma NormalizeAllocationsFails(allocations: AllocationInput)
    ensures NormalizeAllocations(allocations).Failure? <==> forall i :: 0 <= i < |allocations| ==> allocations[i].1 <= 0.0
  {
    var e := PositiveEntries(allocations);
    if forall i :: 0 <= i < |allocations| ==> allocations[i].1 <= 0.0 {
      if |e| > 0 {
        PositiveEntriesMembers(allocations, e[0]);
      }
    } else {
      var i :| 0 <= i < |allocations| && allocations[i].1 > 0.0;
      PositiveEntriesMembers(allocations, allocations[i]);
    }
  }

  /** One proportion of a positive amount within its positive total lies in (0, 1]. */
  lemma ProportionBounds(a: seq<real>, i: nat)
    requires forall k :: 0 <= k < |a| ==> a[k] > 0.0
    requires i < |a|
    ensures Sum(a) > 0.0 && 0.0 < a[i] / Sum(a) <= 1.0
  {
    SumNonNegative(a);
    TermAtMostSum(a, i);
    FractionBounds(a[i], Sum(a));
  }

  /** The proportions keep the entries' keys, in order. */
  lemma ProportionsKeys(e: AllocationInput, total: real)
    requires total != 0.0
    ensures Keys(Proportions(e, total)) == Keys(e)
  {
  }

  /** The proportions' amounts are the entries' amounts divided by the total. */
  lemma ProportionsAmounts(e: AllocationInput, total: real)
    requires total != 0.0
    ensures AmountsOf(Proportions(e, total)) == DivideAll(AmountsOf(e), total)
  {
    var w, d := AmountsOf(Proportions(e, total)), DivideAll(AmountsOf(e), total);
    forall i | 0 <= i < |e| ensures w[i] == d[i] {
      assert w[i] * total == e[i].1 == d[i] * total;
    }
  }

  /** Positive amounts over their own total are fractions in (0, 1]. */
  lemma ProportionsInUnit(e: AllocationInput, total: real)
    requires forall i :: 0 <= i < |e| ==> e[i].1 > 0.0
    requires total == Sum(AmountsOf(e)) && total > 0.0
    ensures forall i :: 0 <= i < |e| ==> 0.0 < Proportions(e, total)[i].1 <= 1.0
  {
    forall i | 0 <= i < |e| ensures 0.0 < Proportions(e, total)[i].1 <= 1.0 {
      assert Proportions(e, total)[i].1 == AmountsOf(e)[i] / total;
      ProportionBounds(AmountsOf(e), i);
    }
  }

  /** Amounts over their own total sum to 1. */
  lemma ProportionsSumToOne(e: AllocationInput, total: real)
    requires total == Sum(AmountsOf(e)) && total > 0.0
    ensures Sum(AmountsOf(Proportions(e, total))) == 1.0
  {
    ProportionsAmounts(e, total);
    SumDivideAll(AmountsOf(e), total);
    assert total / total == 1.0;
  }

  /** The weights keep the positive entries' keys in order, are each in (0, 1], are proportional
      to the amounts, and sum to 1. */
  lemma NormalizeAllocationsWeights(allocations: AllocationInput)
    requires NormalizeAllocations(allocations).Success?
    ensures Keys(NormalizeAllocations(allocations).value) == Keys(PositiveEntries(allocations))
    ensures forall i :: 0 <= i < |PositiveEntries(allocations)| ==>
              0.0 < NormalizeAllocations(allocations).value[i].1 <= 1.0
    ensures var e := PositiveEntries(allocations);
            forall i :: 0 <= i < |e| ==> NormalizeAllocations(allocations).value[i].1 == e[i].1 / PositiveTotal(e)
    ensures Sum(AmountsOf(NormalizeAllocations(allocations).value)) == 1.0
  {
    var e := PositiveEntries(allocations);
    var total := PositiveTotal(e);
    assert NormalizeAllocations(allocations).value == Proportions(e, total);
    ProportionsKeys(e, total);
    ProportionsInUnit(e, total);
    ProportionsSumToOne(e, total);
  }

  /** `weights[s.symbol] ?? 0` for each series, in series order. */
  function WeightVector(weights: Record<real>, seriesList: seq<Series>): (wVec: seq<real>)
    ensures |wVec| == |seriesList|
  {
    seq(|seriesList|, i requires 0 <= i < |seriesList| => Get(weights, seriesList[i].symbol).GetOr(0.0))
  }

  /** With one series per positive allocation, in allocation order, every series finds its own
      weight, a share in (0, 1]: the `?? 0` fallback is never taken. */
  lemma WeightVectorInUnit(allocations: AllocationInput, seriesList: seq<Series>)
    requires NormalizeAllocations(allocations).Success?
    requires SeriesAligned(allocations, seriesList)
    ensures forall i :: 0 <= i < |seriesList| ==>
              0.0 < WeightVector(NormalizeAllocations(allocations).value, seriesList)[i] <= 1.0
  {
    var w := NormalizeAllocations(allocations).value;
    NormalizeAllocationsWeights(allocations);
    forall i | 0 <= i < |seriesList| ensures 0.0 < WeightVector(w, seriesList)[i] <= 1.0 {
      assert w[i].0 == Keys(w)[i] == Keys(PositiveEntries(allocations))[i] == seriesList[i].symbol;
      GetEntry(w, i);
    }
  }

  /** The price series were fetched one per positive allocation, in the allocations' order. */
  predicate SeriesAligned(allocations: AllocationInput, seriesList: seq<Series>) {
    |seriesList| == |PositiveEntries(allocations)| &&
    forall i :: 0 <= i < |seriesList| ==> seriesList[i].symbol == PositiveEntries(allocations)[i].0
  }

  /** The portfolio's return on each date: the weighted sum of the row. */
  function PortfolioReturns(wVec: seq<real>, matrix: seq<seq<real>>): (portR: seq<real>)
    requires forall t :: 0 <= t < |matrix| ==> |matrix[t]| == |wVec|
    ensures |portR| == |matrix|
  {
    seq(|matrix|, t requires 0 <= t < |matrix| => Dot(wVec, matrix[t]))
  }

  /** The realised Sharpe report for common dates and a return matrix. */
  function SharpeReport(weights: Record<real>, seriesList: seq<Series>, dates: seq<string>, matrix: seq<seq<real>>,
                        rfAnnual: real, tradingDays: real): SharpeResult
    requires |dates| > 0 && tradingDays > 0.0
    requires forall t :: 0 <= t < |matrix| ==> |matrix[t]| == |seriesList|
  {
    var portR := PortfolioReturns(WeightVector(weights, seriesList), matrix);
    var rfDaily := Pow(1.0 + rfAnnual, 1.0 / tradingDays) - 1.0;
    var excess := seq(|portR|, t requires 0 <= t < |portR| => portR[t] - rfDaily);
    var st := StatsMeanStd(excess);
    var sharpeDaily := if st.std == 0.0 then 0.0 else st.mean / st.std;
    SharpeResult(|dates|, |dates|, sharpeDaily, sharpeDaily * Sqrt(tradingDays), st.mean, st.std,
                 rfAnnual, rfDaily, dates[0], dates[|dates| - 1], weights)
  }

  /** The report counts the dates, spans from the first to the last, scales the daily ratio by
      √N, and gives ratio 0 when the excess returns do not vary. */
  lemma SharpeReportSpec(weights: Record<real>, seriesList: seq<Series>, dates: seq<string>, matrix: seq<seq<real>>,
                         rfAnnual: real, tradingDays: real)
    requires |dates| > 0 && tradingDays > 0.0
    requires forall t :: 0 <= t < |matrix| ==> |matrix[t]| == |seriesList|
    ensures var r := SharpeReport(weights, seriesList, dates, matrix, rfAnnual, tradingDays);
            r.windowDays == r.nObs == |dates| && r.start == dates[0] && r.end == dates[|dates| - 1] &&
            r.sharpeAnnual == r.sharpeDaily * Sqrt(tradingDays) &&
            (r.stdDaily == 0.0 ==> r.sharpeDaily == 0.0 && r.sharpeAnnual == 0.0) &&
            (r.stdDaily != 0.0 ==> r.sharpeDaily * r.stdDaily == r.meanExcessDaily)
  {
  }

  /** The first and last entries of a sorted sequence bound all of it: the report's `start` and
      `end` are the earliest and the latest common date. */
  lemma SortedBounds(dates: seq<string>, d: string)
    requires Sorted(dates) && d in dates
    ensures LexLe(dates[0], d) && LexLe(d, dates[|dates| - 1])
  {
    var t :| 0 <= t < |dates| && dates[t] == d;
    SortedPairs(dates, 0, t);
    SortedPairs(dates, t, |dates| - 1);
  }

  lemma SingleTotal(symbol: string, amount: real)
    requires amount > 0.0
    ensures PositiveTotal([(symbol, amount)]) == amount
  {
    assert AmountsOf([(symbol, amount)]) == [amount];
    assert Sum([amount]) == Sum([amount][..0]) + amount;
    assert [amount][..0] == [];
  }

  lemma SingleProportion(symbol: string, amount: real)
    requires amount > 0.0
    ensures Proportions([(symbol, amount)], amount) == [(symbol, 1.0)]
  {
    var w := Proportions([(symbol, amount)], amount);
    assert w[0].1 * amount == amount;
  }

  /** A single positive allocation carries weight 1. */
  lemma SingleAssetWeight(symbol: string, amount: real)
    requires amount > 0.0
    ensures NormalizeAllocations([(symbol, amount)]) == Success([(symbol, 1.0)])
  {
    var e := [(symbol, amount)];
    assert PositiveEntries(e) == e by {
      assert e[..0] == [];
    }
    SingleTotal(symbol, amount);
    SingleProportion(symbol, amount);
  }

  /** With one series whose symbol holds weight 1, the portfolio return on each date is that
      series' return. */
  lemma SingleAssetReturns(symbol: string, s: Series, matrix: seq<seq<real>>)
    requires s.symbol == symbol
    requires forall t :: 0 <= t < |matrix| ==> |matrix[t]| == 1
    ensures forall t :: 0 <= t < |matrix| ==> PortfolioReturns(WeightVector([(symbol, 1.0)], [s]), matrix)[t] == matrix[t][0]
  {
    var wVec := WeightVector([(symbol, 1.0)], [s]);
    assert wVec == [1.0];
    forall t | 0 <= t < |matrix| ensures Dot(wVec, matrix[t]) == matrix[t][0] {
      DotSingle(wVec, matrix[t]);
    }
  }

  /**
   * resolve, after the downloads: normalises the allocations (rejecting an empty one), aligns the
   * series fetched for the positive entries, rejects fewer than 30 common dates, and reports the
   * Sharpe ratio with N trading days a year (252 unless given).
   */
  method Resolve(allocations: AllocationInput, tradingDaysPerYear: Option<real>, seriesList: seq<Series>, rfMeta: RfMeta)
    returns (res: Result<SharpeResult, ResolveError>)
    requires tradingDaysPerYear.Some? ==> tradingDaysPerYear.value > 0.0
    requires rfMeta.rf.Finite?
    requires NormalizeAllocations(allocations).Success? ==> SeriesAligned(allocations, seriesList)
    ensures NormalizeAllocations(allocations).Failure? ==> res == Failure(EmptyAllocations)
    ensures NormalizeAllocations(allocations).Success? ==>
              var dates := Sort(CommonDates(seriesList));
              if |dates| < MinObservations then res == Failure(TooFewObservations)
              else res == Success(SharpeReport(NormalizeAllocations(allocations).value, seriesList, dates,
                                               ReturnMatrix(dates, Indexes(seriesList)), rfMeta.rf.value,
                                               tradingDaysPerYear.GetOr(DefaultTradingDays)))
  {
    var n := tradingDaysPerYear.GetOr(DefaultTradingDays);
    var weights := NormalizeAllocations(allocations);
    if weights.Failure? {
      return Failure(EmptyAllocations);
    }
    var dates, matrix := IntersectDates(seriesList);
    if |dates| < MinObservations {
      return Failure(TooFewObservations);
    }
    res := Success(SharpeReport(weights.value, seriesList, dates, matrix, rfMeta.rf.value, n));
  }
}
