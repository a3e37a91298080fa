/**
 * PortfolioMetricsCalculator: from one price array per asset to the
 * annualised mean return `mu`, the annualised sample volatility `sigma` and the
 * Pearson correlation matrix `corr` of the daily returns.
 */
module PortfolioMetricsCalculator {
  import opened Wrappers
  import opened Numeric

  /** The annualisation factor written into the calculator. */
  const TradingDays: real := 252.0

  datatype CalculationResult = CalculationResult(mu: seq<real>, sigma: seq<Float>, corr: seq<seq<real>>)

  datatype CalcError =
    | NoAssets                                    // "pricesArrays must have at least one asset"
    | InsufficientPrices(asset: nat, count: nat)  // "Asset i has insufficient prices: count"

  /** Every price that serves as the base of a daily return is non-zero. */
  predicate NonZeroBases(prices: seq<real>) {
    forall j :: 0 <= j < |prices| - 1 ==> prices[j] != 0.0
  }

  /** The daily returns (p[j+1] − p[j]) / p[j]. */
  function DailyReturns(prices: seq<real>): (r: seq<real>)
    requires |prices| > 0 && NonZeroBases(prices)
    ensures |r| == |prices| - 1
    ensures forall j :: 0 <= j < |r| ==> prices[j] + r[j] * prices[j] == prices[j + 1]
  {
    seq(|prices| - 1, j requires 0 <= j < |prices| - 1 => (prices[j + 1] - prices[j]) / prices[j])
  }

  /** mu: the mean daily return times 252. */
  function AnnualMu(r: seq<real>): real
    requires |r| > 0
  {
    Mean(r) * TradingDays
  }

  /** sigma: the square root of Σ(r − mean)² / (len − 1), times √252. There is no guard on the
      divisor: with a single return it is 0 / 0, which is NaN. */
  function AnnualSigma(r: seq<real>): (s: Float)
    requires |r| > 0
    ensures s.NaN? <==> |r| == 1
    ensures s.Finite? ==> s.value >= 0.0
  {
    if |r| == 1 then NaN
    else
      var root := Sqrt(SumSqDev(r, Mean(r)) / (|r| - 1) as real);
      assert root * Sqrt(TradingDays) >= 0.0;
      Finite(root * Sqrt(TradingDays))
  }

  /** Pearson correlation of two equally long return series of length at least 2, with the
      population divisor; 0 when either has zero spread. */
  function Pearson(a: seq<real>, b: seq<real>): real
    requires |a| == |b| >= 2
  {
    var m1 := Mean(a);
    var m2 := Mean(b);
    var numerator := CrossDev(a, b, m1, m2) / |a| as real;
    var denom1 := Sqrt(SumSqDev(a, m1) / |a| as real);
    var denom2 := Sqrt(SumSqDev(b, m2) / |b| as real);
    if denom1 == 0.0 || denom2 == 0.0 then 0.0 else numerator / (denom1 * denom2)
  }

  /** The correlation of two assets: 0 when they overlap on fewer than two returns, otherwise
      Pearson on the common prefix. */
  function PairCorrelation(a: seq<real>, b: seq<real>): real {
    var minLen := if |a| <= |b| then |a| else |b|;
    if minLen < 2 then 0.0 else Pearson(a[..minLen], b[..minLen])
  }

  /** Entry (i, j) of the correlation matrix. */
  function CorrEntry(series: seq<seq<real>>, i: nat, j: nat): real
    requires i < |series| && j < |series|
  {
    if i == j then 1.0 else PairCorrelation(series[i], series[j])
  }

  /** Correlation does not depend on the order of the pair. */
  lemma PearsonSymmetric(a: seq<real>, b: seq<real>)
    requires |a| == |b| >= 2
    ensures Pearson(a, b) == Pearson(b, a)
  {
    CrossDevSymmetric(a, b, Mean(a), Mean(b));
    var d1, d2 := Sqrt(SumSqDev(a, Mean(a)) / |a| as real), Sqrt(SumSqDev(b, Mean(b)) / |b| as real);
    assert d1 * d2 == d2 * d1;
  }

  lemma PairCorrelationSymmetric(a: seq<real>, b: seq<real>)
    ensures PairCorrelation(a, b) == PairCorrelation(b, a)
  {
    var minLen := if |a| <= |b| then |a| else |b|;
    if minLen >= 2 {
      PearsonSymmetric(a[..minLen], b[..minLen]);
    }
  }

  /** The matrix is symmetric. */
  lemma CorrEntrySymmetric(series: seq<seq<real>>, i: nat, j: nat)
    requires i < |series| && j < |series|
    ensures CorrEntry(series, i, j) == CorrEntry(series, j, i)
  {
    PairCorrelationSymmetric(series[i], series[j]);
  }

  /** An asset whose returns are constant over the overlap is uncorrelated with every other one. */
  lemma ConstantReturnsUncorrelated(a: seq<real>, b: seq<real>, c: real)
    requires forall k :: 0 <= k < |a| && k < |b| ==> a[k] == c
    ensures PairCorrelation(a, b) == 0.0
  {
    var minLen := if |a| <= |b| then |a| else |b|;
    if minLen >= 2 {
      var a' := a[..minLen];
      MeanConstant(a', c);
      SumSqDevConstant(a', c);
      assert Sqrt(SumSqDev(a', Mean(a')) / minLen as real) == 0.0;
    }
  }

  /**
   * calculateCorrelation: fills an n×n matrix with nested loops; the diagonal is written as 1,
   * and each off-diagonal pair is written at (i, j) and mirrored at (j, i).
   */
  method CalculateCorrelation(series: seq<seq<real>>) returns (corr: seq<seq<real>>)
    ensures IsSquare(corr, |series|)
    ensures forall i :: 0 <= i < |series| ==> corr[i][i] == 1.0
    ensures forall i, j :: 0 <= i < |series| && 0 <= j < |series| && i != j ==>
              corr[i][j] == PairCorrelation(series[i], series[j])
    ensures IsSymmetric(corr)
  {
    var n := |series|;
    var m := new real[n, n];
    for i := 0 to n
      invariant forall a, b :: 0 <= a < n && 0 <= b < n && (a < i || b < i) ==>
                  m[a, b] == CorrEntry(series, a, b)
    {
      for j := 0 to n
        invariant forall a, b ::
                    (0 <= a < n && 0 <= b < n && (a < i || b < i || (a == i && b < j) || (b == i && a < j))) ==>
                    m[a, b] == CorrEntry(series, a, b)
      {
        if i == j {
          m[i, j] := 1.0;
        } else {
          var ret1, ret2 := series[i], series[j];
          var minLen := if |ret1| <= |ret2| then |ret1| else |ret2|;
          CorrEntrySymmetric(series, i, j);
          if minLen < 2 {
            m[i, j] := 0.0;
            m[j, i] := 0.0;
          } else {
            m[i, j] := Pearson(ret1[..minLen], ret2[..minLen]);
            m[j, i] := m[i, j];
          }
        }
      }
    }
    corr := seq(n, a requires 0 <= a < n reads m => seq(n, b requires 0 <= b < n reads m => m[a, b]));
    forall a, b | 0 <= a < n && 0 <= b < n ensures corr[a][b] == corr[b][a] {
      CorrEntrySymmetric(series, a, b);
    }
  }

  /**
   * calculateFromPrices: rejects an empty list and the first asset with fewer than two prices;
   * otherwise mu[i] and sigma[i] are the annualised statistics of asset i's daily returns and
   * corr is the correlation matrix of those return series.
   */
  method CalculateFromPrices(pricesArrays: seq<seq<real>>) returns (res: Result<CalculationResult, CalcError>)
    requires forall i :: 0 <= i < |pricesArrays| ==> NonZeroBases(pricesArrays[i])
    ensures res == Failure(NoAssets) <==> |pricesArrays| == 0
    ensures res.Failure? && |pricesArrays| > 0 ==> res.error.InsufficientPrices?
    ensures res.Success? <==> |pricesArrays| > 0 && forall i :: 0 <= i < |pricesArrays| ==> |pricesArrays[i]| >= 2
    ensures res.Failure? && res.error.InsufficientPrices? ==>
              var k := res.error.asset;
              k < |pricesArrays| && res.error.count == |pricesArrays[k]| && |pricesArrays[k]| < 2 &&
              forall i :: 0 <= i < k ==> |pricesArrays[i]| >= 2
    ensures res.Success? ==>
              var n := |pricesArrays|;
              |res.value.mu| == n && |res.value.sigma| == n && IsSquare(res.value.corr, n) &&
              forall i :: 0 <= i < n ==>
                var r := DailyReturns(pricesArrays[i]);
                res.value.mu[i] == AnnualMu(r) && res.value.sigma[i] == AnnualSigma(r) &&
                res.value.corr[i][i] == 1.0 &&
                forall j :: 0 <= j < n && j != i ==>
                  res.value.corr[i][j] == PairCorrelation(r, DailyReturns(pricesArrays[j]))
  {
    var n := |pricesArrays|;
    if n < 1 {
      return Failure(NoAssets);
    }
    var mu := new real[n];
    var sigma := new Float[n](_ => Finite(0.0));
    var series: seq<seq<real>> := [];
    for i := 0 to n
      invariant |series| == i
      invariant forall k :: 0 <= k < i ==> |pricesArrays[k]| >= 2
      invariant forall k :: 0 <= k < i ==>
                  series[k] == DailyReturns(pricesArrays[k]) &&
                  mu[k] == AnnualMu(series[k]) && sigma[k] == AnnualSigma(series[k])
    {
      var prices := pricesArrays[i];
      if |prices| < 2 {
        return Failure(InsufficientPrices(i, |prices|));
      }
      var dailyReturns := DailyReturns(prices);
      series := series + [dailyReturns];
      mu[i] := AnnualMu(dailyReturns);
      sigma[i] := AnnualSigma(dailyReturns);
    }
    var corr := CalculateCorrelation(series);
    return Success(CalculationResult(mu[..], sigma[..], corr));
  }

  /** With constant prices every daily return is 0, so mu is 0 and (from three prices on) sigma is 0. */
  lemma ConstantPrices(prices: seq<real>, c: real)
    requires |prices| >= 2 && c != 0.0
    requires forall j :: 0 <= j < |prices| ==> prices[j] == c
    ensures AnnualMu(DailyReturns(prices)) == 0.0
    ensures |prices| >= 3 ==> AnnualSigma(DailyReturns(prices)) == Finite(0.0)
  {
    var r := DailyReturns(prices);
    MeanConstant(r, 0.0);
    SumSqDevConstant(r, 0.0);
  }

  /** Two prices give a single return: mu is that return times 252 and sigma is NaN (the code has
      no fallback for the zero divisor). */
  lemma TwoPrices()
    ensures AnnualMu(DailyReturns([100.0, 110.0])) == 25.2
    ensures AnnualSigma(DailyReturns([100.0, 110.0])).NaN?
  {
    var r := DailyReturns([100.0, 110.0]);
    assert r == [0.1];
    assert r[..0] == [];
  }
}
