/**
 * AssetAllocator: a Monte-Carlo search for the weight vector with the best Sharpe ratio.
 * The random draws are a parameter (row k holds the n values `Math.random()` returned in
 * iteration k), so the search is a deterministic function of its inputs.
 */
module AssetAllocator {
  import opened Wrappers
  import opened Numeric
  import opened Records
  import opened Types
  import Calc = PortfolioMetricsCalculator
  import Fetcher = PortfolioDataFetcher

  /** The iteration count `allocate` always passes. */
  const DefaultIterations: int := 10000

  datatype AllocError =
    | NoAssets           // "No assets to optimize"
    | NoValidAllocation  // "No valid allocation found"

  /** What `optimize` returns: weights as percentages with two decimals, amounts in whole units. */
  datatype Allocation = Allocation(
    weights: seq<real>,
    amounts: seq<int>,
    sharpe: real,
    portfolioReturn: real,
    portfolioRisk: Float)

  /** What `allocate` returns: the same, with weights and amounts keyed by symbol. A value is
      `None` (undefined) when the symbol's position has no entry in the unkeyed arrays. */
  datatype KeyedAllocation = KeyedAllocation(
    weights: Record<Option<real>>,
    amounts: Record<Option<int>>,
    sharpe: real,
    portfolioReturn: real,
    portfolioRisk: Float)

  /** One sample of the search: normalised weights and their Sharpe ratio. */
  datatype Sample = Sample(weights: seq<real>, sharpe: Float)

  /** The best sample so far; its Sharpe ratio is always a number, since NaN never wins `>`. */
  datatype Pick = Pick(weights: seq<real>, sharpe: real)

  /** `iterations || Math.min(10000 + n * 1000, 50000)`. */
  function DynamicIterations(iterations: int, n: nat): (count: int)
    ensures iterations != 0 ==> count == iterations
    ensures iterations == 0 ==> 10000 <= count <= 50000
  {
    if iterations != 0 then iterations else Min(10000 + n * 1000, 50000)
  }

  /** How many times the sampling loop runs (none for a negative count). */
  function Trials(iterations: int, n: nat): nat {
    var count := DynamicIterations(iterations, n);
    if count < 0 then 0 else count
  }

  /** The default count grows by 1000 per asset and is capped at 50000. */
  lemma DefaultCount(n: nat)
    ensures n <= 40 ==> DynamicIterations(0, n) == 10000 + 1000 * n
    ensures n >= 40 ==> DynamicIterations(0, n) == 50000
  {
  }

  /** The shapes the calculator produces: one mu and sigma per asset, an n×n matrix. */
  predicate WellShaped(r: Calc.CalculationResult) {
    |r.sigma| == |r.mu| && IsSquare(r.corr, |r.mu|)
  }

  /** One row of draws from `Math.random()`, each assumed non-zero. */
  predicate IsDraw(draw: seq<real>, n: nat) {
    |draw| == n && forall i :: 0 <= i < n ==> 0.0 < draw[i] < 1.0
  }

  predicate AllFinite(sigma: seq<Float>) {
    forall i :: 0 <= i < |sigma| ==> sigma[i].Finite?
  }

  /** The numeric values of the volatilities (NaN read as 0; only used when all are finite). */
  function Values(sigma: seq<Float>): (r: seq<real>)
    ensures |r| == |sigma|
    ensures forall i :: 0 <= i < |sigma| && sigma[i].Finite? ==> r[i] == sigma[i].value
  {
    seq(|sigma|, i requires 0 <= i < |sigma| => if sigma[i].Finite? then sigma[i].value else 0.0)
  }

  /** The covariance matrix, entry by entry sigma[i]·corr[i][j]·sigma[j]. */
  function Covariance(sigma: seq<real>, corr: seq<seq<real>>): (cov: seq<seq<real>>)
    requires IsSquare(corr, |sigma|)
    ensures IsSquare(cov, |sigma|)
  {
    seq(|sigma|, i requires 0 <= i < |sigma| =>
      seq(|sigma|, j requires 0 <= j < |sigma| => sigma[i] * corr[i][j] * sigma[j]))
  }

  /** A symmetric correlation matrix gives a symmetric covariance matrix. */
  lemma CovarianceSymmetric(sigma: seq<real>, corr: seq<seq<real>>)
    requires IsSquare(corr, |sigma|) && IsSymmetric(corr)
    ensures IsSymmetric(Covariance(sigma, corr))
  {
    var cov := Covariance(sigma, corr);
    forall i, j | 0 <= i < |sigma| && 0 <= j < |sigma| ensures cov[i][j] == cov[j][i] {
      calc {
        cov[i][j];
        sigma[i] * corr[i][j] * sigma[j];
        { assert corr[i][j] == corr[j][i]; }
        sigma[j] * corr[j][i] * sigma[i];
        cov[j][i];
      }
    }
  }

  /** Zero volatilities give the zero matrix, whatever the correlations. */
  lemma CovarianceOfZeroSigma(sigma: seq<real>, corr: seq<seq<real>>)
    requires IsSquare(corr, |sigma|)
    requires forall i :: 0 <= i < |sigma| ==> sigma[i] == 0.0
    ensures forall i, j :: 0 <= i < |sigma| && 0 <= j < |sigma| ==> Covariance(sigma, corr)[i][j] == 0.0
  {
  }

  /** Each draw divided by the sum of the row. */
  function Normalize(draw: seq<real>): seq<real>
    requires Sum(draw) != 0.0
  {
    DivideAll(draw, Sum(draw))
  }

  /** Normalised draws lie on the simplex: each weight is in (0, 1] and they sum to 1. */
  lemma NormalizeOnSimplex(draw: seq<real>)
    requires |draw| > 0 && forall i :: 0 <= i < |draw| ==> draw[i] > 0.0
    ensures Sum(draw) > 0.0
    ensures |Normalize(draw)| == |draw|
    ensures Sum(Normalize(draw)) == 1.0
    ensures forall i :: 0 <= i < |draw| ==> 0.0 < Normalize(draw)[i] <= 1.0
  {
    assert draw[0] > 0.0;
    SumNonNegative(draw);
    var s := Sum(draw);
    assert s > 0.0;
    SumDivideAll(draw, s);
    assert Normalize(draw) == DivideAll(draw, s);
    assert Sum(DivideAll(draw, s)) == s / s == 1.0;
    forall i | 0 <= i < |draw| ensures 0.0 < Normalize(draw)[i] <= 1.0 {
      TermAtMostSum(draw, i);
      FractionBounds(draw[i], s);
    }
  }

  /** wᵀ·cov·w, or NaN when some volatility is NaN (every term of the double sum then is). */
  function VarianceOf(w: seq<real>, sigma: seq<Float>, corr: seq<seq<real>>): Float
    requires |sigma| == |w| && IsSquare(corr, |w|)
  {
    if AllFinite(sigma) then Finite(QuadForm(w, Covariance(Values(sigma), corr))) else NaN
  }

  /** `Math.sqrt` of the variance: NaN for NaN or a negative variance. */
  function RiskOf(variance: Float): (risk: Float)
    ensures risk.Finite? <==> variance.Finite? && variance.value >= 0.0
    ensures risk.Finite? ==> risk.value >= 0.0 && (variance.value == 0.0 ==> risk.value == 0.0)
  {
    match variance
    case NaN => NaN
    case Finite(v) => if v < 0.0 then NaN else Finite(Sqrt(v))
  }

  /** `portRisk > 0 ? (portReturn - rf) / portRisk : 0`. */
  function SharpeOf(portReturn: real, rf: Float, risk: Float): (s: Float)
    ensures !(risk.Finite? && risk.value > 0.0) ==> s == Finite(0.0)
    ensures risk.Finite? && risk.value > 0.0 && rf.Finite? ==>
              s.Finite? && s.value * risk.value == portReturn - rf.value
    ensures risk.Finite? && risk.value > 0.0 && rf.NaN? ==> s.NaN?
  {
    if risk.Finite? && risk.value > 0.0 then
      if rf.Finite? then Finite((portReturn - rf.value) / risk.value) else NaN
    else Finite(0.0)
  }

  /** The sample one row of draws produces. */
  function SampleOf(draw: seq<real>, r: Calc.CalculationResult, rf: Float): (s: Sample)
    requires WellShaped(r) && |r.mu| > 0 && IsDraw(draw, |r.mu|)
    ensures |s.weights| == |r.mu|
  {
    NormalizeOnSimplex(draw);
    var w := Normalize(draw);
    Sample(w, SharpeOf(Dot(w, r.mu), rf, RiskOf(VarianceOf(w, r.sigma, r.corr))))
  }

  predicate AreDraws(draws: seq<seq<real>>, n: nat) {
    forall k :: 0 <= k < |draws| ==> IsDraw(draws[k], n)
  }

  /** The first `count` samples. */
  function Samples(draws: seq<seq<real>>, count: nat, r: Calc.CalculationResult, rf: Float): (s: seq<Sample>)
    requires WellShaped(r) && |r.mu| > 0 && AreDraws(draws, |r.mu|) && count <= |draws|
    ensures |s| == count
    ensures forall k :: 0 <= k < count ==> s[k] == SampleOf(draws[k], r, rf)
  {
    seq(count, k requires 0 <= k < count => SampleOf(draws[k], r, rf))
  }

  /** One more pass of the loop appends the sample of the next row of draws. */
  lemma SamplesGrow(draws: seq<seq<real>>, count: nat, r: Calc.CalculationResult, rf: Float)
    requires WellShaped(r) && |r.mu| > 0 && AreDraws(draws, |r.mu|) && count < |draws|
    ensures Samples(draws, count + 1, r, rf) == Samples(draws, count, r, rf) + [SampleOf(draws[count], r, rf)]
  {
    var longer := Samples(draws, count + 1, r, rf);
    var shorter := Samples(draws, count, r, rf) + [SampleOf(draws[count], r, rf)];
    assert |longer| == |shorter|;
    forall k | 0 <= k < count + 1 ensures longer[k] == shorter[k] {
      if k < count {
        assert shorter[k] == Samples(draws, count, r, rf)[k];
      }
    }
  }

  /** The best pick after one more sample: the new sample replaces the best one so far exactly
      when its Sharpe ratio is a number above it. */
  lemma BestOfStep(samples: seq<Sample>, s: Sample)
    ensures var prev := BestOf(samples);
            BestOf(samples + [s]) ==
              if s.sharpe.Finite? && (prev.None? || s.sharpe.value > prev.value.sharpe)
              then Some(Pick(s.weights, s.sharpe.value)) else prev
  {
    assert (samples + [s])[..|samples|] == samples;
  }

  /** The best sample found by scanning left to right with `sharpe > bestSharpe`, starting
      from −Infinity (None). */
  function BestOf(samples: seq<Sample>): Option<Pick> {
    if samples == [] then None
    else
      var prev := BestOf(samples[..|samples| - 1]);
      var s := samples[|samples| - 1];
      if s.sharpe.Finite? && (prev.None? || s.sharpe.value > prev.value.sharpe) then
        Some(Pick(s.weights, s.sharpe.value))
      else prev
  }

  /** The scan finds nothing exactly when every Sharpe ratio is NaN; otherwise its pick is at
      least every numeric Sharpe ratio. */
  lemma {:induction false} BestIsMaximum(samples: seq<Sample>)
    ensures BestOf(samples).None? <==> forall k :: 0 <= k < |samples| ==> samples[k].sharpe.NaN?
    ensures BestOf(samples).Some? ==>
              forall k :: 0 <= k < |samples| && samples[k].sharpe.Finite? ==>
                samples[k].sharpe.value <= BestOf(samples).value.sharpe
  {
    if samples != [] {
      var init := samples[..|samples| - 1];
      BestIsMaximum(init);
      assert forall k :: 0 <= k < |init| ==> init[k] == samples[k];
    }
  }

  /** The pick is the FIRST sample that attains the maximum: every earlier one is NaN or
      strictly smaller. */
  lemma {:induction false} BestIsFirst(samples: seq<Sample>)
    requires BestOf(samples).Some?
    ensures exists k :: 0 <= k < |samples| &&
              samples[k].weights == BestOf(samples).value.weights &&
              samples[k].sharpe == Finite(BestOf(samples).value.sharpe) &&
              forall i :: 0 <= i < k ==> samples[i].sharpe.NaN? || samples[i].sharpe.value < BestOf(samples).value.sharpe
  {
    var init := samples[..|samples| - 1];
    var p := BestOf(samples).value;
    assert forall k :: 0 <= k < |init| ==> init[k] == samples[k];
    if BestOf(init) == Some(p) {
      BestIsFirst(init);
      var k :| 0 <= k < |init| && init[k].weights == p.weights && init[k].sharpe == Finite(p.sharpe) &&
               forall i :: 0 <= i < k ==> init[i].sharpe.NaN? || init[i].sharpe.value < p.sharpe;
      assert samples[k] == init[k];
    } else {
      BestIsMaximum(init);
      var k := |samples| - 1;
      forall i | 0 <= i < k ensures samples[i].sharpe.NaN? || samples[i].sharpe.value < p.sharpe {
        assert samples[i] == init[i];
      }
    }
  }

  /** Percentages with two decimals: `Math.round(w * 10000) / 100`. */
  function Percentages(w: seq<real>): (pct: seq<real>)
    ensures |pct| == |w|
  {
    seq(|w|, i requires 0 <= i < |w| => Round(w[i] * 10000.0) as real / 100.0)
  }

  /** One amount in whole units: `Math.round(w * totalAssets)`. */
  function AmountOf(w: real, totalAssets: real): int {
    Round(w * totalAssets)
  }

  function Amounts(w: seq<real>, totalAssets: real): (amounts: seq<int>)
    ensures |amounts| == |w|
  {
    seq(|w|, i requires 0 <= i < |w| => AmountOf(w[i], totalAssets))
  }

  /** A weight in [0, 1] becomes a percentage in [0, 100]. */
  lemma PercentageBounds(w: real)
    requires 0.0 <= w <= 1.0
    ensures 0 <= Round(w * 10000.0) <= 10000
  {
    RoundMonotone(0.0, w * 10000.0);
    RoundMonotone(w * 10000.0, 10000.0);
    assert Round(0.0) == 0 && Round(10000.0) == 10000;
  }

  /** A weight in [0, 1] of a non-negative total becomes an amount between 0 and the rounded total. */
  lemma AmountBounds(w: real, totalAssets: real)
    requires 0.0 <= w <= 1.0 && totalAssets >= 0.0
    ensures 0 <= AmountOf(w, totalAssets) <= Round(totalAssets)
  {
    ScaledBounds(w, totalAssets);
    RoundMonotone(0.0, w * totalAssets);
    RoundMonotone(w * totalAssets, totalAssets);
    assert Round(0.0) == 0;
  }

  /** Weights on the simplex give percentages between 0 and 100 and, for a non-negative total,
      amounts between 0 and the rounded total. */
  lemma RoundedShares(w: seq<real>, totalAssets: real)
    requires forall i :: 0 <= i < |w| ==> 0.0 <= w[i] <= 1.0
    ensures forall i :: 0 <= i < |w| ==> 0.0 <= Percentages(w)[i] <= 100.0
    ensures totalAssets >= 0.0 ==> forall i :: 0 <= i < |w| ==> 0 <= Amounts(w, totalAssets)[i] <= Round(totalAssets)
  {
    forall i | 0 <= i < |w| ensures 0.0 <= Percentages(w)[i] <= 100.0 {
      PercentageBounds(w[i]);
    }
    if totalAssets >= 0.0 {
      forall i | 0 <= i < |w| ensures 0 <= Amounts(w, totalAssets)[i] <= Round(totalAssets) {
        AmountBounds(w[i], totalAssets);
      }
    }
  }

  /** The summary `optimize` builds from the winning weights. */
  function Summarize(p: Pick, r: Calc.CalculationResult, totalAssets: real): (a: Allocation)
    requires WellShaped(r) && |p.weights| == |r.mu|
    ensures |a.weights| == |r.mu| && |a.amounts| == |r.mu| && a.sharpe == p.sharpe
  {
    Allocation(
      Percentages(p.weights),
      Amounts(p.weights, totalAssets),
      p.sharpe,
      Dot(p.weights, r.mu),
      RiskOf(VarianceOf(p.weights, r.sigma, r.corr)))
  }

  /** What `optimize` computes for the given draws. */
  function OptimizeResult(r: Calc.CalculationResult, rf: Float, totalAssets: real, iterations: int, draws: seq<seq<real>>): Result<Allocation, AllocError>
    requires WellShaped(r) && AreDraws(draws, |r.mu|) && Trials(iterations, |r.mu|) <= |draws|
  {
    if |r.mu| == 0 then Failure(NoAssets)
    else
      var samples := Samples(draws, Trials(iterations, |r.mu|), r, rf);
      var best := BestOf(samples);
      if best.None? then Failure(NoValidAllocation)
      else
        BestIsFirst(samples);
        Success(Summarize(best.value, r, totalAssets))
  }

  /** The search fails only for no assets, no iterations, or a NaN risk-free rate with every
      sample risky; a numeric rate and one iteration always give an allocation. */
  lemma OptimizeOutcome(r: Calc.CalculationResult, rf: Float, totalAssets: real, iterations: int, draws: seq<seq<real>>)
    requires WellShaped(r) && AreDraws(draws, |r.mu|) && Trials(iterations, |r.mu|) <= |draws|
    ensures OptimizeResult(r, rf, totalAssets, iterations, draws) == Failure(NoAssets) <==> |r.mu| == 0
    ensures |r.mu| > 0 && Trials(iterations, |r.mu|) == 0 ==> OptimizeResult(r, rf, totalAssets, iterations, draws) == Failure(NoValidAllocation)
    ensures |r.mu| > 0 && Trials(iterations, |r.mu|) > 0 && rf.Finite? ==> OptimizeResult(r, rf, totalAssets, iterations, draws).Success?
  {
    if |r.mu| > 0 && Trials(iterations, |r.mu|) > 0 && rf.Finite? {
      var samples := Samples(draws, Trials(iterations, |r.mu|), r, rf);
      BestIsMaximum(samples);
      assert samples[0].sharpe.Finite?;
    }
  }

  /** The result's Sharpe ratio is the largest numeric one among the samples, and its weights are
      those of the first sample reaching it, in percent. */
  lemma OptimizeMaximises(r: Calc.CalculationResult, rf: Float, totalAssets: real, iterations: int, draws: seq<seq<real>>)
    requires WellShaped(r) && AreDraws(draws, |r.mu|) && Trials(iterations, |r.mu|) <= |draws|
    requires OptimizeResult(r, rf, totalAssets, iterations, draws).Success?
    ensures var a := OptimizeResult(r, rf, totalAssets, iterations, draws).value;
            var samples := Samples(draws, Trials(iterations, |r.mu|), r, rf);
            (forall k :: 0 <= k < |samples| && samples[k].sharpe.Finite? ==> samples[k].sharpe.value <= a.sharpe) &&
            exists k :: 0 <= k < |samples| && samples[k].sharpe == Finite(a.sharpe) &&
              a.weights == Percentages(samples[k].weights) &&
              forall i :: 0 <= i < k ==> samples[i].sharpe.NaN? || samples[i].sharpe.value < a.sharpe
  {
    var samples := Samples(draws, Trials(iterations, |r.mu|), r, rf);
    BestIsMaximum(samples);
    BestIsFirst(samples);
  }

  /** With every volatility 0 a sample has risk 0 and hence a Sharpe ratio of 0. */
  lemma ZeroVolatilitySample(draw: seq<real>, r: Calc.CalculationResult, rf: Float)
    requires WellShaped(r) && |r.mu| > 0 && IsDraw(draw, |r.mu|)
    requires forall i :: 0 <= i < |r.sigma| ==> r.sigma[i] == Finite(0.0)
    ensures SampleOf(draw, r, rf).sharpe == Finite(0.0)
  {
    NormalizeOnSimplex(draw);
    var w := Normalize(draw);
    CovarianceOfZeroSigma(Values(r.sigma), r.corr);
    QuadFormZero(w, Covariance(Values(r.sigma), r.corr), |w|);
  }

  /** With every volatility 0 each sample has risk 0 and Sharpe 0, so the first sample wins the
      tie and the weights are those of the first draw. */
  lemma ZeroVolatilityPicksFirst(r: Calc.CalculationResult, rf: Float, totalAssets: real, iterations: int, draws: seq<seq<real>>)
    requires WellShaped(r) && AreDraws(draws, |r.mu|) && Trials(iterations, |r.mu|) <= |draws|
    requires |r.mu| > 0 && Trials(iterations, |r.mu|) > 0
    requires forall i :: 0 <= i < |r.sigma| ==> r.sigma[i] == Finite(0.0)
    ensures OptimizeResult(r, rf, totalAssets, iterations, draws).Success?
    ensures OptimizeResult(r, rf, totalAssets, iterations, draws).value.sharpe == 0.0
    ensures OptimizeResult(r, rf, totalAssets, iterations, draws).value.weights == Percentages(Normalize(draws[0]))
  {
    var n := |r.mu|;
    var samples := Samples(draws, Trials(iterations, n), r, rf);
    forall k | 0 <= k < |samples| ensures samples[k].sharpe == Finite(0.0) {
      ZeroVolatilitySample(draws[k], r, rf);
    }
    BestIsMaximum(samples);
    BestIsFirst(samples);
    var k :| 0 <= k < |samples| && samples[k].weights == BestOf(samples).value.weights &&
             samples[k].sharpe == Finite(BestOf(samples).value.sharpe) &&
             forall i :: 0 <= i < k ==> samples[i].sharpe.NaN? || samples[i].sharpe.value < BestOf(samples).value.sharpe;
    assert !(samples[0].sharpe.NaN? || samples[0].sharpe.value < BestOf(samples).value.sharpe);
  }

  /** `portVariance += w[i] * w[j] * cov[i][j]` over two nested loops. */
  method PortfolioVariance(w: seq<real>, cov: seq<seq<real>>) returns (variance: real)
    requires IsSquare(cov, |w|)
    ensures variance == QuadForm(w, cov)
  {
    var n := |w|;
    variance := 0.0;
    for i := 0 to n
      invariant variance == QuadRows(w, cov, i)
    {
      for j := 0 to n
        invariant variance == QuadRows(w, cov, i) + RowTerms(w, cov, i, j)
      {
        variance := variance + w[i] * w[j] * cov[i][j];
      }
    }
  }

  /** One iteration of the sampling loop: normalise the draw, then compute the return, the
      variance through the nested loops, the risk and the Sharpe ratio. */
  method DrawSample(draw: seq<real>, r: Calc.CalculationResult, rf: Float, finite: bool, cov: seq<seq<real>>)
    returns (sample: Sample)
    requires WellShaped(r) && |r.mu| > 0 && IsDraw(draw, |r.mu|)
    requires finite == AllFinite(r.sigma) && cov == Covariance(Values(r.sigma), r.corr)
    ensures sample == SampleOf(draw, r, rf)
  {
    NormalizeOnSimplex(draw);
    var sum := Sum(draw);
    var randomWeights := DivideAll(draw, sum);
    var portReturn := Dot(randomWeights, r.mu);
    var portVariance: Float := NaN;
    if finite {
      var v := PortfolioVariance(randomWeights, cov);
      portVariance := Finite(v);
    }
    sample := Sample(randomWeights, SharpeOf(portReturn, rf, RiskOf(portVariance)));
  }

  /** The lines after the loop: amounts, percentages, and return and risk recomputed for the
      winning weights. */
  method Summary(p: Pick, r: Calc.CalculationResult, totalAssets: real, finite: bool, cov: seq<seq<real>>)
    returns (a: Allocation)
    requires WellShaped(r) && |p.weights| == |r.mu|
    requires finite == AllFinite(r.sigma) && cov == Covariance(Values(r.sigma), r.corr)
    ensures a == Summarize(p, r, totalAssets)
  {
    var amounts := Amounts(p.weights, totalAssets);
    var portfolioReturn := Dot(p.weights, r.mu);
    var portfolioVariance: Float := NaN;
    if finite {
      var v := PortfolioVariance(p.weights, cov);
      portfolioVariance := Finite(v);
    }
    a := Allocation(Percentages(p.weights), amounts, p.sharpe, portfolioReturn, RiskOf(portfolioVariance));
  }

  /** The sampling loop: one sample per row of draws, keeping the first one whose Sharpe ratio beats
      every earlier one. */
  method Scan(r: Calc.CalculationResult, rf: Float, iterations: int, draws: seq<seq<real>>, finite: bool, cov: seq<seq<real>>)
    returns (best: Option<Pick>)
    requires WellShaped(r) && |r.mu| > 0 && AreDraws(draws, |r.mu|) && Trials(iterations, |r.mu|) <= |draws|
    requires finite == AllFinite(r.sigma) && cov == Covariance(Values(r.sigma), r.corr)
    ensures best == BestOf(Samples(draws, Trials(iterations, |r.mu|), r, rf))
    ensures best.Some? ==> |best.value.weights| == |r.mu|
  {
    var n := |r.mu|;
    var dynamicIterations := DynamicIterations(iterations, n);
    best := None;
    var iter := 0;
    while iter < dynamicIterations
      invariant 0 <= iter <= Trials(iterations, n)
      invariant best == BestOf(Samples(draws, iter, r, rf))
      invariant best.Some? ==> |best.value.weights| == n
    {
      var sample := DrawSample(draws[iter], r, rf, finite, cov);
      SamplesGrow(draws, iter, r, rf);
      BestOfStep(Samples(draws, iter, r, rf), sample);
      if sample.sharpe.Finite? && (best.None? || sample.sharpe.value > best.value.sharpe) {
        best := Some(Pick(sample.weights, sample.sharpe.value));
      }
      iter := iter + 1;
    }
    assert iter == Trials(iterations, n);
  }

  /**
   * optimize: the sampling loop keeps the first sample with the highest Sharpe ratio, then
   * converts its weights to amounts and percentages and recomputes return and risk for them.
   * A NaN volatility makes every variance NaN; that case is decided once, before the loop.
   */
  method Optimize(r: Calc.CalculationResult, rf: Float, totalAssets: real, iterations: int, draws: seq<seq<real>>)
    returns (res: Result<Allocation, AllocError>)
    requires WellShaped(r) && AreDraws(draws, |r.mu|) && Trials(iterations, |r.mu|) <= |draws|
    ensures res == OptimizeResult(r, rf, totalAssets, iterations, draws)
  {
    var n := |r.mu|;
    if n == 0 {
      return Failure(NoAssets);
    }
    var finite := AllFinite(r.sigma);
    var cov := Covariance(Values(r.sigma), r.corr);
    var best := Scan(r, rf, iterations, draws, finite, cov);
    if best.None? {
      return Failure(NoValidAllocation);
    }
    var allocation := Summary(best.value, r, totalAssets, finite, cov);
    res := Success(allocation);
  }

  /** The `reduce` that keys an array by the request's symbols: position i goes to symbols[i], a
      later duplicate overwrites an earlier one, and a position past the array's end is undefined. */
  function KeyBySymbols<V>(symbols: seq<string>, values: seq<V>): Record<Option<V>> {
    Assign(symbols, seq(|symbols|, i requires 0 <= i < |symbols| => if i < |values| then Some(values[i]) else None))
  }

  /** With distinct symbols, one per asset, symbol i holds value i and nothing else is keyed. */
  lemma KeyBySymbolsDistinct<V>(symbols: seq<string>, values: seq<V>, i: nat, k: string)
    requires |symbols| == |values| && i < |symbols|
    requires forall a, b :: 0 <= a < b < |symbols| ==> symbols[a] != symbols[b]
    ensures Get(KeyBySymbols(symbols, values), symbols[i]) == Some(Some(values[i]))
    ensures k !in symbols ==> Get(KeyBySymbols(symbols, values), k) == None
    ensures DistinctKeys(KeyBySymbols(symbols, values))
  {
    var vals := seq(|symbols|, j requires 0 <= j < |symbols| => if j < |values| then Some(values[j]) else None);
    AssignSpec(symbols, vals, symbols[i]);
    AssignSpec(symbols, vals, k);
    var last := LastIndex(symbols, symbols[i]);
    assert last == i;
  }

  /** Each requested symbol holds the value at its last position, or undefined when that position
      is past the array's end (a symbol requested twice collapses to one price series, so there
      are fewer values than symbols); an unrequested symbol is not keyed. */
  lemma KeyBySymbolsLastWins<V>(symbols: seq<string>, values: seq<V>, k: string)
    ensures k in symbols ==>
              var last := LastIndex(symbols, k);
              Get(KeyBySymbols(symbols, values), k) == Some(if last < |values| then Some(values[last]) else None)
    ensures k !in symbols ==> Get(KeyBySymbols(symbols, values), k) == None
    ensures DistinctKeys(KeyBySymbols(symbols, values))
  {
    var vals := seq(|symbols|, j requires 0 <= j < |symbols| => if j < |values| then Some(values[j]) else None);
    AssignSpec(symbols, vals, k);
  }

  /** isValidParams: the data fetcher's symbol, period and interval checks, and a whole-number
      total (of any sign). */
  predicate IsValidParams(params: PortfolioMetricsParams) {
    Fetcher.IsValidSymbols(params.symbols) && Fetcher.IsValidPeriod(params.period) &&
    Fetcher.IsValidInterval(params.interval) && IsInteger(params.totalAssets)
  }

  /** The total need only be a whole number: 0 and negative totals pass, and a fractional total
      fails even with valid symbols, period and interval. */
  lemma ValidParamsTotal(symbols: seq<string>, period: string, interval: string, t: int)
    requires Fetcher.IsValidSymbols(symbols) && Fetcher.IsValidPeriod(period) && Fetcher.IsValidInterval(interval)
    ensures IsValidParams(PortfolioMetricsParams(symbols, period, interval, t as real))
    ensures !IsValidParams(PortfolioMetricsParams(symbols, period, interval, t as real + 0.5))
  {
    assert (t as real + 0.5).Floor == t;
  }

  /** allocate: optimise with 10000 iterations, then key weights and amounts by symbol. */
  method Allocate(params: PortfolioMetricsParams, metrics: Calc.CalculationResult, rfMeta: RfMeta, draws: seq<seq<real>>)
    returns (res: Result<KeyedAllocation, AllocError>)
    requires WellShaped(metrics) && AreDraws(draws, |metrics.mu|) && Trials(DefaultIterations, |metrics.mu|) <= |draws|
    ensures var opt := OptimizeResult(metrics, rfMeta.rf, params.totalAssets, DefaultIterations, draws);
            match opt
            case Failure(e) => res == Failure(e)
            case Success(a) =>
              res == Success(KeyedAllocation(KeyBySymbols(params.symbols, a.weights), KeyBySymbols(params.symbols, a.amounts),
                                             a.sharpe, a.portfolioReturn, a.portfolioRisk))
  {
    var opt := Optimize(metrics, rfMeta.rf, params.totalAssets, DefaultIterations, draws);
    match opt {
      case Failure(e) =>
        res := Failure(e);
      case Success(a) =>
        res := Success(KeyedAllocation(KeyBySymbols(params.symbols, a.weights), KeyBySymbols(params.symbols, a.amounts),
                                       a.sharpe, a.portfolioReturn, a.portfolioRisk));
    }
  }

  /** `allocate` always runs 10000 samples, whatever the number of assets. */
  lemma AllocateSampleCount(n: nat)
    ensures Trials(DefaultIterations, n) == 10000
  {
  }
}
