/**
 * Arithmetic over the reals as the numerical code uses it: left-to-right sums
 * (what `reduce((a, b) => a + b, 0)` computes), means, sums of squared
 * deviations, dot products and the quadratic form `wᵀ·M·w`, plus the three
 * platform functions the code calls. `Math.sqrt` and `Math.pow` are left
 * uninterpreted apart from the facts stated here; `Math.round` is modelled
 * exactly on the reals.
 */
module Numeric {

  /** A JavaScript number that may have become NaN (as `0 / 0` does). */
  datatype Float = Finite(value: real) | NaN

  type NonNegReal = r: real | r >= 0.0 witness 0.0

  /** `Math.sqrt` on positive arguments: some non-negative number; its digits are not modelled. */
  const SqrtOfPositive: real -> NonNegReal

  /** `Math.sqrt`. Negative arguments give NaN in JavaScript; here they give 0, which takes the
      same branch of every `> 0` and `=== 0` test that follows a square root in the source. */
  function Sqrt(x: real): (r: real)
    ensures r >= 0.0
    ensures x <= 0.0 ==> r == 0.0
  {
    if x <= 0.0 then 0.0 else SqrtOfPositive(x)
  }

  /** `Math.pow` with a non-integral exponent: uninterpreted. */
  const Pow: (real, real) -> real

  /** `Math.round`: the nearest integer, halves rounded up. */
  function Round(x: real): (r: int)
    ensures x - 0.5 < r as real <= x + 0.5
  {
    (x + 0.5).Floor
  }

  /** A positive part of a positive whole is a fraction in (0, 1]. */
  lemma FractionBounds(x: real, s: real)
    requires 0.0 < x <= s
    ensures 0.0 < x / s <= 1.0
  {
    assert (x / s) * s == x;
  }

  /** A fraction in [0, 1] of a non-negative amount lies between 0 and that amount. */
  lemma ScaledBounds(w: real, t: real)
    requires 0.0 <= w <= 1.0 && t >= 0.0
    ensures 0.0 <= w * t <= t
  {
    assert (1.0 - w) * t >= 0.0;
  }

  /** Rounding preserves order. */
  lemma RoundMonotone(x: real, y: real)
    requires x <= y
    ensures Round(x) <= Round(y)
  {
    assert Round(x) as real <= x + 0.5 <= y + 0.5 < Round(y) as real + 1.0;
  }

  /** `Number.isInteger` on a finite number. */
  predicate IsInteger(x: real) {
    x.Floor as real == x
  }

  function Min(a: int, b: int): int {
    if a <= b then a else b
  }

  /** The left-to-right sum of a sequence. */
  function Sum(s: seq<real>): real {
    if s == [] then 0.0 else Sum(s[..|s| - 1]) + s[|s| - 1]
  }

  /** The arithmetic mean. */
  function Mean(s: seq<real>): real
    requires |s| > 0
  {
    Sum(s) / |s| as real
  }

  /** Σ (x − m)² over the sequence. */
  function SumSqDev(s: seq<real>, m: real): (r: real)
    ensures r >= 0.0
  {
    if s == [] then 0.0
    else
      var d := s[|s| - 1] - m;
      assert d * d >= 0.0 by { if d < 0.0 { assert d * d == (-d) * (-d); } }
      SumSqDev(s[..|s| - 1], m) + d * d
  }

  /** Σ (aₖ − ma)·(bₖ − mb) over two sequences of the same length. */
  function CrossDev(a: seq<real>, b: seq<real>, ma: real, mb: real): real
    requires |a| == |b|
  {
    if a == [] then 0.0
    else CrossDev(a[..|a| - 1], b[..|b| - 1], ma, mb) + (a[|a| - 1] - ma) * (b[|b| - 1] - mb)
  }

  /** Σ wᵢ·vᵢ. */
  function Dot(w: seq<real>, v: seq<real>): real
    requires |w| == |v|
  {
    if w == [] then 0.0 else Dot(w[..|w| - 1], v[..|v| - 1]) + w[|w| - 1] * v[|v| - 1]
  }

  /** A square matrix of side n, as an array of rows. */
  predicate IsSquare(m: seq<seq<real>>, n: nat) {
    |m| == n && forall i :: 0 <= i < n ==> |m[i]| == n
  }

  predicate IsSymmetric(m: seq<seq<real>>)
    requires IsSquare(m, |m|)
  {
    forall i, j :: 0 <= i < |m| && 0 <= j < |m| ==> m[i][j] == m[j][i]
  }

  /** Σ_{j<k} wᵢ·wⱼ·M[i][j]: row i of the quadratic form, up to column k. */
  function RowTerms(w: seq<real>, m: seq<seq<real>>, i: nat, k: nat): real
    requires IsSquare(m, |w|) && i < |w| && k <= |w|
  {
    if k == 0 then 0.0 else RowTerms(w, m, i, k - 1) + w[i] * w[k - 1] * m[i][k - 1]
  }

  /** Σ_{i<k} Σ_j wᵢ·wⱼ·M[i][j]: the first k rows of the quadratic form. */
  function QuadRows(w: seq<real>, m: seq<seq<real>>, k: nat): real
    requires IsSquare(m, |w|) && k <= |w|
  {
    if k == 0 then 0.0 else QuadRows(w, m, k - 1) + RowTerms(w, m, k - 1, |w|)
  }

  /** wᵀ·M·w, summed row by row as two nested loops do. */
  function QuadForm(w: seq<real>, m: seq<seq<real>>): real
    requires IsSquare(m, |w|)
  {
    QuadRows(w, m, |w|)
  }

  /** Every entry of the sequence divided by c. */
  function DivideAll(s: seq<real>, c: real): (r: seq<real>)
    requires c != 0.0
    ensures |r| == |s|
    ensures forall i :: 0 <= i < |s| ==> r[i] * c == s[i]
  {
    seq(|s|, i requires 0 <= i < |s| => s[i] / c)
  }

  /** Dividing every term by c divides the sum by c. */
  lemma {:induction false} SumDivideAll(s: seq<real>, c: real)
    requires c != 0.0
    ensures Sum(DivideAll(s, c)) == Sum(s) / c
  {
    if s != [] {
      var d := DivideAll(s, c);
      assert d[..|d| - 1] == DivideAll(s[..|s| - 1], c);
      SumDivideAll(s[..|s| - 1], c);
    }
  }

  /** A sum of non-negative terms is non-negative, and positive when one term is. */
  lemma {:induction false} SumNonNegative(s: seq<real>)
    requires forall i :: 0 <= i < |s| ==> s[i] >= 0.0
    ensures Sum(s) >= 0.0
    ensures (exists i :: 0 <= i < |s| && s[i] > 0.0) ==> Sum(s) > 0.0
  {
    if s != [] {
      SumNonNegative(s[..|s| - 1]);
      if exists i :: 0 <= i < |s| && s[i] > 0.0 {
        var i :| 0 <= i < |s| && s[i] > 0.0;
        if i < |s| - 1 {
          assert s[..|s| - 1][i] > 0.0;
        }
      }
    }
  }

  /** With non-negative terms, no term exceeds the sum. */
  lemma {:induction false} TermAtMostSum(s: seq<real>, i: nat)
    requires forall k :: 0 <= k < |s| ==> s[k] >= 0.0
    requires i < |s|
    ensures s[i] <= Sum(s)
  {
    SumNonNegative(s[..|s| - 1]);
    if i < |s| - 1 {
      TermAtMostSum(s[..|s| - 1], i);
    }
  }

  /** The sum of n copies of c is n·c. */
  lemma {:induction false} SumConstant(s: seq<real>, c: real)
    requires forall i :: 0 <= i < |s| ==> s[i] == c
    ensures Sum(s) == |s| as real * c
  {
    if s != [] {
      SumConstant(s[..|s| - 1], c);
    }
  }

  /** The mean of a constant sequence is that constant. */
  lemma MeanConstant(s: seq<real>, c: real)
    requires |s| > 0
    requires forall i :: 0 <= i < |s| ==> s[i] == c
    ensures Mean(s) == c
  {
    SumConstant(s, c);
  }

  /** A constant sequence has no deviation from its own value. */
  lemma {:induction false} SumSqDevConstant(s: seq<real>, c: real)
    requires forall i :: 0 <= i < |s| ==> s[i] == c
    ensures SumSqDev(s, c) == 0.0
  {
    if s != [] {
      SumSqDevConstant(s[..|s| - 1], c);
    }
  }

  /** The cross-deviation sum does not depend on the order of its two arguments. */
  lemma {:induction false} CrossDevSymmetric(a: seq<real>, b: seq<real>, ma: real, mb: real)
    requires |a| == |b|
    ensures CrossDev(a, b, ma, mb) == CrossDev(b, a, mb, ma)
  {
    if a != [] {
      CrossDevSymmetric(a[..|a| - 1], b[..|b| - 1], ma, mb);
      var x, y := a[|a| - 1] - ma, b[|b| - 1] - mb;
      assert x * y == y * x;
    }
  }

  /** A row of a quadratic form over an all-zero matrix is zero. */
  lemma {:induction false} RowTermsZero(w: seq<real>, m: seq<seq<real>>, i: nat, k: nat)
    requires IsSquare(m, |w|) && i < |w| && k <= |w|
    requires forall a, b :: 0 <= a < |w| && 0 <= b < |w| ==> m[a][b] == 0.0
    ensures RowTerms(w, m, i, k) == 0.0
  {
    if k > 0 {
      RowTermsZero(w, m, i, k - 1);
    }
  }

  /** The quadratic form of an all-zero matrix is zero, whatever the weights. */
  lemma {:induction false} QuadFormZero(w: seq<real>, m: seq<seq<real>>, k: nat)
    requires IsSquare(m, |w|) && k <= |w|
    requires forall a, b :: 0 <= a < |w| && 0 <= b < |w| ==> m[a][b] == 0.0
    ensures QuadRows(w, m, k) == 0.0
  {
    if k > 0 {
      QuadFormZero(w, m, k - 1);
      RowTermsZero(w, m, k - 1, |w|);
    }
  }

  /** A one-entry dot product is the product of the two entries. */
  lemma DotSingle(w: seq<real>, v: seq<real>)
    requires |w| == |v| == 1
    ensures Dot(w, v) == w[0] * v[0]
  {
    assert w[..0] == [];
  }
}
