/**
 * The two request grammars both the server and the client check with the same regular
 * expressions: a period `^(?:\d+(y|mo|d)|ytd|max)$` and an interval `^\d+(m|h|d|wk|mo)$`.
 * Each language is stated as the regular expression reads (some split into a non-empty run of
 * digits and a unit), and the capture `^(\d+)(y|mo|d)$` used to interpret a period is a
 * scanner proved to agree with it.
 */
module Grammar {
  import opened Wrappers
  import opened JsText

  /** `y|mo|d`. */
  predicate IsPeriodUnit(u: string) {
    u == "y" || u == "mo" || u == "d"
  }

  /** `m|h|d|wk|mo`. */
  predicate IsIntervalUnit(u: string) {
    u == "m" || u == "h" || u == "d" || u == "wk" || u == "mo"
  }

  /** `^\d+(y|mo|d)$`. */
  predicate DynamicPeriodText(s: string) {
    exists k :: 0 < k < |s| && IsDigits(s[..k]) && IsPeriodUnit(s[k..])
  }

  /** `^(?:\d+(y|mo|d)|ytd|max)$`. */
  predicate PeriodText(s: string) {
    DynamicPeriodText(s) || s == "ytd" || s == "max"
  }

  /** `^\d+(m|h|d|wk|mo)$`. */
  predicate IntervalText(s: string) {
    exists k :: 0 < k < |s| && IsDigits(s[..k]) && IsIntervalUnit(s[k..])
  }

  /** The length of the run of digits that starts the string. */
  function LeadingDigits(s: string): (k: nat)
    ensures k <= |s|
    ensures forall i :: 0 <= i < k ==> IsDigit(s[i])
    ensures k < |s| ==> !IsDigit(s[k])
  {
    if s != [] && IsDigit(s[0]) then 1 + LeadingDigits(s[1..]) else 0
  }

  /** A run of digits followed by a non-digit ends where the leading run does: `\d+` can split a
      string only one way when the unit starts with a letter. */
  lemma {:induction false} DigitSplitUnique(s: string, k: nat)
    requires k < |s| && forall i :: 0 <= i < k ==> IsDigit(s[i])
    requires !IsDigit(s[k])
    ensures LeadingDigits(s) == k
  {
    if k > 0 {
      DigitSplitUnique(s[1..], k - 1);
    }
  }

  /** `period.match(/^(\d+)(y|mo|d)$/)`: the two captured groups, or no match. */
  function MatchDynamicPeriod(s: string): (m: Option<(string, string)>)
    ensures m.Some? <==> DynamicPeriodText(s)
    ensures m.Some? ==> s == m.value.0 + m.value.1 && IsDigits(m.value.0) && IsPeriodUnit(m.value.1)
  {
    var k := LeadingDigits(s);
    if 0 < k < |s| && IsPeriodUnit(s[k..]) then
      assert s == s[..k] + s[k..];
      Some((s[..k], s[k..]))
    else
      assert !DynamicPeriodText(s) by {
        if j :| 0 < j < |s| && IsDigits(s[..j]) && IsPeriodUnit(s[j..]) {
          assert s[..j][j - 1] == s[j - 1];
          DigitSplitUnique(s, j);
        }
      }
      None
  }

  /** The same scan for an interval: the digits and the unit, or no match. */
  function MatchInterval(s: string): (m: Option<(string, string)>)
    ensures m.Some? <==> IntervalText(s)
    ensures m.Some? ==> s == m.value.0 + m.value.1 && IsDigits(m.value.0) && IsIntervalUnit(m.value.1)
  {
    var k := LeadingDigits(s);
    if 0 < k < |s| && IsIntervalUnit(s[k..]) then
      assert s == s[..k] + s[k..];
      Some((s[..k], s[k..]))
    else
      assert !IntervalText(s) by {
        if j :| 0 < j < |s| && IsDigits(s[..j]) && IsIntervalUnit(s[j..]) {
          assert s[..j][j - 1] == s[j - 1];
          DigitSplitUnique(s, j);
        }
      }
      None
  }

  /** The digits of a whole number followed by a unit form a period, and the capture gives back
      the digits and the unit. */
  lemma PeriodRoundTrip(n: nat, u: string)
    requires IsPeriodUnit(u)
    ensures PeriodText(NatText(n) + u)
    ensures MatchDynamicPeriod(NatText(n) + u) == Some((NatText(n), u))
  {
    var s := NatText(n) + u;
    var k := |NatText(n)|;
    assert s[..k] == NatText(n) && s[k..] == u;
    assert !IsDigit(u[0]);
    DigitSplitUnique(s, k);
  }

  /** The digits of a whole number followed by an interval unit form an interval, split back into
      the digits and the unit. */
  lemma IntervalRoundTrip(n: nat, u: string)
    requires IsIntervalUnit(u)
    ensures IntervalText(NatText(n) + u)
    ensures MatchInterval(NatText(n) + u) == Some((NatText(n), u))
  {
    var s := NatText(n) + u;
    var k := |NatText(n)|;
    assert s[..k] == NatText(n) && s[k..] == u;
    assert !IsDigit(u[0]);
    DigitSplitUnique(s, k);
  }

  /** A bare unit, a bare number, a unit the grammar does not list and letters in the wrong case
      are all rejected. */
  lemma Rejected()
    ensures !PeriodText("y") && !PeriodText("12") && !PeriodText("1wk") && !PeriodText("1Y")
    ensures !IntervalText("d") && !IntervalText("30") && !IntervalText("1y") && !IntervalText("ytd")
  {
    RejectedPeriods();
    RejectedIntervals();
  }

  lemma RejectedPeriods()
    ensures !PeriodText("y") && !PeriodText("12") && !PeriodText("1wk") && !PeriodText("1Y")
  {
    assert MatchDynamicPeriod("y").None? && MatchDynamicPeriod("12").None?;
    assert MatchDynamicPeriod("1wk").None? && MatchDynamicPeriod("1Y").None?;
  }

  lemma RejectedIntervals()
    ensures !IntervalText("d") && !IntervalText("30") && !IntervalText("1y") && !IntervalText("ytd")
  {
    assert MatchInterval("d").None? && MatchInterval("30").None?;
    assert MatchInterval("1y").None? && MatchInterval("ytd").None?;
  }
}
