/**
 * `filter((p) => p !== null)` over an array of nullable values: the values that are
 * present, in their original order.
 */
module NullFilter {
  import opened Wrappers

  function Present<T>(s: seq<Option<T>>): seq<T> {
    if s == [] then []
    else
      var k := |s| - 1;
      Present(s[..k]) + (if s[k].Some? then [s[k].value] else [])
  }

  /** How many entries are not null. */
  function PresentCount<T>(s: seq<Option<T>>): nat {
    if s == [] then 0 else PresentCount(s[..|s| - 1]) + (if s[|s| - 1].Some? then 1 else 0)
  }

  /** The filtered array has one entry per non-null entry. */
  lemma {:induction false} PresentLength<T>(s: seq<Option<T>>)
    ensures |Present(s)| == PresentCount(s) <= |s|
  {
    if s != [] {
      PresentLength(s[..|s| - 1]);
    }
  }

  /** The filtered array holds exactly the values of the non-null entries. */
  lemma {:induction false} PresentMembers<T>(s: seq<Option<T>>, x: T)
    ensures x in Present(s) <==> Some(x) in s
  {
    if s != [] {
      var k := |s| - 1;
      PresentMembers(s[..k], x);
      assert s == s[..k] + [s[k]];
    }
  }

  /** Without nulls, every value is kept in place. */
  lemma {:induction false} PresentWithoutNulls<T>(s: seq<Option<T>>)
    requires forall i :: 0 <= i < |s| ==> s[i].Some?
    ensures |Present(s)| == |s|
    ensures forall i :: 0 <= i < |s| ==> Present(s)[i] == s[i].value
  {
    if s != [] {
      PresentWithoutNulls(s[..|s| - 1]);
    }
  }

  /** Filtering distributes over concatenation, so order is preserved. */
  lemma {:induction false} PresentAppend<T>(a: seq<Option<T>>, b: seq<Option<T>>)
    ensures Present(a + b) == Present(a) + Present(b)
    decreases |b|
  {
    if b == [] {
      assert a + b == a;
    } else {
      var k := |b| - 1;
      assert (a + b)[..|a + b| - 1] == a + b[..k];
      PresentAppend(a, b[..k]);
    }
  }
}
