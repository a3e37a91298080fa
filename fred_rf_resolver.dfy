/**
 * The risk-free rate: the observation-selection and rate-conversion step of
 * `FredRFDataResolver.resolve`. The FRED response lists the 3-month Treasury
 * yield newest first; the first observation whose value is not the missing-value
 * marker `"."` is taken, and its percentage yield becomes a fraction.
 */
module FredRfDataResolver {
  import opened Wrappers
  import opened Numeric
  import opened JsText
  import opened Types

  /** An observation's value after schema validation: a number, or the marker `"."`. */
  datatype ObsValue = Number(percent: real) | Dot

  /** `value` is optional in the schema, so it may be absent (`undefined`). */
  datatype Observation = Observation(date: string, value: Option<ObsValue>)

  /** The validated response; `observations` may be absent. */
  datatype FredResponse = FredResponse(observations: Option<seq<Observation>>)

  datatype RfError = NoValidObservation

  /** The schema's `.default([])`. */
  function Observations(resp: FredResponse): (obs: seq<Observation>)
    ensures resp.observations.None? ==> obs == []
    ensures resp.observations.Some? ==> obs == resp.observations.value
  {
    resp.observations.GetOr([])
  }

  /** `o.value !== "."`: an absent value passes this test too. */
  predicate Usable(o: Observation) {
    o.value != Some(Dot)
  }

  /** The index `find` stops at: the first usable observation. */
  function FirstUsable(obs: seq<Observation>): (r: Option<nat>)
    ensures r.Some? ==> r.value < |obs| && Usable(obs[r.value]) && forall j :: 0 <= j < r.value ==> !Usable(obs[j])
    ensures r.None? ==> forall j :: 0 <= j < |obs| ==> !Usable(obs[j])
  {
    if obs == [] then None
    else if Usable(obs[0]) then Some(0)
    else match FirstUsable(obs[1..])
      case None => None
      case Some(i) => Some(i + 1)
  }

  /** The rate metadata of a chosen observation. A number y gives rf = y / 100 and the text of y
      followed by `%`; an absent value gives `undefined / 100`, which is NaN, and the text
      `undefined%`. */
  function RateOf(o: Observation): (m: RfMeta)
    requires Usable(o)
    ensures m.date == o.date
    ensures o.value.Some? ==> m.rf.Finite? && m.rf.value * 100.0 == o.value.value.percent &&
                              m.value == NumberString(o.value.value.percent) + "%"
    ensures o.value.None? ==> m.rf.NaN? && m.value == "undefined%"
  {
    match o.value
    case None => RfMeta(NaN, "undefined%", o.date)
    case Some(v) => RfMeta(Finite(v.percent / 100.0), NumberString(v.percent) + "%", o.date)
  }

  /** Lines 65-76: choose the first usable observation and convert it, or fail. */
  function Resolve(resp: FredResponse): (r: Result<RfMeta, RfError>)
    ensures r.Failure? <==> forall j :: 0 <= j < |Observations(resp)| ==> !Usable(Observations(resp)[j])
    ensures r.Success? ==> exists i :: 0 <= i < |Observations(resp)| && Usable(Observations(resp)[i]) &&
                             (forall j :: 0 <= j < i ==> !Usable(Observations(resp)[j])) &&
                             r.value == RateOf(Observations(resp)[i])
  {
    var obs := Observations(resp);
    match FirstUsable(obs)
    case None => Failure(NoValidObservation)
    case Some(i) => Success(RateOf(obs[i]))
  }

  /** A response without observations fails. */
  lemma ResolveMissing()
    ensures Resolve(FredResponse(None)) == Failure(NoValidObservation)
    ensures Resolve(FredResponse(Some([]))) == Failure(NoValidObservation)
  {
  }

  /** Leading `"."` observations only shift the index `find` stops at. */
  lemma {:induction false} FirstUsableSkipsDots(dots: seq<Observation>, rest: seq<Observation>)
    requires forall j :: 0 <= j < |dots| ==> dots[j].value == Some(Dot)
    ensures FirstUsable(dots + rest).None? <==> FirstUsable(rest).None?
    ensures FirstUsable(rest).Some? ==> FirstUsable(dots + rest) == Some(FirstUsable(rest).value + |dots|)
  {
    if dots != [] {
      FirstUsableSkipsDots(dots[1..], rest);
      assert (dots + rest)[1..] == dots[1..] + rest;
      assert !Usable((dots + rest)[0]);
    } else {
      assert dots + rest == rest;
    }
  }

  /** Leading `"."` observations are skipped: they do not change the outcome. */
  lemma ResolveSkipsDots(dots: seq<Observation>, rest: seq<Observation>)
    requires forall j :: 0 <= j < |dots| ==> dots[j].value == Some(Dot)
    ensures Resolve(FredResponse(Some(dots + rest))) == Resolve(FredResponse(Some(rest)))
  {
    FirstUsableSkipsDots(dots, rest);
    if FirstUsable(rest).Some? {
      var i := FirstUsable(rest).value;
      assert (dots + rest)[i + |dots|] == rest[i];
    }
  }

  /** A whole-number yield quoted as `y%` renders as its digits followed by `%`, and reading the
      digits back gives y. */
  lemma WholeYieldText(date: string, y: real)
    requires y.Floor as real == y && 0.0 <= y < 1e21
    ensures var m := RateOf(Observation(date, Some(Number(y))));
            |m.value| > 1 && m.value[|m.value| - 1] == '%' &&
            IsDigits(m.value[..|m.value| - 1]) && DigitsValue(m.value[..|m.value| - 1]) as real == y
  {
    var m := RateOf(Observation(date, Some(Number(y))));
    var t := NumberString(y);
    assert m.value == t + "%";
    assert m.value[..|m.value| - 1] == t;
  }
}
