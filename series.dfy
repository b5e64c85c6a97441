/** Series input and the value domain: `set_series` (ico.js:120-141), `series_min_max`
    (ico.js:77-88), `adjust_min_max` (ico.js:62-75) and the `min`/`max` options of
    `process_options` (ico.js:165-168). */
module Series {
  import opened Wrappers
  import opened Numbers

  /** One sample of a series: a number, or a gap (`null`). */
  datatype Sample = Value(x: real) | Null

  /** What `Math.min`/`Math.max` see for a sample: a gap counts as 0, as `Number(null)` does. */
  function NumericValue(s: Sample): real
  {
    match s
    case Value(x) => x
    case Null => 0.0
  }

  /** The shapes a chart's `series` argument can take. `Missing` is any falsy value that is not a
      number (undefined, null, false, ''), which ico.js:110 replaces by `[[0]]`. `Flat` is an
      array whose first element is not an array (this includes the empty array), `Nested` one
      whose first element is. `Hash` lists the entries of a Prototype Hash in key order. */
  datatype SeriesInput =
    | Missing
    | Scalar(n: real)
    | Flat(values: seq<Sample>)
    | Nested(series: seq<seq<Sample>>)
    | Hash(entries: seq<(string, seq<Sample>)>)
    | Other

  /** The values of a hash in key order. */
  function HashValues(entries: seq<(string, seq<Sample>)>): (r: seq<seq<Sample>>)
    ensures |r| == |entries|
    ensures forall i :: 0 <= i < |entries| ==> r[i] == entries[i].1
  {
    if entries == [] then [] else [entries[0].1] + HashValues(entries[1..])
  }

  /** `this.series || [[0]]` followed by the type dispatch of `set_series`. */
  function NormalizeSeries(input: SeriesInput): Result<seq<seq<Sample>>>
  {
    match input
    case Missing => Ok([[Value(0.0)]])
    case Scalar(n) => Ok([[Value(n)]])
    case Flat(values) => Ok([values])
    case Nested(series) => if series == [] then Ok([[]]) else Ok(series)
    case Hash(entries) => Ok(HashValues(entries))
    case Other => Err("Wrong type for series")
  }

  /** `series.flatten()` for an array of arrays of samples. */
  function Flatten(series: seq<seq<Sample>>): (r: seq<Sample>)
    ensures |series| == 0 ==> r == []
  {
    if series == [] then [] else series[0] + Flatten(series[1..])
  }

  /** `series.pluck('length').max()`, and 0 for no series. */
  function DataSamples(series: seq<seq<Sample>>): (n: nat)
  {
    if series == [] then 0
    else
      var rest := DataSamples(series[1..]);
      if |series[0]| > rest then |series[0]| else rest
  }

  /** The smallest number among the samples (`Math.min.apply`). */
  function MinValue(values: seq<Sample>): (m: real)
    requires values != []
    ensures forall i :: 0 <= i < |values| ==> m <= NumericValue(values[i])
    ensures exists i :: 0 <= i < |values| && m == NumericValue(values[i])
  {
    if |values| == 1 then NumericValue(values[0])
    else
      var rest := MinValue(values[1..]);
      assert forall i :: 1 <= i < |values| ==> values[i] == values[1..][i - 1];
      if NumericValue(values[0]) < rest then NumericValue(values[0]) else rest
  }

  /** The largest number among the samples (`Math.max.apply`). */
  function MaxValue(values: seq<Sample>): (m: real)
    requires values != []
    ensures forall i :: 0 <= i < |values| ==> NumericValue(values[i]) <= m
    ensures exists i :: 0 <= i < |values| && m == NumericValue(values[i])
  {
    if |values| == 1 then NumericValue(values[0])
    else
      var rest := MaxValue(values[1..]);
      assert forall i :: 1 <= i < |values| ==> values[i] == values[1..][i - 1];
      if NumericValue(values[0]) > rest then NumericValue(values[0]) else rest
  }

  /** `Ico.adjust_min_max`: moves one bound to bring zero into view when the data is not too far
      from it, in the branch order of ico.js:64-73. */
  function AdjustMinMax(min: real, max: real): (real, real)
  {
    var range := max - min;
    if range < min then (min - range / 2.0, max)
    else if min > 0.0 then (0.0, max)
    else if range < -max then (min, max + range / 2.0)
    else if max < 0.0 then (min, 0.0)
    else (min, max)
  }

  /** `Ico.series_min_max`: the envelope of all samples, the lower bound rounded down and the
      upper bound rounded up to 2 significant digits, then anchored to zero unless told not to. */
  function SeriesMinMax(series: seq<seq<Sample>>, dontAdjust: bool): Result<(real, real)>
  {
    var values := Flatten(series);
    if values == [] then Err("Series must have at least one value")
    else
      var lo := SignificantDigitsRound(MinValue(values), 2, Floor);
      var hi := SignificantDigitsRound(MaxValue(values), 2, Ceil);
      if dontAdjust then Ok((lo, hi)) else Ok(AdjustMinMax(lo, hi))
  }

  /** The `min`/`max` options of ico.js:166-167 (`Math.min`/`Math.max` with the option). */
  function WidenDomain(min: real, max: real, optMin: Option<real>, optMax: Option<real>): (real, real)
  {
    var lo := if optMin.Some? && optMin.value < min then optMin.value else min;
    var hi := if optMax.Some? && optMax.value > max then optMax.value else max;
    (lo, hi)
  }

  // ---------------------------------------------------------------------------------------
  // Properties

  /** The samples of a flattened series list are the samples of its series, in order. */
  lemma {:induction false} FlattenMember(series: seq<seq<Sample>>, i: nat, j: nat)
    requires i < |series| && j < |series[i]|
    ensures series[i][j] in Flatten(series)
  {
    if i > 0 {
      FlattenMember(series[1..], i - 1, j);
      assert series[1..][i - 1] == series[i];
    }
  }

  lemma {:induction false} FlattenEmpty(series: seq<seq<Sample>>)
    ensures Flatten(series) == [] <==> forall i :: 0 <= i < |series| ==> series[i] == []
  {
    if series != [] {
      FlattenEmpty(series[1..]);
      assert forall i :: 1 <= i < |series| ==> series[i] == series[1..][i - 1];
    }
  }

  /** Normalisation always yields at least one series and keeps every given sample: a number
      becomes the one sample of the one series, a flat array the one series, a hash its values. */
  lemma NormalizeSeriesShape(input: SeriesInput)
    ensures NormalizeSeries(input).Err? <==> input.Other?
    ensures NormalizeSeries(input).Ok? && !input.Hash? ==> |NormalizeSeries(input).value| >= 1
    ensures input.Scalar? ==> NormalizeSeries(input).value == [[Value(input.n)]]
    ensures input.Flat? ==> Flatten(NormalizeSeries(input).value) == input.values
    ensures input.Nested? ==> Flatten(NormalizeSeries(input).value) == Flatten(input.series)
    ensures input.Hash? ==> forall i :: 0 <= i < |input.entries| ==>
      NormalizeSeries(input).value[i] == input.entries[i].1
  {
    if input.Flat? {
      assert [input.values][1..] == [];
      assert input.values + [] == input.values;
    }
  }

  /** `data_samples` is the length of the longest series. */
  lemma {:induction false} DataSamplesIsLongest(series: seq<seq<Sample>>)
    requires series != []
    ensures forall i :: 0 <= i < |series| ==> |series[i]| <= DataSamples(series)
    ensures exists i :: 0 <= i < |series| && |series[i]| == DataSamples(series)
  {
    if |series| > 1 {
      DataSamplesIsLongest(series[1..]);
      assert forall i :: 1 <= i < |series| ==> series[i] == series[1..][i - 1];
      var k :| 0 <= k < |series[1..]| && |series[1..][k]| == DataSamples(series[1..]);
      assert series[k + 1] == series[1..][k];
    }
  }

  /** `series_min_max` throws exactly when there is no sample at all. */
  lemma SeriesMinMaxEmpty(series: seq<seq<Sample>>, dontAdjust: bool)
    ensures SeriesMinMax(series, dontAdjust).Err? <==>
      forall i :: 0 <= i < |series| ==> series[i] == []
  {
    FlattenEmpty(series);
  }

  /** Rounding the lower bound down and the upper bound up keeps them ordered, flushed or not. */
  lemma RoundedBoundsOrdered(lo: real, hi: real, digits: int)
    requires lo <= hi && digits >= 1
    ensures SignificantDigitsRound(lo, digits, Floor) <= SignificantDigitsRound(hi, digits, Ceil)
  {
    hide Pow10, Exponent, Quantum;
    SignificantDigitsRoundFloor(lo, digits);
    SignificantDigitsRoundCeil(hi, digits);
    if lo != 0.0 && !Flushed(lo) {
      SignificantDigitsRoundShape(lo, digits, Floor);
    }
    if hi != 0.0 && !Flushed(hi) {
      SignificantDigitsRoundShape(hi, digits, Ceil);
    }
  }

  /** The unadjusted envelope of `series_min_max` holds every sample (a bound whose extreme is
      below 1e-14 in magnitude is flushed to 0 and may miss it), and its bounds are ordered. */
  lemma SeriesEnvelope(series: seq<seq<Sample>>)
    requires SeriesMinMax(series, true).Ok?
    ensures var r := SeriesMinMax(series, true).value;
      var values := Flatten(series);
      && r.0 <= r.1
      && (!Flushed(MinValue(values)) ==> forall i :: 0 <= i < |values| ==> r.0 <= NumericValue(values[i]))
      && (!Flushed(MaxValue(values)) ==> forall i :: 0 <= i < |values| ==> NumericValue(values[i]) <= r.1)
  {
    var values := Flatten(series);
    var lo, hi := MinValue(values), MaxValue(values);
    assert lo <= NumericValue(values[0]) <= hi;
    RoundedBoundsOrdered(lo, hi, 2);
    SignificantDigitsRoundFloor(lo, 2);
    SignificantDigitsRoundCeil(hi, 2);
  }

  /** The adjusted envelope only widens the unadjusted one. */
  lemma SeriesAdjusted(series: seq<seq<Sample>>)
    requires SeriesMinMax(series, true).Ok?
    ensures var r := SeriesMinMax(series, true).value;
      SeriesMinMax(series, false) == Ok(AdjustMinMax(r.0, r.1))
  {}

  /** Zero anchoring widens the domain, moves at most one bound, and at most doubles the range. */
  lemma AdjustMinMaxWidens(min: real, max: real)
    requires min <= max
    ensures var (lo, hi) := AdjustMinMax(min, max);
      && lo <= min && max <= hi
      && (lo == min || hi == max)
      && hi - lo <= 2.0 * (max - min)
  {}

  /** After anchoring, zero is in view unless the data lies farther from zero than its own range. */
  lemma AdjustMinMaxShowsZero(min: real, max: real)
    requires min <= max
    ensures var (lo, hi) := AdjustMinMax(min, max);
      (lo <= 0.0 <= hi) || max - min < min || max - min < -max
  {}

  /** The branch examples: (5, 50) to (0, 50), (2, 3) to (1.5, 3), (-5, -1) to (-5, 0). */
  lemma AdjustMinMaxExamples()
    ensures AdjustMinMax(5.0, 50.0) == (0.0, 50.0)
    ensures AdjustMinMax(2.0, 3.0) == (1.5, 3.0)
    ensures AdjustMinMax(-5.0, -1.0) == (-5.0, 0.0)
    ensures AdjustMinMax(-50.0, -5.0) == (-50.0, 0.0)
    ensures AdjustMinMax(-3.0, -2.0) == (-3.0, -1.5)
  {}

  /** The `min`/`max` options can only widen the domain, and it then holds the option values. */
  lemma WidenDomainContains(min: real, max: real, optMin: Option<real>, optMax: Option<real>)
    ensures var (lo, hi) := WidenDomain(min, max, optMin, optMax);
      && lo <= min && max <= hi
      && (optMin.Some? ==> lo <= optMin.value)
      && (optMax.Some? ==> optMax.value <= hi)
      && (lo == min || (optMin.Some? && lo == optMin.value))
      && (hi == max || (optMax.Some? && hi == optMax.value))
  {}
}
