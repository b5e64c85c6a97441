/** The value-label planner of `Ico.Component.ValueLabels`: `calculate_value_labels_params`
    (ico.js:1002-1031) picks a step and a rounded domain for a number of label spaces, and
    `calculate` (ico.js:936-1000) searches the number of spaces with the least waste. */
module TickPlanner {
  import opened Numbers

  /** The record `calculate_value_labels_params` returns. */
  datatype LabelParams = LabelParams(min: real, max: real, spaces: int, step: real, waste: real)

  predicate Straddles(min: real, max: real) { min < 0.0 && max > 0.0 }

  /** `Math.round(spaces * max / range)` clamped to [1, spaces - 1] (ico.js:1004-1009): the
      spaces above zero when the domain straddles it. */
  function SpacesAbove(min: real, max: real, spaces: int): (above: int)
    requires Straddles(min, max) && spaces >= 2
    ensures 1 <= above <= spaces - 1
  {
    var a := Apply(Round, spaces as real * max / (max - min));
    RoundedShare(spaces, max / (max - min));
    assert spaces as real * max / (max - min) == spaces as real * (max / (max - min));
    if a == 0 then 1 else if a == spaces then spaces - 1 else a
  }

  /** A rounded share of the spaces lies between 0 and all of them. */
  lemma RoundedShare(spaces: int, share: real)
    requires spaces >= 1 && 0.0 < share < 1.0
    ensures 0 <= Apply(Round, spaces as real * share) <= spaces
  {
    assert 0.0 < spaces as real * share < spaces as real;
  }

  /** `calculate_value_labels_params(min, max, max - min, spaces)`. */
  function ValueLabelsParams(min: real, max: real, spaces: int): (r: LabelParams)
    requires spaces >= 1 && (Straddles(min, max) ==> spaces >= 2)
    ensures r.spaces == spaces
  {
    var range := max - min;
    if Straddles(min, max) then
      var above := SpacesAbove(min, max, spaces);
      var under := spaces - above;
      var step := SignificantDigitsRound(StraddleRatio(min, max, above, under), 2, Nice);
      LabelParams(-step * under as real, step * above as real, spaces, step, spaces as real * step - range)
    else
      var step := SignificantDigitsRound(range / spaces as real, 1, Ceil);
      if max <= 0.0 then LabelParams(max - step * spaces as real, max, spaces, step, spaces as real * step - range)
      else if min >= 0.0 then LabelParams(min, min + step * spaces as real, spaces, step, spaces as real * step - range)
      else LabelParams(min, max, spaces, step, spaces as real * step - range)
  }

  /** `[max / spaces_above_zero, -min / spaces_under_zero].max()`: the step each side needs. */
  function StraddleRatio(min: real, max: real, above: int, under: int): (r: real)
    requires above >= 1 && under >= 1
    ensures r >= max / above as real && r >= -min / under as real
  {
    var a, b := max / above as real, -min / under as real;
    if a >= b then a else b
  }

  /** Waste of a number of spaces: how much the rounded domain exceeds the data's. */
  function Waste(min: real, max: real, spaces: int): real
    requires spaces >= 2
  {
    ValueLabelsParams(min, max, spaces).waste
  }

  // ---------------------------------------------------------------------------------------
  // The planner's promises

  lemma CoverAbove(step: real, ratio: real, n: int, bound: real)
    requires n >= 1 && step >= ratio && ratio >= bound / n as real
    ensures step * n as real >= bound
  {
    assert ratio * n as real >= bound;
    assert step * n as real >= ratio * n as real;
  }

  /** When the domain straddles zero: the new domain contains the old, its range is spaces
      steps, it has a tick at zero with at least one space on each side, and the waste is not
      negative (provided the per-side ratio is not flushed to 0 by the rounding). */
  lemma StraddleParams(min: real, max: real, spaces: int)
    requires Straddles(min, max) && spaces >= 2
    requires !Flushed(StraddleRatio(min, max, SpacesAbove(min, max, spaces), spaces - SpacesAbove(min, max, spaces)))
    ensures var p := ValueLabelsParams(min, max, spaces);
      var above := SpacesAbove(min, max, spaces);
      && p.min <= min && max <= p.max
      && p.step > 0.0
      && p.max - p.min == spaces as real * p.step
      && p.min + (spaces - above) as real * p.step == 0.0
      && 1 <= above <= spaces - 1
      && p.waste == (p.max - p.min) - (max - min) >= 0.0
  {
    hide SignificantDigitsRound, SpacesAbove, StraddleRatio, ValueLabelsParams, Flushed, Quantum, Pow10, Exponent;
    var above := SpacesAbove(min, max, spaces);
    var under := spaces - above;
    var ratio := StraddleRatio(min, max, above, under);
    SignificantDigitsRoundNice(ratio, 2);
    var step := SignificantDigitsRound(ratio, 2, Nice);
    StraddleLayout(min, max, spaces);
    StraddleCover(min, max, above, under, ratio, step);
  }

  lemma StraddleLayout(min: real, max: real, spaces: int)
    requires Straddles(min, max) && spaces >= 2
    ensures var above := SpacesAbove(min, max, spaces);
      var under := spaces - above;
      var step := SignificantDigitsRound(StraddleRatio(min, max, above, under), 2, Nice);
      ValueLabelsParams(min, max, spaces) ==
        LabelParams(-step * under as real, step * above as real, spaces, step, spaces as real * step - (max - min))
  {
    hide SignificantDigitsRound, SpacesAbove, StraddleRatio;
  }

  /** The step covers each side of zero with its own number of spaces. */
  lemma StraddleCover(min: real, max: real, above: int, under: int, ratio: real, step: real)
    requires min < 0.0 < max && above >= 1 && under >= 1
    requires ratio >= max / above as real && ratio >= -min / under as real && step >= ratio
    ensures step > 0.0
    ensures -step * under as real <= min && max <= step * above as real
    ensures step * above as real - -step * under as real == (above + under) as real * step
    ensures -step * under as real + under as real * step == 0.0
  {
    assert max / above as real > 0.0;
    CoverAbove(step, ratio, above, max);
    CoverAbove(step, ratio, under, -min);
  }

  /** Otherwise: the step is range / spaces rounded up to one significant digit, the bound away
      from zero stays and the other moves out, so the new domain contains the old and the waste
      is not negative (provided range / spaces is not flushed to 0). */
  lemma OneSidedParams(min: real, max: real, spaces: int)
    requires !Straddles(min, max) && min <= max && spaces >= 1
    requires !Flushed((max - min) / spaces as real)
    ensures var p := ValueLabelsParams(min, max, spaces);
      && p.min <= min && max <= p.max
      && (max <= 0.0 ==> p.max == max)
      && (max > 0.0 ==> p.min == min)
      && (max > min ==> p.step > 0.0)
      && p.max - p.min == spaces as real * p.step
      && p.waste == (p.max - p.min) - (max - min) >= 0.0
  {
    hide *;
    var range := max - min;
    var ratio := range / spaces as real;
    var step := SignificantDigitsRound(ratio, 1, Ceil);
    if range > 0.0 {
      assert ratio > 0.0;
      SignificantDigitsRoundCeil(ratio, 1);
      CoverAbove(step, ratio, spaces, range);
    } else {
      assert ratio == 0.0;
      ZeroStep();
    }
    assert step * spaces as real >= range && (range > 0.0 ==> step > 0.0);
    OneSidedCover(min, max, spaces, step);
  }

  /** A zero range gives a zero step. */
  lemma ZeroStep()
    ensures SignificantDigitsRound(0.0, 1, Ceil) == 0.0
  {}

  /** The one-sided layout for a step that covers the range in the given number of spaces. */
  lemma OneSidedCover(min: real, max: real, spaces: int, step: real)
    requires !Straddles(min, max) && min <= max && spaces >= 1
    requires step == SignificantDigitsRound((max - min) / spaces as real, 1, Ceil)
    requires step * spaces as real >= max - min && (max > min ==> step > 0.0)
    ensures var p := ValueLabelsParams(min, max, spaces);
      && p.min <= min && max <= p.max
      && (max <= 0.0 ==> p.max == max)
      && (max > 0.0 ==> p.min == min)
      && (max > min ==> p.step > 0.0)
      && p.max - p.min == spaces as real * p.step
      && p.waste == (p.max - p.min) - (max - min) >= 0.0
  {
    hide SignificantDigitsRound;
  }

  /** The outcome of the search of ico.js:958-966 over 2..maxSpaces, starting from
      `min_waste = range`: a count replaces the best so far when its waste is not larger, so the
      result has the least waste and ties go to the larger count; when no count wastes at most the
      range, maxSpaces itself is kept. */
  predicate LeastWaste(min: real, max: real, maxSpaces: int, spaces: int)
  {
    var range := max - min;
    && 2 <= spaces <= maxSpaces
    && (|| (spaces == maxSpaces && forall t :: 2 <= t <= maxSpaces ==> Waste(min, max, t) > range)
        || (&& Waste(min, max, spaces) <= range
            && (forall t :: 2 <= t <= maxSpaces ==> Waste(min, max, spaces) <= Waste(min, max, t))
            && (forall t :: spaces < t <= maxSpaces ==> Waste(min, max, spaces) < Waste(min, max, t))))
  }

  /** The search loop itself. */
  method ChooseSpaces(min: real, max: real, maxSpaces: int) returns (spaces: int)
    requires maxSpaces > 2
    ensures LeastWaste(min, max, maxSpaces, spaces)
  {
    hide ValueLabelsParams;
    var range := max - min;
    var minWaste := range;
    spaces := maxSpaces;
    var found := false;
    for tried := 2 to maxSpaces + 1
      invariant minWaste <= range
      invariant forall t :: 2 <= t < tried ==> minWaste <= Waste(min, max, t)
      invariant !found ==>
        spaces == maxSpaces && minWaste == range && forall t :: 2 <= t < tried ==> Waste(min, max, t) > range
      invariant found ==>
        2 <= spaces < tried && Waste(min, max, spaces) == minWaste &&
        forall t :: spaces < t < tried ==> minWaste < Waste(min, max, t)
    {
      var params := ValueLabelsParams(min, max, tried);
      if params.waste <= minWaste {
        minWaste := params.waste;
        spaces := tried;
        found := true;
      }
    }
  }
}
