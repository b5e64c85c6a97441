/** The chart object of `Ico.Base` and its subclasses: the domain and axes set by
    `process_options` (ico.js:163-182, with the overrides of ico.js:366-375, 409-428 and
    496-501), the geometry of `calculate`, `calculate_graph_len` and `calculate_bars`
    (ico.js:225-259), `plot` (ico.js:334-336), `label_slots_count` per chart class, the
    axis-parallel branch of `Labels.calculate_labels_padding` (ico.js:817-863), the write-back of
    `ValueLabels.calculate` (ico.js:936-998), and the series visibility of ico.js:280-310. */
module Chart {
  import opened Wrappers
  import opened Numbers
  import opened Series
  import opened TickPlanner
  import opened Format
  import opened ValueLabels

  /** The chart classes. */
  datatype Kind = SparkLine | SparkBar | BulletGraph | LineGraph | BarGraph | HorizontalBarGraph

  /** The subclasses of `Ico.BaseGraph`, which anchor the domain to zero. */
  predicate IsBaseGraph(kind: Kind)
  {
    kind.LineGraph? || kind.BarGraph? || kind.HorizontalBarGraph?
  }

  /** The classes whose `calculate` ends with `calculate_bars`. */
  predicate HasBars(kind: Kind)
  {
    kind.SparkBar? || kind.BulletGraph? || kind.BarGraph? || kind.HorizontalBarGraph?
  }

  /** `label_slots_count`: a line has one slot between consecutive samples (ico.js:378, 565), a
      bar one slot per sample (ico.js:402, 626), a bullet a single slot (ico.js:430). */
  function LabelSlotsCount(kind: Kind, dataSamples: nat): int
  {
    match kind
    case SparkLine => dataSamples - 1
    case LineGraph => dataSamples - 1
    case SparkBar => dataSamples
    case BarGraph => dataSamples
    case HorizontalBarGraph => dataSamples
    case BulletGraph => 1
  }

  /** The `orientation` a class sets in `set_defaults`: 1 for bullets and horizontal bars. */
  predicate DefaultOrientation(kind: Kind)
  {
    kind.BulletGraph? || kind.HorizontalBarGraph?
  }

  /** The options the geometry reads, once `Object.extend` has merged the class defaults and the
      caller's options: canvas size, paddings (`[left, right]` and `[top, bottom]`), the domain
      overrides, `orientation` and `bar_padding`. */
  datatype ChartOptions = ChartOptions(
    width: real, height: real,
    xPadding: (real, real), yPadding: (real, real),
    min: Option<real>, max: Option<real>,
    orientation: bool,
    barPadding: Option<real>)

  /** An axis object (`this.x`, `this.y`): its direction, canvas width, paddings, and what
      `calculate` and the label components derive. */
  datatype Axis = Axis(
    direction: (int, int), width: real, padding: (real, real),
    len: real, start: real, stop: real, step: real, startOffset: real,
    labelOffset: (real, real), anchor: string)

  function NewAxis(direction: (int, int), width: real, padding: (real, real)): Axis
  {
    Axis(direction, width, padding, 0.0, 0.0, 0.0, 0.0, 0.0, (0.0, 0.0), "")
  }

  /** `padding[i]`. */
  function PaddingAt(a: Axis, i: nat): real
    requires i < 2
  {
    if i == 0 then a.padding.0 else a.padding.1
  }

  /** `padding[i] = v`. */
  function WithPadding(a: Axis, i: nat, v: real): (r: Axis)
    requires i < 2
    ensures PaddingAt(r, i) == v && PaddingAt(r, 1 - i) == PaddingAt(a, 1 - i)
    ensures r == a.(padding := r.padding)
  {
    if i == 0 then a.(padding := (v, a.padding.1)) else a.(padding := (a.padding.0, v))
  }

  // ---------------------------------------------------------------------------------------
  // Domain

  /** The domain after `process_options`: a `BaseGraph` first anchors the data envelope to zero
      (ico.js:497-500); every chart then widens it to the `min`/`max` options (ico.js:166-167),
      which a bullet graph defaults to 0 and 100 (ico.js:413-418). */
  function Domain(kind: Kind, min: real, max: real, optMin: Option<real>, optMax: Option<real>): (r: (real, real))
    requires min <= max
    ensures r.0 <= min && max <= r.1
    ensures optMin.Some? ==> r.0 <= optMin.value
    ensures optMax.Some? ==> optMax.value <= r.1
    ensures kind.BulletGraph? && optMin.None? ==> r.0 <= 0.0
    ensures kind.BulletGraph? && optMax.None? ==> 100.0 <= r.1
    // only a `BaseGraph` anchors to zero; a bullet is widened to its default options, unanchored
    ensures IsBaseGraph(kind) ==>
      r == WidenDomain(AdjustMinMax(min, max).0, AdjustMinMax(min, max).1, optMin, optMax)
    ensures kind.BulletGraph? ==>
      r == WidenDomain(min, max, Some(if optMin.Some? then optMin.value else 0.0),
                       Some(if optMax.Some? then optMax.value else 100.0))
    ensures !IsBaseGraph(kind) && !kind.BulletGraph? ==> r == WidenDomain(min, max, optMin, optMax)
  {
    var (lo, hi) := if IsBaseGraph(kind) then AdjustMinMax(min, max) else (min, max);
    AdjustMinMaxWidens(min, max);
    var optMin' := if kind.BulletGraph? && optMin.None? then Some(0.0) else optMin;
    var optMax' := if kind.BulletGraph? && optMax.None? then Some(100.0) else optMax;
    WidenDomainContains(lo, hi, optMin', optMax');
    WidenDomain(lo, hi, optMin', optMax')
  }

  /** A `BaseGraph` keeps zero in view unless its data lies farther from zero than its own
      range; the other classes never pull the domain to zero on their own. */
  lemma DomainShowsZero(kind: Kind, min: real, max: real, optMin: Option<real>, optMax: Option<real>)
    requires min <= max
    requires IsBaseGraph(kind) && !(max - min < min) && !(max - min < -max)
    ensures Domain(kind, min, max, optMin, optMax).0 <= 0.0 <= Domain(kind, min, max, optMin, optMax).1
  {
    AdjustMinMaxShowsZero(min, max);
    var (lo, hi) := AdjustMinMax(min, max);
    WidenDomainContains(lo, hi, optMin, optMax);
  }

  /** The data (5, 50): a line graph shows it as (0, 50), a spark line as (5, 50), and a bullet
      graph as its default (0, 100). */
  lemma DomainAnchoring()
    ensures Domain(LineGraph, 5.0, 50.0, None, None) == (0.0, 50.0)
    ensures Domain(SparkLine, 5.0, 50.0, None, None) == (5.0, 50.0)
    ensures Domain(BulletGraph, 5.0, 50.0, None, None) == (0.0, 100.0)
    ensures Domain(BulletGraph, 5.0, 50.0, Some(10.0), None) == (5.0, 100.0)
  {
    AdjustMinMaxExamples();
  }

  // ---------------------------------------------------------------------------------------
  // Scale and bars

  /** `plot`: the distance in pixels of a value from the domain's minimum. */
  function PlotAt(min: real, scale: real, v: real): real
  {
    (v - min) * scale
  }

  /** With `scale = y_direction * len / range`, `plot` sends the domain's ends to 0 and to
      `y_direction * len`, and keeps (or, for `y_direction = -1`, reverses) the order of values. */
  lemma PlotEnds(min: real, max: real, len: real, yDirection: real, v: real, w: real)
    requires min < max
    ensures var scale := yDirection * len / (max - min);
      && PlotAt(min, scale, min) == 0.0
      && PlotAt(min, scale, max) == yDirection * len
      && (yDirection * len > 0.0 && v < w ==> PlotAt(min, scale, v) < PlotAt(min, scale, w))
      && (yDirection * len < 0.0 && v < w ==> PlotAt(min, scale, v) > PlotAt(min, scale, w))
  {
    var scale := yDirection * len / (max - min);
    DivideByRange(yDirection * len, max - min);
    assert PlotAt(min, scale, min) == 0.0 * scale == 0.0;
    assert PlotAt(min, scale, w) - PlotAt(min, scale, v) == (w - v) * scale;
    if yDirection * len > 0.0 && v < w {
      MulPositive(w - v, scale);
    }
    if yDirection * len < 0.0 && v < w {
      MulPositive(w - v, -scale);
    }
  }

  /** Dividing by a positive range keeps the sign and multiplying back restores the value. */
  lemma DivideByRange(a: real, range: real)
    requires range > 0.0
    ensures range * (a / range) == a
    ensures a > 0.0 ==> a / range > 0.0
    ensures a < 0.0 ==> -(a / range) > 0.0
  {}

  lemma MulPositive(a: real, b: real)
    requires a > 0.0 && b > 0.0
    ensures a * b > 0.0
  {
  }

  /** `bar_width`: the slot less the bar padding, but never under 5 pixels (ico.js:252-253). */
  function BarWidth(step: real, barPadding: real): (w: real)
    ensures w >= 5.0
    ensures step - barPadding >= 5.0 ==> w == step - barPadding
    ensures step - barPadding < 5.0 ==> w == 5.0
  {
    var w := step - barPadding;
    if w < 5.0 then 5.0 else w
  }

  /** The value of the domain nearest to zero. */
  function Clamp(v: real, min: real, max: real): real
  {
    if v < min then min else if v > max then max else v
  }

  /** `bar_base` (ico.js:255-258). */
  function BarBase(start: real, scale: real, min: real, max: real): real
  {
    start - scale * ((if max <= 0.0 then max else 0.0) - (if min < 0.0 then min else 0.0))
  }

  /** Bars grow from the pixel of zero, or from the end of the domain nearest to zero when zero
      is outside it. */
  lemma BarBaseAtZero(start: real, scale: real, min: real, max: real)
    requires min <= max
    ensures BarBase(start, scale, min, max) == start - PlotAt(min, scale, Clamp(0.0, min, max))
  {
    var lo, hi := (if max <= 0.0 then max else 0.0), (if min < 0.0 then min else 0.0);
    assert Clamp(0.0, min, max) - min == lo - hi;
  }

  // ---------------------------------------------------------------------------------------
  // Label padding

  /** The padding index `position ^ orientation ^ options.position` (ico.js:857). */
  function PaddingSide(position: bool, orientation: bool, optPosition: bool): (i: nat)
    ensures i < 2
  {
    if (position != orientation) != optPosition then 1 else 0
  }

  /** `add_padding` adds the labels' margin to the padding, otherwise the padding is raised to it
      (ico.js:858-862). */
  function GrowPadding(padding: real, margin: real, add: bool): (r: real)
    ensures add ==> r == padding + margin
    ensures !add ==> r >= padding && r >= margin && (r == padding || r == margin)
  {
    if add then padding + margin
    else if padding < margin then margin else padding
  }

  /** Labels parallel to their axis: anchored at their middle, offset by `o` across the axis
      (`d.f = [dy * o, dx * o]`). */
  function ParallelLabels(d: Axis, o: real): Axis
  {
    d.(labelOffset := (d.direction.1 as real * o, d.direction.0 as real * o), anchor := "middle")
  }

  /** `calculate_graph_len` and the canvas coordinates of an axis: the length left between the
      paddings; a horizontal axis runs rightwards from its first padding, a vertical one
      downwards from it (its `start` is the bottom). */
  function Placed(a: Axis, horizontal: bool): (r: Axis)
    ensures r.len == a.width - a.padding.0 - a.padding.1
    ensures r == a.(len := r.len, start := r.start, stop := r.stop)
    ensures horizontal ==> r.start == a.padding.0 && r.stop - r.start == r.len
    ensures !horizontal ==> r.stop == a.padding.0 && r.start - r.stop == r.len
  {
    var len := a.width - a.padding.0 - a.padding.1;
    if horizontal then a.(len := len, start := a.padding.0, stop := a.padding.0 + len)
    else a.(len := len, stop := a.padding.0, start := a.padding.0 + len)
  }

  /** The axis with its length divided into `spaces` equal steps. */
  function StepAxis(a: Axis, spaces: int): (r: Axis)
    requires spaces >= 1
    ensures r == a.(step := r.step) && r.step * spaces as real == a.len
    ensures a.len > 0.0 ==> r.step > 0.0
  {
    a.(step := a.len / spaces as real)
  }

  /** Which physical axis holds the labels and which side of the other axis is padded: labels
      along the horizontal axis pad the bottom (`y.padding[1]`), labels along the vertical axis pad
      the left (`x.padding[0]`), and `options.position = 1` takes the opposite side. */
  lemma LabelSide(onGraphX: bool, orientation: bool, optPosition: bool)
    ensures var alongX := onGraphX != orientation;
      var i := PaddingSide(onGraphX, orientation, optPosition);
      && (alongX && !optPosition ==> i == 1)
      && (!alongX && !optPosition ==> i == 0)
      && (optPosition ==> i == 1 - PaddingSide(onGraphX, orientation, false))
  {
  }

  // ---------------------------------------------------------------------------------------
  // The chart

  /** An entry of `series_shapes`: the `{ shape, visible }` record of `Base.draw_series`, or the
      bare Raphael path a bullet graph stores, which has no `shape` member and whose `visible`
      property is undefined until `toggle_serie` stores a number in it (`Some(true)` for 1). */
  datatype SerieShape = Record(visible: bool) | BarePath(flag: Option<bool>)

  /** The TypeError of calling `show` or `hide` on the missing `shape` of a bare path. */
  const NoShape := "TypeError: s.shape is undefined"

  class Chart {
    var kind: Kind
    var dataSamples: nat
    var min: real
    var max: real
    var range: real
    var orientation: bool
    var x: Axis
    var y: Axis
    var scale: real
    var barPadding: Option<real>
    /** `bar_width`; `None` when `bar_padding` is undefined and the subtraction gives NaN. */
    var barWidth: Option<real>
    var barBase: real
    /** `series_shapes`, and whether each drawn shape is currently shown. */
    var shapes: seq<SerieShape>
    var shown: seq<bool>

    /** `graph.x`, the axis of the categories: `y` when the chart is horizontal. */
    function GraphX(): Axis
      reads this`orientation, this`x, this`y
    {
      if orientation then y else x
    }

    /** `graph.y`, the axis of the values: `x` when the chart is horizontal. */
    function GraphY(): Axis
      reads this`orientation, this`x, this`y
    {
      if orientation then x else y
    }

    function YDirection(): real
      reads this`orientation
    {
      if orientation then -1.0 else 1.0
    }

    /** Each entry has a drawn shape: a record's is shown exactly when it is visible, and a bare
        path, which cannot be hidden, stays shown. */
    predicate Valid()
      reads this`shapes, this`shown
    {
      && |shown| == |shapes|
      && forall i :: 0 <= i < |shapes| ==> shown[i] == (shapes[i].BarePath? || shapes[i].visible)
    }

    /** `process_options` after `set_series`: the data envelope and sample count come from
        `series_min_max` and `data_samples`; the domain is anchored and widened, the axes get
        their widths and paddings (a spark line adds one pixel under its values), the orientation
        is the option's or the class's. */
    constructor (kind: Kind, seriesMin: real, seriesMax: real, dataSamples: nat, o: ChartOptions)
      requires seriesMin <= seriesMax
      ensures this.kind == kind && this.dataSamples == dataSamples
      ensures (min, max) == Domain(kind, seriesMin, seriesMax, o.min, o.max) && range == max - min
      ensures orientation == (o.orientation || DefaultOrientation(kind))
      ensures var sparkPad := if kind.SparkLine? || kind.SparkBar? then 1.0 else 0.0;
        && GraphX() == NewAxis(if orientation then (0, -1) else (1, 0),
                              if orientation then o.height else o.width,
                              if orientation then o.yPadding else o.xPadding)
        && GraphY() == NewAxis(if orientation then (1, 0) else (0, -1),
                              if orientation then o.width else o.height,
                              if orientation then (o.xPadding.0, o.xPadding.1 + sparkPad)
                              else (o.yPadding.0, o.yPadding.1 + sparkPad))
      ensures barPadding == if (kind.BarGraph? || kind.HorizontalBarGraph?) && o.barPadding.None? then Some(5.0) else o.barPadding
      ensures shapes == [] && shown == [] && Valid()
    {
      this.kind := kind;
      this.dataSamples := dataSamples;
      var domain := Domain(kind, seriesMin, seriesMax, o.min, o.max);
      min := domain.0;
      max := domain.1;
      range := domain.1 - domain.0;
      var xAxis, yAxis := NewAxis((1, 0), o.width, o.xPadding), NewAxis((0, -1), o.height, o.yPadding);
      var horizontal := o.orientation || DefaultOrientation(kind);
      if kind.SparkLine? || kind.SparkBar? {
        if horizontal {
          xAxis := xAxis.(padding := (xAxis.padding.0, xAxis.padding.1 + 1.0));
        } else {
          yAxis := yAxis.(padding := (yAxis.padding.0, yAxis.padding.1 + 1.0));
        }
      }
      x, y, orientation := xAxis, yAxis, horizontal;
      barPadding := if (kind.BarGraph? || kind.HorizontalBarGraph?) && o.barPadding.None? then Some(5.0) else o.barPadding;
      barWidth := None;
      scale := 0.0;
      barBase := 0.0;
      shapes := [];
      shown := [];
    }

    /** What `calculate` establishes (ico.js:233-247): each axis's length is its width less its
        paddings, `scale` maps the domain onto `graph.y`'s length in the chart's direction, the
        category step divides `graph.x`'s length into the class's slots, and the canvas
        coordinates run from the left padding rightwards and from the top padding downwards. */
    predicate Laid()
      reads this`kind, this`dataSamples, this`min, this`max, this`range, this`orientation, this`x, this`y,
        this`scale
    {
      && min < max && range == max - min
      && x.len == x.width - x.padding.0 - x.padding.1 && y.len == y.width - y.padding.0 - y.padding.1
      && scale == YDirection() * GraphY().len / range
      && GraphX().step * LabelSlotsCount(kind, dataSamples) as real == GraphX().len
      && x.start == x.padding.0 && x.stop - x.start == x.len
      && y.stop == y.padding.0 && y.start - y.stop == y.len
    }

    /** `Ico.Base.calculate` once the components have run. */
    method CalculateGraph()
      modifies this`x, this`y, this`scale
      requires min < max && range == max - min
      requires LabelSlotsCount(kind, dataSamples) >= 1
      ensures Laid()
      ensures GraphX() == Placed(old(GraphX()), !orientation).(step := GraphX().step)
      ensures GraphY() == Placed(old(GraphY()), orientation)
      ensures PlotAt(min, scale, min) == 0.0 && PlotAt(min, scale, max) == YDirection() * GraphY().len
    {
      var slots := LabelSlotsCount(kind, dataSamples);
      var xAxis, yAxis := Placed(x, true), Placed(y, false);
      if orientation {
        yAxis := StepAxis(yAxis, slots);
      } else {
        xAxis := StepAxis(xAxis, slots);
      }
      x, y := xAxis, yAxis;
      scale := YDirection() * GraphY().len / range;
      PlotEnds(min, max, GraphY().len, YDirection(), min, max);
    }

    /** `calculate` of each class: the common geometry, then the bars of the classes that have
        them, a bullet first defaulting `bar_padding` to two thirds of `graph.x` (ico.js:432-435). */
    method Calculate()
      modifies this`x, this`y, this`scale, this`barPadding, this`barWidth, this`barBase
      requires min < max && range == max - min
      requires LabelSlotsCount(kind, dataSamples) >= 1
      ensures Laid()
      ensures PlotAt(min, scale, min) == 0.0 && PlotAt(min, scale, max) == YDirection() * GraphY().len
      ensures GraphY() == Placed(old(GraphY()), orientation)
      ensures GraphX() == Placed(old(GraphX()), !orientation).(step := GraphX().step, startOffset := GraphX().startOffset)
      ensures !HasBars(kind) ==>
        GraphX().startOffset == old(GraphX()).startOffset && barWidth == old(barWidth) && barBase == old(barBase)
      ensures HasBars(kind) ==>
        && GraphX().startOffset == YDirection() * GraphX().step / 2.0
        && barBase == GraphY().start - PlotAt(min, scale, Clamp(0.0, min, max))
        && barWidth == (if barPadding.Some? then Some(BarWidth(GraphX().step, barPadding.value)) else None)
      ensures kind.BulletGraph? && (old(barPadding).None? || old(barPadding) == Some(0.0)) ==>
        barPadding == Some(2.0 * GraphX().len / 3.0)
      ensures !kind.BulletGraph? || (old(barPadding).Some? && old(barPadding) != Some(0.0)) ==>
        barPadding == old(barPadding)
    {
      hide Laid, PlotAt, Clamp, BarWidth, Placed, StepAxis, LabelSlotsCount, BarBase, GraphX, GraphY, YDirection;
      CalculateGraph();
      var lenX := GraphX().len;
      if kind.BulletGraph? {
        if barPadding.None? || barPadding == Some(0.0) {
          barPadding := Some(2.0 * lenX / 3.0);
        }
        CalculateBars();
      } else if HasBars(kind) {
        CalculateBars();
      }
    }

    /** `calculate_bars`. */
    method CalculateBars()
      modifies this`x, this`y, this`barWidth, this`barBase
      requires Laid()
      ensures Laid()
      ensures GraphY() == old(GraphY()) && GraphX() == old(GraphX()).(startOffset := GraphX().startOffset)
      ensures GraphX().len == old(GraphX()).len
      ensures GraphX().startOffset == YDirection() * GraphX().step / 2.0
      ensures barBase == GraphY().start - PlotAt(min, scale, Clamp(0.0, min, max))
      ensures barWidth == (if barPadding.Some? then Some(BarWidth(GraphX().step, barPadding.value)) else None)
    {
      assert min < max;
      hide Laid, BarWidth, BarBase, PlotAt, Clamp;
      SizeBars();
      CenterBars();
    }

    /** The bar width from the category step and `bar_padding`, and the bar base at the pixel
        of zero (ico.js:252-258). */
    method SizeBars()
      modifies this`barWidth, this`barBase
      requires min <= max
      ensures barBase == GraphY().start - PlotAt(min, scale, Clamp(0.0, min, max))
      ensures barWidth == (if barPadding.Some? then Some(BarWidth(GraphX().step, barPadding.value)) else None)
    {
      BarBaseAtZero(GraphY().start, scale, min, max);
      barWidth := if barPadding.Some? then Some(BarWidth(GraphX().step, barPadding.value)) else None;
      barBase := BarBase(GraphY().start, scale, min, max);
    }

    /** `graph.x.start_offset`: bars are centred half a step into their slot (ico.js:254). */
    method CenterBars()
      modifies this`x, this`y
      requires Laid()
      ensures Laid()
      ensures GraphY() == old(GraphY())
      ensures GraphX() == old(GraphX()).(startOffset := YDirection() * old(GraphX()).step / 2.0)
    {
      var step := GraphX().step;
      if orientation {
        y := y.(startOffset := YDirection() * step / 2.0);
      } else {
        x := x.(startOffset := YDirection() * step / 2.0);
      }
    }

    /** The axis-parallel branch of `calculate_labels_padding( d, position )`: labels on
        `graph.x` (`position` 1, the `Labels` component) or on `graph.y` (`position` 0,
        `ValueLabels`) of the given height get their anchor offset along the axis's direction,
        and the other axis's padding on the side `position ^ orientation ^ options.position`
        grows by (or to) `1.1 * height + marker`. */
    method CalculateLabelsPadding(onGraphX: bool, height: real, marker: real, addPadding: bool, optPosition: bool)
      modifies this
      ensures kind == old(kind) && dataSamples == old(dataSamples) && orientation == old(orientation)
      ensures min == old(min) && max == old(max) && range == old(range) && scale == old(scale)
      ensures shapes == old(shapes) && shown == old(shown)
      ensures barPadding == old(barPadding) && barWidth == old(barWidth) && barBase == old(barBase)
      ensures var d := if onGraphX then old(GraphX()) else old(GraphY());
        var other := if onGraphX then old(GraphY()) else old(GraphX());
        var o := 0.6 * height + marker;
        var i := PaddingSide(onGraphX, orientation, optPosition);
        && (if onGraphX then GraphX() else GraphY()) == ParallelLabels(d, o)
        && (if onGraphX then GraphY() else GraphX()) ==
             WithPadding(other, i, GrowPadding(PaddingAt(other, i), 1.1 * height + marker, addPadding))
    {
      var alongX := onGraphX != orientation;
      var d := if alongX then x else y;
      var o := 0.6 * height + marker;
      d := ParallelLabels(d, o);
      var i := PaddingSide(onGraphX, orientation, optPosition);
      var other := if alongX then y else x;
      other := WithPadding(other, i, GrowPadding(PaddingAt(other, i), 1.1 * height + marker, addPadding));
      if alongX {
        x, y := d, other;
      } else {
        x, y := other, d;
      }
    }

    /** `ValueLabels.calculate` (ico.js:936-998) against this chart: the value axis's length, the
        number of spaces, the planned domain written back to `min`, `max` and `range`, the labels,
        and the value step along `graph.y`. */
    method CalculateValueLabels(optionSpaces: int, estimate: int, o: UnitsOption)
      returns (params: LabelParams, p1000: int, labels: seq<string>)
      modifies this`x, this`y, this`min, this`max, this`range
      requires min < max
      requires var n := if optionSpaces != 0 then optionSpaces else estimate;
        n >= 1 && (Straddles(min, max) ==> n >= 2) && max - min >= Pow10(-14) * n as real
      ensures params.spaces >= 1 && (Straddles(old(min), old(max)) ==> params.spaces >= 2)
      ensures params == ValueLabelsParams(old(min), old(max), params.spaces) && params.step > 0.0
      ensures optionSpaces != 0 ==> params.spaces == optionSpaces
      ensures optionSpaces == 0 && estimate <= 2 ==> params.spaces == estimate
      ensures optionSpaces == 0 && estimate > 2 ==> LeastWaste(old(min), old(max), estimate, params.spaces)
      ensures min == params.min && max == params.max && range == max - min
      ensures min <= old(min) && old(max) <= max && min < max
      ensures p1000 == LabelsPower(params) && labels == PlannedLabels(params, o)
      ensures GraphX() == old(GraphX())
      ensures GraphY() == old(GraphY()).(len := GraphY().len, step := GraphY().step)
      ensures GraphY().len == GraphY().width - GraphY().padding.0 - GraphY().padding.1
      ensures GraphY().step * params.spaces as real == GraphY().len
    {
      hide PlannedLabels, LabelsPower, ValueLabelsParams, LeastWaste, Pow10, Exponent;
      var axis := GraphY();
      axis := axis.(len := axis.width - axis.padding.0 - axis.padding.1);
      params, p1000, labels := ValueLabels.CalculateValueLabels(min, max, optionSpaces, estimate, o);
      axis := StepAxis(axis, params.spaces);
      if orientation {
        x := axis;
      } else {
        y := axis;
      }
      max := params.max;
      min := params.min;
      range := max - min;
    }

    /** `get_serie`: the entry of a drawn series, or the error it throws. */
    function GetSerie(s: int): (r: Result<SerieShape>)
      reads this`shapes
      ensures r.Ok? <==> 0 <= s < |shapes|
      ensures r.Ok? ==> r.value == shapes[s]
      ensures r.Err? ==> r.error == "Undefined serie"
    {
      if 0 <= s < |shapes| then Ok(shapes[s]) else Err("Undefined serie")
    }

    /** `draw_series`: every series gets a visible, shown record (ico.js:282-290), except in a
        bullet graph, whose override stores the bare path of its single value (ico.js:456-460). */
    method DrawSeries(count: nat)
      modifies this`shapes, this`shown
      ensures Valid()
      ensures !kind.BulletGraph? ==> |shapes| == count && forall i :: 0 <= i < count ==> shapes[i] == Record(true)
      ensures kind.BulletGraph? ==> shapes == [BarePath(None)]
    {
      if kind.BulletGraph? {
        shapes := [BarePath(None)];
      } else {
        shapes := seq(count, _ => Record(true));
      }
      shown := seq(|shapes|, _ => true);
    }

    /** `toggle_serie`: flips a record's visibility and shows or hides its shape to match. On a
        bare path `visible ^= 1` stores a number (1 when it was undefined or 0), then calling
        `show` on the missing `shape` throws. */
    method ToggleSerie(s: int) returns (r: Result<bool>)
      requires Valid()
      modifies this`shapes, this`shown
      ensures Valid()
      ensures r.Ok? <==> 0 <= s < |old(shapes)| && old(shapes)[s].Record?
      ensures r.Ok? ==> r.value == !old(shapes)[s].visible && shapes == old(shapes)[s := Record(r.value)]
      ensures 0 <= s < |old(shapes)| && old(shapes)[s].BarePath? ==>
        r == Err(NoShape) && shapes == old(shapes)[s := BarePath(Some(old(shapes)[s].flag != Some(true)))]
      ensures !(0 <= s < |old(shapes)|) ==> r == Err("Undefined serie") && shapes == old(shapes)
    {
      var e := GetSerie(s);
      if e.Err? {
        return Err(e.error);
      }
      match e.value
      case Record(v) =>
        shapes := shapes[s := Record(!v)];
        shown := shown[s := !v];
        r := Ok(!v);
      case BarePath(f) =>
        shapes := shapes[s := BarePath(Some(f != Some(true)))];
        r := Err(NoShape);
    }

    /** `show_serie`: a bare path throws before `visible` is set. */
    method ShowSerie(s: int) returns (r: Result<bool>)
      requires Valid()
      modifies this`shapes, this`shown
      ensures Valid()
      ensures r.Ok? <==> 0 <= s < |old(shapes)| && old(shapes)[s].Record?
      ensures r.Ok? ==> shapes == old(shapes)[s := Record(true)]
      ensures r.Err? ==> shapes == old(shapes)
      ensures 0 <= s < |old(shapes)| && old(shapes)[s].BarePath? ==> r == Err(NoShape)
      ensures !(0 <= s < |old(shapes)|) ==> r == Err("Undefined serie")
    {
      var e := GetSerie(s);
      if e.Err? {
        return Err(e.error);
      }
      if e.value.BarePath? {
        return Err(NoShape);
      }
      shown := shown[s := true];
      shapes := shapes[s := Record(true)];
      r := Ok(true);
    }

    /** `hide_serie`: a bare path throws before `visible` is set. */
    method HideSerie(s: int) returns (r: Result<bool>)
      requires Valid()
      modifies this`shapes, this`shown
      ensures Valid()
      ensures r.Ok? <==> 0 <= s < |old(shapes)| && old(shapes)[s].Record?
      ensures r.Ok? ==> shapes == old(shapes)[s := Record(false)]
      ensures r.Err? ==> shapes == old(shapes)
      ensures 0 <= s < |old(shapes)| && old(shapes)[s].BarePath? ==> r == Err(NoShape)
      ensures !(0 <= s < |old(shapes)|) ==> r == Err("Undefined serie")
    {
      var e := GetSerie(s);
      if e.Err? {
        return Err(e.error);
      }
      if e.value.BarePath? {
        return Err(NoShape);
      }
      shown := shown[s := false];
      shapes := shapes[s := Record(false)];
      r := Ok(false);
    }
  }

  /** Toggling a series twice restores its visibility; on a bullet graph's bare path both
      calls throw and leave `visible` a number (1, then 0, when it started undefined). */
  method ToggleTwice(c: Chart, s: int)
    requires c.Valid() && 0 <= s < |c.shapes|
    modifies c
    ensures c.Valid()
    ensures old(c.shapes)[s].Record? ==> c.shapes == old(c.shapes)
    ensures old(c.shapes)[s] == BarePath(None) ==> c.shapes == old(c.shapes)[s := BarePath(Some(false))]
  {
    var r1 := c.ToggleSerie(s);
    var r2 := c.ToggleSerie(s);
    if old(c.shapes)[s].Record? {
      assert c.shapes == old(c.shapes)[s := Record(!old(c.shapes)[s].visible)][s := old(c.shapes)[s]];
    }
  }
}
