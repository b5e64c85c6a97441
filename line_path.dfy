/** The path of a line series: `BaseGraph.draw_serie` (ico.js:510-533) walks the samples and
    `LineGraph.draw_value` (ico.js:569-619) writes a moveto (`M`), a cubic Bezier (`C`) or a
    lineto (`L`) for each sample, carrying the previous point in the chart's `last` field. */
module LinePath {
  import opened Wrappers
  import opened SvgPath
  import opened Series

  datatype Point = Point(x: real, y: real)

  /** What `draw_value` reads from the chart: `curve_amount` (w), `orientation` (horizontal when
      set), `scale` and `graph.x.step`. */
  datatype LineOptions = LineOptions(curve: real, horizontal: bool, scale: real, step: real)

  /** A neighbouring sample used as a JavaScript truth value: present, not null and not 0. */
  function Neighbour(serie: seq<Sample>, j: int): Option<real>
  {
    if 0 <= j < |serie| && serie[j].Value? && serie[j].x != 0.0 then Some(serie[j].x) else None
  }

  /** `this.scale * w / 2 / this.graph.x.step`. */
  function Curvature(o: LineOptions): real
    requires o.step != 0.0
  {
    o.scale * o.curve / 2.0 / o.step
  }

  /** The difference behind sample i (ico.js:599): `ym2 - y0` across the two previous samples,
      or `(ym1 - y0) * 2` when the sample two back is missing or zero. */
  function BackDifference(serie: seq<Sample>, i: int): real
    requires 1 <= i < |serie|
  {
    var ym1, y0 := NumericValue(serie[i - 1]), NumericValue(serie[i]);
    match Neighbour(serie, i - 2)
    case Some(ym2) => ym2 - y0
    case None => (ym1 - y0) * 2.0
  }

  /** The difference ahead of sample i (ico.js:600): `ym1 - y1` across sample i, or
      `(ym1 - y0) * 2` when the next sample is missing or zero. */
  function ForwardDifference(serie: seq<Sample>, i: int): real
    requires 1 <= i < |serie|
  {
    var ym1, y0 := NumericValue(serie[i - 1]), NumericValue(serie[i]);
    match Neighbour(serie, i + 1)
    case Some(y1) => ym1 - y1
    case None => (ym1 - y0) * 2.0
  }

  /** The value-axis offsets of the two control points. */
  function Slopes(serie: seq<Sample>, i: int, o: LineOptions): (real, real)
    requires 1 <= i < |serie| && o.step != 0.0
  {
    (BackDifference(serie, i) * Curvature(o), ForwardDifference(serie, i) * Curvature(o))
  }

  /** The control-point deltas of ico.js:598-603 with the horizontal swap evidently intended at
      ico.js:605: each delta's components are exchanged and the category component is -w. */
  function ControlDeltas(serie: seq<Sample>, i: int, o: LineOptions): (d: (Point, Point))
    requires 1 <= i < |serie| && o.step != 0.0
  {
    var (s0, s1) := Slopes(serie, i, o);
    if o.horizontal then (Point(s0, -o.curve), Point(s1, -o.curve))
    else (Point(o.curve, s0), Point(o.curve, s1))
  }

  /** The deltas as ico.js:605 writes them, as the arrays the code indexes: in the horizontal
      case the second array holds only `d[1][0]`, so `d[1][1]` is undefined. */
  function ControlDeltasAsWritten(serie: seq<Sample>, i: int, o: LineOptions): (d: seq<seq<real>>)
    requires 1 <= i < |serie| && o.step != 0.0
    ensures |d| == 2
  {
    var (s0, s1) := Slopes(serie, i, o);
    var d := [[o.curve, s0], [o.curve, s1]];
    if o.horizontal then [[d[0][1], -o.curve], [d[1][0]]] else d
  }

  /** The tokens `draw_value` hands to `svg_path` for sample i at point p, given `last`. */
  function ValueTokens(serie: seq<Sample>, i: int, p: Point, last: Option<Point>, o: LineOptions): (r: seq<Token>)
    requires 0 <= i < |serie| && o.step != 0.0
    ensures |r| >= 1 && r[0].Command?
  {
    if i == 0 || (o.curve != 0.0 && last.None?) then [Command("M"), Num(p.x), Num(p.y)]
    else if o.curve != 0.0 then
      var (d0, d1) := ControlDeltas(serie, i, o);
      [Command("C"), Num(last.value.x + d0.x), Num(last.value.y + d0.y),
       Num(p.x - d1.x), Num(p.y - d1.y), Num(p.x), Num(p.y)]
    else [Command("L"), Num(p.x), Num(p.y)]
  }

  /** `w && (this.last = [x, y])`. */
  function NextLast(p: Point, last: Option<Point>, o: LineOptions): Option<Point>
  {
    if o.curve != 0.0 then Some(p) else last
  }

  /** Where sample i of value v is drawn: x advances by `y_direction * graph.x.step` per sample
      from the origin, y is `origin.y - scale * v`, and the two are swapped when horizontal. */
  function Place(origin: Point, advance: real, i: int, v: real, o: LineOptions): Point
  {
    var x := origin.x + i as real * advance;
    var y := origin.y - o.scale * v;
    if o.horizontal then Point(y, x) else Point(x, y)
  }

  /** The tokens of the first n samples and the value of `last` after them. */
  function SerieRun(serie: seq<Sample>, n: nat, origin: Point, advance: real, o: LineOptions,
                    last0: Option<Point>): (seq<Token>, Option<Point>)
    requires n <= |serie| && o.step != 0.0
  {
    if n == 0 then ([], last0)
    else
      var (tokens, last) := SerieRun(serie, n - 1, origin, advance, o, last0);
      match serie[n - 1]
      case Null => (tokens, None)
      case Value(v) =>
        var p := Place(origin, advance, n - 1, v, o);
        (tokens + ValueTokens(serie, n - 1, p, last, o), NextLast(p, last, o))
  }

  /** The chart's line-drawing state: the `last` point of `this.last`. */
  class LinePen {
    var last: Option<Point>

    constructor()
      ensures last == None
    {
      last := None;
    }

    /** `draw_value` without its drawing calls: the path text of one sample, and `last`. */
    method DrawValue(serie: seq<Sample>, i: int, p: Point, o: LineOptions) returns (text: string)
      requires 0 <= i < |serie| && o.step != 0.0
      modifies this
      ensures text == PathText(ValueTokens(serie, i, p, old(last), o))
      ensures last == NextLast(p, old(last), o)
    {
      var tokens := ValueTokens(serie, i, p, last, o);
      if o.curve != 0.0 {
        last := Some(p);
      }
      text := SvgPathText(tokens);
    }

    /** `draw_serie` without its drawing calls: the path text of a whole series. */
    method DrawSerie(serie: seq<Sample>, origin: Point, advance: real, o: LineOptions) returns (path: string)
      requires o.step != 0.0
      modifies this
      ensures path == PathText(SerieRun(serie, |serie|, origin, advance, o, old(last)).0)
      ensures last == SerieRun(serie, |serie|, origin, advance, o, old(last)).1
    {
      hide *;
      var last0 := last;
      var x := origin.x;
      path := "";
      SerieRunEmpty(serie, origin, advance, o, last0);
      for i := 0 to |serie|
        invariant x == origin.x + i as real * advance
        invariant path == PathText(SerieRun(serie, i, origin, advance, o, last0).0)
        invariant last == SerieRun(serie, i, origin, advance, o, last0).1
      {
        hide *;
        var run := SerieRun(serie, i, origin, advance, o, last0);
        SerieRunStep(serie, i, origin, advance, o, last0);
        match serie[i] {
          case Null =>
            last := None;
          case Value(v) =>
            var y := origin.y - o.scale * v;
            var p := if o.horizontal then Point(y, x) else Point(x, y);
            PlaceAt(origin, advance, i, v, o, x);
            var text := DrawValue(serie, i, p, o);
            PathTextConcat(run.0, ValueTokens(serie, i, p, run.1, o));
            path := path + text;
        }
        AdvanceStep(origin.x, advance, i);
        x := x + advance;
      }
    }
  }

  lemma SerieRunEmpty(serie: seq<Sample>, origin: Point, advance: real, o: LineOptions, last0: Option<Point>)
    requires o.step != 0.0
    ensures SerieRun(serie, 0, origin, advance, o, last0) == ([], last0)
    ensures PathText([]) == ""
  {}

  /** One more sample: a gap clears `last`, a value appends its tokens. */
  lemma SerieRunStep(serie: seq<Sample>, i: nat, origin: Point, advance: real, o: LineOptions, last0: Option<Point>)
    requires i < |serie| && o.step != 0.0
    ensures var run := SerieRun(serie, i, origin, advance, o, last0);
      SerieRun(serie, i + 1, origin, advance, o, last0) ==
        match serie[i]
        case Null => (run.0, None)
        case Value(v) =>
          var p := Place(origin, advance, i, v, o);
          (run.0 + ValueTokens(serie, i, p, run.1, o), NextLast(p, run.1, o))
  {}

  lemma PlaceAt(origin: Point, advance: real, i: int, v: real, o: LineOptions, x: real)
    requires x == origin.x + i as real * advance
    ensures var y := origin.y - o.scale * v;
      Place(origin, advance, i, v, o) == if o.horizontal then Point(y, x) else Point(x, y)
  {}

  lemma AdvanceStep(x0: real, advance: real, i: int)
    ensures x0 + i as real * advance + advance == x0 + (i + 1) as real * advance
  {}

  // ---------------------------------------------------------------------------------------
  // Properties

  /** With curves on, `last` after a sample is cleared exactly by a gap and otherwise holds that
      sample's point; with curves off it is only ever cleared. */
  lemma LastAfterSample(serie: seq<Sample>, n: nat, origin: Point, advance: real, o: LineOptions, last0: Option<Point>)
    requires 1 <= n <= |serie| && o.step != 0.0
    ensures var last := SerieRun(serie, n, origin, advance, o, last0).1;
      && (serie[n - 1].Null? ==> last == None)
      && (o.curve != 0.0 && serie[n - 1].Value? ==> last == Some(Place(origin, advance, n - 1, serie[n - 1].x, o)))
      && (o.curve == 0.0 && serie[n - 1].Value? ==> last == SerieRun(serie, n - 1, origin, advance, o, last0).1)
  {
    SerieRunStep(serie, n - 1, origin, advance, o, last0);
  }

  /** The command a drawn sample starts with: `M` for the first sample; with curves on, `M`
      after a gap and `C` after a drawn sample; with curves off, `L`, so a gap is bridged. */
  function ExpectedCommand(serie: seq<Sample>, i: int, o: LineOptions): string
    requires 0 <= i < |serie|
  {
    if i == 0 then "M"
    else if o.curve != 0.0 then (if serie[i - 1].Null? then "M" else "C")
    else "L"
  }

  lemma CommandChoice(serie: seq<Sample>, i: nat, origin: Point, advance: real, o: LineOptions, last0: Option<Point>)
    requires i < |serie| && serie[i].Value? && o.step != 0.0
    ensures var run := SerieRun(serie, i, origin, advance, o, last0);
      var p := Place(origin, advance, i, serie[i].x, o);
      ValueTokens(serie, i, p, run.1, o)[0] == Command(ExpectedCommand(serie, i, o))
  {
    if i > 0 {
      LastAfterSample(serie, i, origin, advance, o, last0);
    }
  }

  /** On evenly spaced values both differences are twice the step between values: the doubled
      last difference that stands in for a missing or zero neighbour is what that neighbour would
      have given, so both control points get the same offset. */
  lemma StraightLineDifferences(serie: seq<Sample>, i: int, a: real, delta: real)
    requires 1 <= i < |serie|
    requires forall j :: i - 2 <= j <= i + 1 && 0 <= j < |serie| ==> serie[j] == Value(a + j as real * delta)
    ensures BackDifference(serie, i) == -2.0 * delta
    ensures ForwardDifference(serie, i) == -2.0 * delta
  {
    var ym1, y0 := a + (i - 1) as real * delta, a + i as real * delta;
    assert serie[i - 1] == Value(ym1) && serie[i] == Value(y0);
    assert ym1 - y0 == -delta;
    if i >= 2 {
      assert serie[i - 2] == Value(a + (i - 2) as real * delta);
      assert (a + (i - 2) as real * delta) - y0 == -2.0 * delta;
    }
    if i + 1 < |serie| {
      assert serie[i + 1] == Value(a + (i + 1) as real * delta);
      assert ym1 - (a + (i + 1) as real * delta) == -2.0 * delta;
    }
  }

  /** What ico.js:605 computes: vertical deltas are unchanged, the first horizontal delta is
      the intended one, but the second holds a single component, so the second control point's
      `y - d[1][1]` reads an undefined element (NaN in the path). */
  lemma AsWrittenSecondDelta(serie: seq<Sample>, i: int, o: LineOptions)
    requires 1 <= i < |serie| && o.step != 0.0
    ensures var d := ControlDeltasAsWritten(serie, i, o); var (c0, c1) := ControlDeltas(serie, i, o);
      && (!o.horizontal ==> d == [[c0.x, c0.y], [c1.x, c1.y]])
      && (o.horizontal ==> d[0] == [c0.x, c0.y] && |d[1]| == 1)
  {}

  /** The intended horizontal deltas are the vertical ones turned a quarter: the value-axis
      offset moves to x and the category offset `w` becomes `-w` on y, for both control points. */
  lemma ControlDeltasSwapped(serie: seq<Sample>, i: int, o: LineOptions)
    requires 1 <= i < |serie| && o.step != 0.0
    ensures var (h0, h1) := ControlDeltas(serie, i, o.(horizontal := true));
      var (v0, v1) := ControlDeltas(serie, i, o.(horizontal := false));
      && h0 == Point(v0.y, -v0.x) && h1 == Point(v1.y, -v1.x)
      && v0.x == v1.x == o.curve
  {
    SlopesOrientation(serie, i, o, true);
    SlopesOrientation(serie, i, o, false);
  }

  /** The slopes do not depend on the orientation. */
  lemma SlopesOrientation(serie: seq<Sample>, i: int, o: LineOptions, horizontal: bool)
    requires 1 <= i < |serie| && o.step != 0.0
    ensures Slopes(serie, i, o.(horizontal := horizontal)) == Slopes(serie, i, o)
  {
    var h := o.(horizontal := horizontal);
    assert Curvature(h) == Curvature(o);
    assert Slopes(serie, i, h).0 == Slopes(serie, i, o).0;
    assert Slopes(serie, i, h).1 == Slopes(serie, i, o).1;
  }

  /** A leading gap: `draw_value` writes a moveto only for sample 0, so with curves off the
      path begins with a lineto at the first value; with curves on, the `last` reset by the gap
      makes it begin with a moveto. */
  lemma LeadingGap(v: real, origin: Point, advance: real, o: LineOptions, last0: Option<Point>)
    requires o.step != 0.0
    ensures var path := PathText(SerieRun([Null, Value(v)], 2, origin, advance, o, last0).0);
      |path| >= 1 && path[0] == (if o.curve == 0.0 then 'L' else 'M')
  {
    var serie := [Null, Value(v)];
    var p := Place(origin, advance, 1, v, o);
    SerieRunStep(serie, 0, origin, advance, o, last0);
    SerieRunStep(serie, 1, origin, advance, o, last0);
    var tokens := ValueTokens(serie, 1, p, None, o);
    assert SerieRun(serie, 2, origin, advance, o, last0).0 == [] + tokens;
    assert [] + tokens == tokens;
    PathTextForwards(tokens);
  }
}
