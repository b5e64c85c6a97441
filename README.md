# ico.js layout engine

Ico is a small chart library (sparklines, sparkbars, bullet graphs, line graphs and vertical or
horizontal bar graphs). All drawing goes through Raphael, but behind it sits a deterministic layout
and scaling engine, and that engine is what this project models:

- the numeric helpers: significant-digit rounding with a pluggable floor, ceil, round or "nice"
  rounding, including the string mode that strips trailing zeros; `Ico.root`; and the metric
  suffix and units of `format_value`;
- the SVG path serialiser `Ico.svg_path`;
- series normalisation (`set_series`), the rounded data envelope (`series_min_max`), the
  zero-anchoring heuristic (`adjust_min_max`) and the way the `min`/`max` options widen the domain;
- the value-label tick planner: `calculate_value_labels_params`, including its "nice number"
  table, and the waste-minimising search in `ValueLabels.calculate` that builds padded,
  suffixed labels;
- chart geometry: axis lengths, start and stop, `scale`, category `step`, bar sizing, `plot`,
  per-kind `label_slots_count`, the `graph.x`/`graph.y` orientation swap, and the axis-parallel
  branch of `Labels.calculate_labels_padding`;
- the component registry with fault isolation: layer buckets, option normalisation in
  `Component.initialize`, and `components_call`;
- line path construction (`BaseGraph.draw_serie`, `LineGraph.draw_value`), which chooses between
  `M`, `C` and `L` and keeps its state in `last`;
- the visibility state machine of `get_serie`, `toggle_serie`, `show_serie` and `hide_serie`.

JavaScript numbers are modelled as Dafny reals with exact floor, ceiling and rounding.
`Math.round(x)` is ⌊x + ½⌋. `Math.floor(Math.log(|v|) / Math.LN10)` is the unique integer p with
10^p ≤ |v| < 10^(p+1) (`Numbers.Exponent`).

Module layout:

| file | module | content |
|---|---|---|
| wrappers.dfy | Wrappers | `Option` and `Result` |
| numbers.dfy | Numbers | powers of ten, `Exponent`, `Root`, `SignificantDigitsRound`, `NiceCeil` |
| decimal.dfy | Decimal | decimal text of integers, and reading decimal text back |
| string_mode.dfy | StringMode | the string branch of `significant_digits_round` |
| format.dfy | Format | `format_value`, and reading a formatted value back |
| svg_path.dfy | SvgPath | `svg_path` |
| series.dfy | Series | `set_series`, `series_min_max`, `adjust_min_max`, the option domain |
| tick_planner.dfy | TickPlanner | `calculate_value_labels_params` and the waste search |
| value_labels.dfy | ValueLabels | label precision padding and `ValueLabels.calculate` |
| line_path.dfy | LinePath | `draw_serie` and `LineGraph.draw_value` |
| registry.dfy | Registry | component registration, `Component.initialize` and `components_call` |
| chart.dfy | Chart | the chart object: domain, geometry, bars, label padding, serie visibility |

## Model

| member | source | states |
|---|---|---|
| Numbers.Exponent | ico.js:15 | the decimal exponent p of a non-zero v satisfies 10^p ≤ \|v\| < 10^(p+1) |
| Numbers.ExponentUnique | ico.js:15 | that exponent is the only integer with this property |
| Numbers.Root | ico.js:43-45 | `Ico.root(v, 10)` and `Ico.root(v, 1000)` give the q with base^q ≤ \|v\| < base^(q+1) |
| Numbers.RootThousandUnique | ico.js:43-45 | the exponent in base 1000 is unique |
| Numbers.FlushThreshold | ico.js:16 | the "p10 < -14" flush happens exactly when \|v\| < 10^-14 |
| Numbers.NiceCeil | ico.js:1012-1021 | the nice rounding is ≥ its input. Up to 10 it is the ceiling. From 11 to 12 it is 12. From 13 to 54 it is a multiple of 5 in [ceiling, ceiling + 5), so the least one. Above that it is a multiple of 10 in [ceiling, ceiling + 10) |
| Numbers.SignificantDigitsRoundFloor | ico.js:11-40 | with `Math.floor` the result r satisfies r ≤ v < r + one unit of the last kept digit. A flushed value gives 0 |
| Numbers.SignificantDigitsRoundCeil | ico.js:11-40 | with `Math.ceil`: r − unit < v ≤ r, and a flushed value gives 0 |
| Numbers.SignificantDigitsRoundNearest | ico.js:11-40 | with `Math.round`, r lies within half a unit of v. A flushed value gives 0 |
| Numbers.SignificantDigitsRoundNice | ico.js:11-40 | with the nice rounding of the tick planner the result is ≥ v |
| Numbers.SignificantDigitsRoundShape | ico.js:11-40 | the result keeps the sign of v. It is a whole number of units, with between 10^(digits−1) and 10^digits units |
| Numbers.ExtendedSignificantDigitsRound | ico.js:12 | ±∞ are returned unchanged and 0 stays 0. Floor does not go above v and ceil does not go below it |
| Numbers.RoundExamples | ico.js:11-40 | 1234 at 2 digits gives 1200, −1234 gives −1200, and 0 gives 0 |
| StringMode.StripTrailingZeros | ico.js:21-26 | the zero-stripping `while` loop computes the recursive StripZeros of the units and exponent |
| StringMode.SignificantDigitsRoundText | ico.js:11-40 | the string mode (with its loop) computes SignificantText |
| StringMode.SignificantTextValue | ico.js:20-39 | the value SignificantText stands for is exactly the numeric rounding |
| StringMode.RoundedTextValue | ico.js:20-39 | the decimal text string mode produces reads back as the numeric rounding |
| StringMode.BelowOneText | ico.js:28-30 | a non-zero rounded value below 1 is written as "0." or "-0." followed by digits |
| Decimal.IntToStringRoundTrip | ico.js:27 | the decimal text of an integer parses back to it |
| Decimal.IntToStringDecimal | ico.js:27 | the decimal text of an integer is read as that integer's value |
| Decimal.ParsePointed | ico.js:33 | "a.b" is read as a + b / 10^\|b\| |
| Format.SuffixRoundTrip | ico.js:268 | the suffix of p1000 (k, M, G … or e3p) reads back as p1000 |
| Format.UnitsRoundTrip | ico.js:269-271 | units placed before or after the value can be stripped off again, leaving the number text |
| Format.ReadSuffixed | ico.js:267-272 | number text plus suffix plus units reads back as its value times 1000^p1000 |
| Format.FormatNumberValue | ico.js:261-273 | `format_value(v)` reads back as v rounded to 3 significant digits in its power of 1000, times that power; 0 reads as 0 |
| Format.FormatLabelValue | ico.js:261-273 | `format_value(l, p1000)` on a label reads back as the label's value times 1000^p1000 |
| Format.MantissaRange | ico.js:264-265 | after dividing by 1000^root(v, 1000), the mantissa lies in [1, 1000) |
| SvgPath.SvgPathText | ico.js:47-60 | the accumulating loop with its `previous_isNumber` flag computes PathText |
| SvgPath.PathTextSplit | ico.js:47-60 | the text of a concatenation is the text of the first part followed by the second part, rendered with the carried flag |
| SvgPath.PathTextConcat | ico.js:47-60 | two paths joined at a command token serialise to the concatenation of their texts |
| SvgPath.PathTextExample | ico.js:47-60 | ['M',1.4,2.6,'L',3,4] gives "M1 3L3 4" |
| Series.HashValues | ico.js:127-131 | the hash form keeps the series in key order |
| Series.NormalizeSeriesShape | ico.js:120-136 | only unsupported input throws. A number gives [[n]]. A flat array becomes one series. Nested input keeps its samples, and a hash keeps each value list |
| Series.DataSamplesIsLongest | ico.js:137 | `data_samples` is the length of the longest series |
| Series.MinValue | ico.js:81 | `Math.min` over the samples is a lower bound that is attained |
| Series.MaxValue | ico.js:82 | `Math.max` over the samples is an upper bound that is attained |
| Series.FlattenMember | ico.js:78 | every sample of every series is in the flattened values |
| Series.FlattenEmpty | ico.js:78-79 | the flattened values are empty exactly when every series is empty |
| Series.SeriesMinMaxEmpty | ico.js:77-80 | `series_min_max` throws exactly when there is no value |
| Series.RoundedBoundsOrdered | ico.js:80-83 | floor-rounding the smaller bound and ceil-rounding the larger keeps them ordered |
| Series.SeriesEnvelope | ico.js:77-88 | the floor-rounded minimum is ≤ every value and the ceil-rounded maximum is ≥ every value, unless it was flushed to 0 |
| Series.SeriesAdjusted | ico.js:85 | without `dont_adjust` the envelope goes through `adjust_min_max` |
| Series.AdjustMinMaxWidens | ico.js:62-75 | for min ≤ max: the new min is ≤ min and the new max is ≥ max. At most one bound moves, and the range at most doubles |
| Series.AdjustMinMaxShowsZero | ico.js:62-75 | zero is inside the new domain unless the range is smaller than min or smaller than −max |
| Series.AdjustMinMaxExamples | ico.js:62-75 | (5,50)→(0,50), (2,3)→(1.5,3), (−5,−1)→(−5,0), (−50,−5)→(−50,0), (−3,−2)→(−3,−1.5) |
| Series.WidenDomainContains | ico.js:166-167 | the options can only widen the domain. Each bound is the old one or the option's |
| TickPlanner.SpacesAbove | ico.js:1004-1009 | when the domain straddles zero, the spaces above zero are clamped to [1, spaces−1] |
| TickPlanner.StraddleRatio | ico.js:1011 | the ratio covers both max / spaces above and −min / spaces under |
| TickPlanner.StraddleParams | ico.js:1002-1031 | straddling zero: the new domain contains the old one and has a tick at 0. spaces·step = the new range, and waste = spaces·step − range ≥ 0 |
| TickPlanner.OneSidedParams | ico.js:1025-1030 | one-sided: the new domain contains the old one and the bound nearer zero stays. spaces·step = the new range, waste ≥ 0 |
| TickPlanner.ChooseSpaces | ico.js:958-966 | the search returns a count in 2..max_spaces whose waste is ≤ the range and minimal, the largest count among ties. If no count is ≤ the range, it returns max_spaces |
| ValueLabels.TickTexts | ico.js:982-987 | spaces+1 labels, the i-th being the 3-digit string rounding of min + i·step |
| ValueLabels.MaxFraction | ico.js:984-985 | the precision is the longest fractional part among the labels |
| ValueLabels.BuildLabels | ico.js:982-996 | the two label loops compute FormattedLabels |
| ValueLabels.PadKeepsValue | ico.js:990-994 | padding a label with zeros keeps its value and extends its fraction to the precision, adding at most 4 digits |
| ValueLabels.LabelTextDecimal | ico.js:982-986 | each label text is decimal text whose value is the 3-digit rounding of its tick |
| ValueLabels.LabelReadsBack | ico.js:989-996 | a padded, suffixed label reads back as its rounded tick times 1000^p1000 |
| ValueLabels.FormattedLabelsRead | ico.js:982-996 | every label reads back as its rounded tick. A label within 4 digits of the precision is padded to exactly that precision |
| ValueLabels.SettleSpaces | ico.js:938-968 | a given `spaces` option is kept. An estimate of at most 2 is used as it is. Otherwise the search picks a least-waste count in 2..estimate |
| ValueLabels.StepPositive | ico.js:969 | the chosen parameters have a positive step and contain the domain |
| ValueLabels.ScaledLabels | ico.js:972-996 | p1000 is `root(step·spaces, 1000)`. The labels are built from min and step divided by 1000^p1000 |
| ValueLabels.CalculateValueLabels | ico.js:936-998 | the spaces are settled. The parameters are those of `calculate_value_labels_params`, with a positive step and a domain containing the old one. The labels are built as above |
| LinePath.LinePen.DrawValue | ico.js:569-619 | the path text of one sample is PathText of its tokens, and `last` moves to the point when curve_amount ≠ 0 |
| LinePath.LinePen.DrawSerie | ico.js:510-527 | the loop over samples yields the path text and final `last` of SerieRun |
| LinePath.SerieRunStep | ico.js:515-525 | a null sample resets `last` and emits nothing. A value appends its tokens at its placed point |
| LinePath.LastAfterSample | ico.js:517-618 | after a null, `last` is null. After a value it is that point when curving, and unchanged when straight |
| LinePath.CommandChoice | ico.js:592-618 | sample 0 gives `M`. With curve_amount ≠ 0, a sample after a null gives `M` and others give `C`. With curve_amount = 0 every later sample gives `L`, so gaps are bridged |
| LinePath.ValueTokens | ico.js:592-618 | each sample's tokens start with a command |
| LinePath.StraightLineDifferences | ico.js:598-603 | on samples in arithmetic progression both control differences are −2·delta |
| LinePath.LeadingGap | ico.js:592-615 | a series starting with a null: with `curve_amount` 0 its path begins with `L` at the first value, since only sample 0 gets `M`; with curves on it begins with `M`, since the null reset `last` |
| LinePath.AsWrittenSecondDelta | ico.js:605 | in horizontal orientation the as-written control deltas lose the second delta's y part (a one-element array) |
| LinePath.ControlDeltasSwapped | ico.js:598-605 | in horizontal orientation both control deltas are the vertical ones with their parts exchanged and the category part negated |
| Registry.Registered | ico.js:702-1089 | ten registered components, each with a layer below 6 |
| Registry.InitializeOptions | ico.js:683-686 | an array becomes `values`, a number or a string becomes `value`, and an object extends the defaults |
| Registry.NormalizeAsWrittenDiffers | ico.js:684 | the code as written agrees with the intended normalisation except on strings, which it leaves unwrapped, so `value` stays unset |
| Registry.Host.Register | ico.js:184-196 | registration substitutes a literal `true` with `<key>_attributes`, fills each layer's bucket and records the last constructor error |
| Registry.Host.ScanRegistration | ico.js:185-194 | one registration keeps the scan's invariant: the options substituted for the keys scanned so far, each bucket holding the scanned components of its layer that are enabled and did not throw, and `error` the last constructor failure |
| Registry.BucketMembership | ico.js:184-191 | a key is in a layer's bucket iff it is registered for that layer, its option is truthy and its constructor does not throw |
| Registry.BucketLayer | ico.js:188-191 | every component in a bucket belongs to that bucket's layer |
| Registry.DefiningShape | ico.js:315-319 | within a layer, exactly the components that define the method are called, in bucket order |
| Registry.CallsComplete | ico.js:312-321 | every call is to a component of its layer that defines the method, and every such component is called |
| Registry.CallsInLayerOrder | ico.js:313-314 | calls are made in ascending layer order |
| Registry.FailedCalls | ico.js:320-322 | a call fails exactly when the component throws for that method |
| Registry.AnnotationsStacked | ico.js:322-324 | the k-th failure is annotated at y = 12·(earlier errors + k + 1) |
| Registry.Host.ComponentsCall | ico.js:312-332 | the trace is every call in layer order. `errors` grows by the number of failures, each failure adds a stacked annotation, and `error` is the last failure's |
| Registry.Host.CallGuarded | ico.js:318-328 | one guarded call extends the trace. A throwing call increments `errors`, adds its line at 12·errors and becomes the last error, so the failures are exactly the throwing calls |
| Chart.Domain | ico.js:162-168 | the domain contains the envelope and the option bounds. A BaseGraph kind widens the zero-anchored envelope (`adjust_min_max`, ico.js:497-500); a bullet graph widens the unanchored envelope to its options, defaulting to [0, 100]; the spark kinds widen the unanchored envelope |
| Chart.DomainShowsZero | ico.js:496-501 | a BaseGraph domain contains 0 unless the data lies farther from zero than its range |
| Chart.DomainAnchoring | ico.js:496-501 | data (5, 50): a line graph gets (0, 50), a spark line (5, 50), a bullet graph (0, 100), or (5, 100) with `min` 10 |
| Chart.Chart.constructor | ico.js:162-182 | sets the domain and the orientation. `graph.x`/`graph.y` are the physical axes swapped by orientation, sparkline padding is added, and bar graphs default `bar_padding` to 5 |
| Chart.PlotEnds | ico.js:334-336 | `plot` maps min to 0 and max to y_direction·len, and is monotone |
| Chart.Chart.CalculateGraph | ico.js:225-249 | len = width − paddings, scale = y_direction·len / range, and step·slots = len on `graph.x`. x runs start→stop from its first padding, and y runs from its first padding downwards. Paddings, widths and `graph.y.step` are kept |
| Chart.BarWidth | ico.js:252-253 | `bar_width` is step − bar_padding, but at least 5 |
| Chart.BarBaseAtZero | ico.js:254-258 | `bar_base` is the pixel of 0 clamped into [min, max] |
| Chart.Chart.CalculateBars | ico.js:251-259 | sets start_offset to half a step, the bar base and the bar width, leaving the rest of the layout unchanged |
| Chart.Chart.SizeBars | ico.js:252-258 | the bar base is the pixel of zero clamped into [min, max], and the bar width is the step less `bar_padding`, at least 5 |
| Chart.Chart.CenterBars | ico.js:254 | start_offset becomes y_direction·step/2 on the category axis. The layout invariant holds and the value axis is unchanged |
| Chart.Chart.Calculate | ico.js:225-259 | lays out the graph as CalculateGraph does, keeping paddings, widths and `graph.y.step`. Bar kinds then get their bars and start_offset; other kinds keep their bar fields and start_offset. A bullet graph without `bar_padding` gets 2/3 of the x length |
| Chart.GrowPadding | ico.js:857-862 | `add_padding` adds the margin, otherwise the padding is raised to it |
| Chart.LabelSide | ico.js:857 | labels along the x axis pad the bottom and along the y axis the left. `options.position` flips the side |
| Chart.Placed | ico.js:247-248 | len = width − paddings. x starts at its first padding, and y stops there |
| Chart.StepAxis | ico.js:998 | the value axis step times the spaces is its length |
| Chart.WithPadding | ico.js:857-862 | one padding side changes and the other is kept |
| Chart.Chart.CalculateLabelsPadding | ico.js:848-862 | parallel labels get offset 0.6·font + marker and anchor "middle". The other axis's chosen padding side grows by 1.1·font + marker |
| Chart.Chart.CalculateValueLabels | ico.js:936-998 | settles the spaces (the option, an estimate of at most 2 as it is, or a least-waste count) and writes the planned min, max and range back, which contain the old domain. The value axis gets its length and step = len / spaces |
| Chart.Chart.GetSerie | ico.js:292-296 | returns the entry exactly for an existing serie, otherwise throws "Undefined serie" |
| Chart.Chart.DrawSeries | ico.js:282-290 | every drawn serie gets a visible, shown record; a bullet graph instead stores the bare path of its value (ico.js:456-460), with no `shape` and `visible` undefined |
| Chart.Chart.ToggleSerie | ico.js:298-300 | flips a record's visibility and no other. On a bare path it stores 1 (or 0) in `visible` and then throws on the missing `shape`. An unknown serie throws with nothing changed |
| Chart.Chart.ShowSerie | ico.js:302-305 | makes a record visible. A bare path or an unknown serie throws with nothing changed |
| Chart.Chart.HideSerie | ico.js:307-310 | makes a record hidden. A bare path or an unknown serie throws with nothing changed |
| Chart.ToggleTwice | ico.js:298-300 | toggling a record twice restores its visibility; a bullet's bare path is left with `visible` 0 |

## Left out

- Everything Raphael draws (paths, text, rectangles, circles, attributes, show/hide, rotation). It is replaced by the path text and state it would receive. The "shown" state of a serie record is kept equal to its `visible` flag; a bare path stays shown.
- Text measurement (`text_size`, `get_labels_bounding_boxes`, `getBBox`). The label font height, the marker size and the estimated number of spaces are inputs.
- DOM reads and event wiring (`getStyle`, `get_font`, the mouse observers, `show_label_onmouseover`, `set_raphael`, including its call in the catch of `components_call`).
- Rotated-label trigonometry and the VML offsets of `calculate_labels_padding`: floating-point sin and cos. Only the axis-parallel branch is modelled.
- Random colours, gradients and colour strings: presentation only.
- `Ico.moving_average`: no chart kind calls it.
- IEEE-754 arithmetic, NaN, and JavaScript's exponent notation in `toString` for very large or small numbers. Numbers are exact reals.
- Numbers.Root: only bases 10 and 1000 are modelled, the only ones the engine uses.
- Series: a null sample counts as 0 in `Math.min`/`Math.max`, as `Number(null)` does.
- Series.NormalizeSeries: the first element decides between flat and nested input. A mixed array is not modelled.
- The `highlight` option of sparklines, the bullet graph's `target`, and the drawing in `draw_series` of the bullet graph. Only the bare path it stores in `series_shapes[0]` is modelled.
- Registry: component classes are abstract. Each is a registered key with its layer, the methods it defines, and whether its constructor or a given method throws. Their `defaults` and `process_options` bodies and drawing effects are not modelled.
- Registry: a thrown error is recorded by the throwing component's key, not by the message.
- Registry: `Object.extend` with a string is not modelled, since after the correction a string is always wrapped.
- Registry.Host.Register: a layer with no component is an empty bucket, where the code leaves `undefined` that `components_call` skips. The effect is the same.
- Chart: the aliasing of `graph.x`/`graph.y` to the physical axes is modelled by selecting the axis by orientation (`GraphX`, `GraphY`), not by shared references.
- Chart.Chart.Calculate: requires min < max and a slot count of at least 1. On a range of 0 or a single-sample line graph the code divides by 0 and gets Infinity or NaN. The components' own `calculate` calls that precede the layout are modelled separately (`Registry.Host.ComponentsCall`, `Chart.Chart.CalculateLabelsPadding`, `Chart.Chart.CalculateValueLabels`) rather than composed into it.
- Chart.Chart.CalculateBars: `bar_width` is left unset (None) when there is no `bar_padding`, as for a sparkbar, where the code computes NaN.
- Chart.Chart.CalculateValueLabels: requires at least 1 space (2 when the domain straddles zero), and a range of at least 10^-14 per space. Below that the code divides by 0 or flushes the step to 0. The final call of `calculate_labels_padding` for the value axis is modelled by `Chart.Chart.CalculateLabelsPadding` only when the value labels are parallel to their axis, that is when `angle % 180` is 0 for the axis angle plus the option (ico.js:816, 826). The default vertical chart starts its value axis at −90, which takes the rotated branch that is not modelled.
- TickPlanner.ValueLabelsParams: requires spaces ≥ 1, and ≥ 2 when straddling zero, for the same reason.
- TickPlanner.StraddleParams: requires that the per-side ratio is not flushed to 0 by the rounding (below 10^-14).
- TickPlanner.OneSidedParams: requires that range / spaces is not flushed to 0 by the rounding (below 10^-14).
- StringMode.SignificantDigitsRoundText: requires at least 1 significant digit. With 0 digits the stripping loop of the code can run forever on 0 units.
- A degenerate domain (a constant series, range 0) is not special-cased: the model follows the code, which has no such case.

## Findings

| source | as written | input that shows it | evidently intended | confidence | as-written member | corrected member |
|---|---|---|---|---|---|---|
| ico.js:684 | `Object.isNumber( options \|\| Object.isString( options ) )` wraps only numbers: for a truthy string the argument is the string itself, which is not a number | a component option given as a string, e.g. `'abc'` | a number or a string is wrapped as `{ value: options }` | not executed | Registry.NormalizeAsWrittenDiffers | Registry.InitializeOptions |
| ico.js:605 | in horizontal orientation `d = [[d[0][1], -w], [d[1][0]], -w]` builds a one-element second delta (the bracket closes early) and drops its y part | a horizontal line graph with `curve_amount` ≠ 0 and at least two samples | `[[d[0][1], -w], [d[1][1], -w]]`, both deltas swapped | not executed | LinePath.AsWrittenSecondDelta | LinePath.ControlDeltasSwapped |
