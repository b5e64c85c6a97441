/** The value labels of `Ico.Component.ValueLabels.calculate` (ico.js:936-998): one label per
    tick of the planned domain, written to three significant digits, padded to a common number
    of decimals and given the metric suffix of the planner's power of 1000. */
module ValueLabels {
  import opened Wrappers
  import opened Numbers
  import opened Decimal
  import opened StringMode
  import opened Format
  import opened TickPlanner

  /** `(l + '.').split('.')[1].length`: the length of the text between the first point and the
      next one (or the end), 0 when there is no point. */
  function FractionLength(l: string): nat
  {
    var i := FindDot(l);
    if i == |l| then 0 else FindDot(l[i + 1..])
  }

  /** The padding of ico.js:990-994: a label with fewer decimals than `precision` gets a point if
      it has none, then `'0000'.substring(0, precision - len)`. */
  function Pad(l: string, precision: int): string
  {
    var len := FractionLength(l);
    if len < precision then (if len == 0 then l + "." else l) + Prefix("0000", precision - len)
    else l
  }

  /** `significant_digits_round(label, 3, Math.round, true).toString()`. */
  function LabelText(x: real): string
  {
    RoundedText(SignificantText(x, 3, Round))
  }

  /** The i-th tick of a domain starting at min. */
  function Tick(min: real, step: real, i: int): real { min + i as real * step }

  /** `label += step` moves to the next tick. */
  lemma TickSucc(min: real, step: real, i: int)
    ensures Tick(min, step, 0) == min
    ensures Tick(min, step, i) + step == Tick(min, step, i + 1)
  {}

  /** The unpadded label of each tick, i = 0 .. spaces. */
  function TickTexts(min: real, step: real, spaces: nat): (r: seq<string>)
    ensures |r| == spaces + 1
    ensures forall i :: 0 <= i <= spaces ==> r[i] == LabelText(Tick(min, step, i))
  {
    hide LabelText, Tick;
    seq(spaces + 1, i requires 0 <= i <= spaces => LabelText(Tick(min, step, i)))
  }

  /** The longest fraction among the labels (the `precision` of ico.js:981-985). */
  function MaxFraction(ls: seq<string>): (r: nat)
    ensures forall i :: 0 <= i < |ls| ==> FractionLength(ls[i]) <= r
    ensures r == 0 || exists i :: 0 <= i < |ls| && FractionLength(ls[i]) == r
  {
    if ls == [] then 0
    else
      var init := ls[..|ls| - 1];
      var rest := MaxFraction(init);
      assert forall i :: 0 <= i < |init| ==> ls[i] == init[i];
      var last := FractionLength(ls[|ls| - 1]);
      if last > rest then last else rest
  }

  /** The labels `calculate` stores in `options.values`. */
  function FormattedLabels(min: real, step: real, spaces: nat, p1000: int, o: UnitsOption): (r: seq<string>)
    ensures |r| == spaces + 1
  {
    var texts := TickTexts(min, step, spaces);
    var precision := MaxFraction(texts);
    seq(spaces + 1, i requires 0 <= i <= spaces => FormatLabel(Pad(texts[i], precision), p1000, o))
  }

  /** The two label loops of ico.js:982-996: the first writes each tick, accumulating
      `label += step`, and records the longest fraction; the second pads and formats each label
      in place. */
  method BuildLabels(min: real, step: real, spaces: nat, p1000: int, o: UnitsOption)
    returns (labels: seq<string>)
    ensures labels == FormattedLabels(min, step, spaces, p1000, o)
  {
    hide LabelText, FractionLength, Pad, FormatLabel, Tick;
    labels := [];
    var precision := 0;
    TickSucc(min, step, 0);
    var tick := min;
    var i := 0;
    while i <= spaces
      invariant 0 <= i <= spaces + 1 && |labels| == i
      invariant tick == Tick(min, step, i)
      invariant forall j :: 0 <= j < i ==> labels[j] == LabelText(Tick(min, step, j))
      invariant precision == MaxFraction(labels)
    {
      var l := LabelText(tick);
      var len := FractionLength(l);
      assert (labels + [l])[..i] == labels;
      if len > precision {
        precision := len;
      }
      labels := labels + [l];
      TickSucc(min, step, i);
      tick := tick + step;
      i := i + 1;
    }
    var texts := labels;
    assert texts == TickTexts(min, step, spaces);
    for k := 0 to |labels|
      invariant |labels| == |texts|
      invariant forall j :: 0 <= j < k ==> labels[j] == FormatLabel(Pad(texts[j], precision), p1000, o)
      invariant forall j :: k <= j < |labels| ==> labels[j] == texts[j]
    {
      labels := labels[k := FormatLabel(Pad(labels[k], precision), p1000, o)];
    }
  }

  /** The number of spaces `calculate` settles on (ico.js:938-969): the `spaces` option when
      set, else the estimate from the label size, searched for the least waste when above 2. */
  method SettleSpaces(min: real, max: real, optionSpaces: int, estimate: int) returns (spaces: int)
    ensures optionSpaces != 0 ==> spaces == optionSpaces
    ensures optionSpaces == 0 && estimate <= 2 ==> spaces == estimate
    ensures optionSpaces == 0 && estimate > 2 ==> LeastWaste(min, max, estimate, spaces)
    ensures optionSpaces == 0 && estimate > 2 ==> 2 <= spaces <= estimate
  {
    spaces := optionSpaces;
    if spaces == 0 {
      spaces := estimate;
      if spaces > 2 {
        spaces := ChooseSpaces(min, max, spaces);
      }
    }
  }

  /** The span of the planned domain, whose power of 1000 scales the labels. */
  function Extent(p: LabelParams): (e: real)
    ensures p.step > 0.0 && p.spaces >= 1 ==> e > 0.0
  {
    p.step * p.spaces as real
  }

  /** The power of 1000 of the planned extent, `Ico.root(params.step * params.spaces, 1000)` (ico.js:972). */
  function LabelsPower(p: LabelParams): int
    requires p.step > 0.0 && p.spaces >= 1
  {
    Root(Extent(p), 1000)
  }

  /** The labels of a planned domain: its ticks divided by the power of 1000 of its extent,
      then formatted (ico.js:972-996). */
  function PlannedLabels(p: LabelParams, o: UnitsOption): (r: seq<string>)
    requires p.step > 0.0 && p.spaces >= 1
    ensures |r| == p.spaces + 1
  {
    var q := LabelsPower(p);
    FormattedLabels(p.min / Pow10(3 * q), p.step / Pow10(3 * q), p.spaces, q, o)
  }

  /** `calculate` from the domain on (ico.js:969-996): the chosen number of spaces, the planned
      domain, the power of 1000 of its extent, and the labels of the ticks scaled by that power. */
  method CalculateValueLabels(min: real, max: real, optionSpaces: int, estimate: int, o: UnitsOption)
    returns (params: LabelParams, p1000: int, labels: seq<string>)
    requires min < max
    requires var n := if optionSpaces != 0 then optionSpaces else estimate;
      n >= 1 && (Straddles(min, max) ==> n >= 2) && max - min >= Pow10(-14) * n as real
    ensures optionSpaces != 0 ==> params.spaces == optionSpaces
    ensures optionSpaces == 0 && estimate <= 2 ==> params.spaces == estimate
    ensures optionSpaces == 0 && estimate > 2 ==> LeastWaste(min, max, estimate, params.spaces)
    ensures params.spaces >= 1 && (Straddles(min, max) ==> params.spaces >= 2)
    ensures params == ValueLabelsParams(min, max, params.spaces)
    ensures params.step > 0.0 && params.min <= min && max <= params.max
    ensures p1000 == LabelsPower(params) && labels == PlannedLabels(params, o)
  {
    hide *;
    var spaces := SettleSpaces(min, max, optionSpaces, estimate);
    StepPositive(min, max, spaces, if optionSpaces != 0 then optionSpaces else estimate);
    params := ValueLabelsParams(min, max, spaces);
    p1000, labels := ScaledLabels(params, o);
  }

  /** Scaling by the power of 1000 of the extent (ico.js:972-977), then the labels. */
  method ScaledLabels(params: LabelParams, o: UnitsOption) returns (p1000: int, labels: seq<string>)
    requires params.step > 0.0 && params.spaces >= 1
    ensures p1000 == LabelsPower(params) && labels == PlannedLabels(params, o)
  {
    hide FormattedLabels, Root, Pow10;
    p1000 := LabelsPower(params);
    var step, low := params.step, params.min;
    if p1000 != 0 {
      var dividand := Pow10(3 * p1000);
      step := step / dividand;
      low := low / dividand;
    } else {
      Pow10Zero();
      assert Pow10(3 * p1000) == 1.0;
    }
    labels := BuildLabels(low, step, params.spaces, p1000, o);
  }

  /** The planned step is positive and the domain contains the data's once range / spaces is
      not below the flush threshold, whatever the number of spaces up to n. */
  lemma StepPositive(min: real, max: real, spaces: int, n: int)
    requires min < max && 1 <= spaces <= n && (Straddles(min, max) ==> spaces >= 2)
    requires max - min >= Pow10(-14) * n as real
    ensures var p := ValueLabelsParams(min, max, spaces); p.step > 0.0 && p.min <= min && max <= p.max
  {
    PerSpace(max - min, spaces, n, Pow10(-14));
    if Straddles(min, max) {
      StraddleStepPositive(min, max, spaces);
    } else {
      OneSidedStepPositive(min, max, spaces);
    }
  }

  /** A range of at least t per space for n spaces is at least t per space for fewer. */
  lemma PerSpace(range: real, spaces: int, n: int, t: real)
    requires 1 <= spaces <= n && t > 0.0 && range >= t * n as real
    ensures range / spaces as real >= t
  {
    assert t * spaces as real <= t * n as real;
    ScaledCompare(range, spaces as real, t);
  }

  /** The one-sided case of `StepPositive`. */
  lemma OneSidedStepPositive(min: real, max: real, spaces: int)
    requires !Straddles(min, max) && min < max && spaces >= 1 && (max - min) / spaces as real >= Pow10(-14)
    ensures var p := ValueLabelsParams(min, max, spaces); p.step > 0.0 && p.min <= min && max <= p.max
  {
    OneSidedParams(min, max, spaces);
  }

  /** The straddling case of `StepPositive`. */
  lemma StraddleStepPositive(min: real, max: real, spaces: int)
    requires Straddles(min, max) && spaces >= 2 && (max - min) / spaces as real >= Pow10(-14)
    ensures var p := ValueLabelsParams(min, max, spaces); p.step > 0.0 && p.min <= min && max <= p.max
  {
    var above := SpacesAbove(min, max, spaces);
    var under := spaces - above;
    var ratio := StraddleRatio(min, max, above, under);
    RatioCoversRange(min, max, above, under, ratio);
    StraddleParams(min, max, spaces);
  }

  /** The larger per-side ratio is at least the whole range per space. */
  lemma RatioCoversRange(min: real, max: real, above: int, under: int, ratio: real)
    requires min < 0.0 < max && above >= 1 && under >= 1
    requires ratio >= max / above as real && ratio >= -min / under as real
    ensures ratio >= (max - min) / (above + under) as real && ratio > 0.0
    ensures !Flushed(ratio) || (max - min) / (above + under) as real < Pow10(-14)
  {
    assert max / above as real > 0.0;
    CoverAbove(ratio, ratio, above, max);
    CoverAbove(ratio, ratio, under, -min);
    var n := (above + under) as real;
    assert ratio * n >= max - min;
    ScaledCompare(max - min, n, ratio);
  }

  // ---------------------------------------------------------------------------------------
  // What the labels say

  /** Decimal text as string mode writes it: readable, and ending with a digit. */
  predicate DecimalText(l: string)
  {
    |l| >= 1 && IsDigit(l[|l| - 1]) && ParseDecimal(l).Some?
  }

  /** The padding cut from "0000" is zeros. */
  lemma ZeroPad(n: int)
    requires n >= 1
    ensures Prefix("0000", n) == Zeros(if n > 4 then 4 else n)
  {
    var k := if n > 4 then 4 else n;
    assert |Prefix("0000", n)| == k;
    assert forall i :: 0 <= i < k ==> Prefix("0000", n)[i] == '0';
  }

  /** A point lies after the sign, if any, of signed text. */
  lemma SignedDot(negative: bool, u: string)
    ensures FindDot(SignPrefix(negative) + u) == |SignPrefix(negative)| + FindDot(u)
  {
    if negative {
      assert (SignPrefix(negative) + u)[1..] == u;
    } else {
      assert SignPrefix(negative) + u == u;
    }
  }

  /** The length of a fraction is that of its digits. */
  lemma FractionOf(negative: bool, a: string, b: string)
    requires |a| >= 1 && AllDigits(a) && AllDigits(b)
    ensures FractionLength(SignPrefix(negative) + a + "." + b) == |b|
    ensures FractionLength(SignPrefix(negative) + a) == 0
  {
    var l := SignPrefix(negative) + a + "." + b;
    assert l == SignPrefix(negative) + (a + "." + b);
    SignedDot(negative, a + "." + b);
    DotAfterDigits(a, "." + b);
    assert a + "." + b == a + ("." + b);
    assert l[FindDot(l) + 1..] == b;
    DotAfterDigits(b, "");
    assert b + "" == b;
    SignedDot(negative, a);
    DotAfterDigits(a, "");
    assert a + "" == a;
  }

  /** A fraction followed by zeros keeps its value. */
  lemma TrailingZeros(a: string, b: string, k: nat)
    requires |a| >= 1 && AllDigits(a) && AllDigits(b)
    ensures ParseUnsigned(a + "." + (b + Zeros(k))) == ParseUnsigned(a + "." + b)
  {
    hide *;
    var z := Zeros(k);
    assert |z| == k && AllDigits(z);
    DigitsValueConcat(b, z);
    ZerosValue(k);
    ParsePointed(a, b);
    ParsePointed(a, b + z);
    var x := DigitsValue(b);
    assert DigitsValue(b + z) == x * IntPow10(k);
    CastProduct(x, IntPow10(k));
    assert |b + z| == |b| + k;
    Pow10Add(|b|, k);
    IntPow10Real(k);
    CancelFactor(x as real, Pow10(|b|), Pow10(k));
    assert DigitsValue(b + z) as real == x as real * Pow10(k);
    assert Pow10(|b + z|) == Pow10(|b|) * Pow10(k);
    assert DigitsValue(b + z) as real / Pow10(|b + z|) == x as real / Pow10(|b|);
  }

  lemma CancelFactor(x: real, q: real, z: real)
    requires q > 0.0 && z > 0.0
    ensures x * z / (q * z) == x / q
  {}

  /** The parts of signed decimal text: sign, digits before the point, digits after it. */
  lemma DecimalParts(l: string) returns (negative: bool, a: string, b: string)
    requires DecimalText(l)
    ensures |a| >= 1 && AllDigits(a) && AllDigits(b)
    ensures if b == "" then l == SignPrefix(negative) + a else l == SignPrefix(negative) + a + "." + b
    ensures ParseDecimal(l) == Some(Signed(negative, ParseUnsigned(a + "." + b).value))
    ensures ParseUnsigned(a + "." + b).Some?
  {
    negative := l[0] == '-';
    SignSplit(l);
    a, b := UnsignedParts(Unsigned(l));
    SignedPointed(SignPrefix(negative), a, b);
  }

  /** Signed text is its sign followed by unsigned text, read as the signed value. */
  lemma SignSplit(l: string)
    requires DecimalText(l)
    ensures var u := Unsigned(l); var negative := l[0] == '-';
      && l == SignPrefix(negative) + u
      && |u| >= 1 && IsDigit(u[|u| - 1]) && ParseUnsigned(u).Some?
      && ParseDecimal(l) == Some(Signed(negative, ParseUnsigned(u).value))
  {
    if l[0] == '-' {
      assert l == "-" + l[1..];
    }
  }

  /** Unsigned decimal text ending with a digit: digits, and a point and digits if any. */
  lemma UnsignedParts(u: string) returns (a: string, b: string)
    requires |u| >= 1 && IsDigit(u[|u| - 1]) && ParseUnsigned(u).Some?
    ensures |a| >= 1 && AllDigits(a) && AllDigits(b)
    ensures if b == "" then u == a else u == a + "." + b
    ensures ParseUnsigned(a + "." + b) == ParseUnsigned(u)
  {
    hide Pow10;
    var i := FindDot(u);
    a := u[..i];
    if i == |u| {
      b := "";
      assert u == a;
      ParseDigits(a);
      ParsePointed(a, "");
    } else {
      b := u[i + 1..];
      assert u == a + "." + b;
      assert u[i] == '.';
      ParsePointed(a, b);
    }
  }

  /** Padding keeps the value a label reads as and its characters, and brings its fraction to
      the precision, adding at most four zeros. */
  lemma PadKeepsValue(l: string, precision: int)
    requires DecimalText(l)
    ensures ParseDecimal(Pad(l, precision)) == ParseDecimal(l)
    ensures NumberText(l) ==> NumberText(Pad(l, precision))
    ensures var len := FractionLength(l);
      FractionLength(Pad(l, precision)) ==
        if len >= precision then len else if precision - len > 4 then len + 4 else precision
  {
    var negative, a, b := DecimalParts(l);
    FractionOf(negative, a, b);
    if FractionLength(l) < precision {
      PadGrows(l, precision, negative, a, b);
    }
  }

  lemma PadGrows(l: string, precision: int, negative: bool, a: string, b: string)
    requires |a| >= 1 && AllDigits(a) && AllDigits(b)
    requires if b == "" then l == SignPrefix(negative) + a else l == SignPrefix(negative) + a + "." + b
    requires ParseDecimal(l) == Some(Signed(negative, ParseUnsigned(a + "." + b).value))
    requires ParseUnsigned(a + "." + b).Some?
    requires FractionLength(l) == |b| < precision
    ensures var k := if precision - |b| > 4 then 4 else precision - |b|;
      && ParseDecimal(Pad(l, precision)) == ParseDecimal(l)
      && (NumberText(l) ==> NumberText(Pad(l, precision)))
      && FractionLength(Pad(l, precision)) == |b| + k
  {
    var k := if precision - |b| > 4 then 4 else precision - |b|;
    var z := Zeros(k);
    PadForm(l, precision, negative, a, b);
    DigitsValueConcat(b, z);
    hide *;
    PaddedValue(negative, a, b, k);
    FractionOf(negative, a, b + z);
  }

  /** Text with zeros after its fraction reads as the text without them. */
  lemma PaddedValue(negative: bool, a: string, b: string, k: nat)
    requires |a| >= 1 && AllDigits(a) && AllDigits(b) && ParseUnsigned(a + "." + b).Some?
    ensures ParseDecimal(SignPrefix(negative) + a + "." + (b + Zeros(k))) ==
      Some(Signed(negative, ParseUnsigned(a + "." + b).value))
  {
    var t := a + "." + (b + Zeros(k));
    assert IsDigit(a[0]);
    hide *;
    SignedPointed(SignPrefix(negative), a, b + Zeros(k));
    TrailingZeros(a, b, k);
    ParseSigned(negative, t);
  }

  lemma SignedPointed(sign: string, a: string, w: string)
    requires |a| >= 1
    ensures sign + a + "." + w == sign + (a + "." + w) && (a + "." + w)[0] == a[0]
  {}

  /** The padded text: the sign, the digits, a point, the fraction and the zeros. */
  lemma PadForm(l: string, precision: int, negative: bool, a: string, b: string)
    requires if b == "" then l == SignPrefix(negative) + a else l == SignPrefix(negative) + a + "." + b
    requires FractionLength(l) == |b| < precision
    ensures var k := if precision - |b| > 4 then 4 else precision - |b|;
      && Pad(l, precision) == SignPrefix(negative) + a + "." + (b + Zeros(k))
      && (NumberText(l) ==> NumberText(Pad(l, precision)))
  {
    var k := if precision - |b| > 4 then 4 else precision - |b|;
    ZeroPad(precision - |b|);
    var z := Zeros(k);
    var padded := (if b == "" then l + "." else l) + z;
    assert Pad(l, precision) == padded;
    PaddedText(SignPrefix(negative), a, b, z);
    PaddedChars(l, z, b == "");
  }

  /** Padding adds only number characters. */
  lemma PaddedChars(l: string, z: string, point: bool)
    requires forall i :: 0 <= i < |z| ==> z[i] == '0'
    ensures NumberText(l) ==> NumberText((if point then l + "." else l) + z)
  {
    if NumberText(l) {
      assert NumberText(z) && NumberText(".");
      NumberTextConcat(l, ".");
      NumberTextConcat(if point then l + "." else l, z);
    }
  }

  lemma NumberTextConcat(x: string, y: string)
    requires NumberText(x) && NumberText(y)
    ensures NumberText(x + y)
  {
    assert forall i :: |x| <= i < |x + y| ==> (x + y)[i] == y[i - |x|];
  }

  /** Where the padding goes: after the point that is added or after the digits already there. */
  lemma PaddedText(sign: string, a: string, b: string, z: string)
    ensures (if b == "" then sign + a + "." else sign + a + "." + b) + z == sign + a + "." + (b + z)
  {
    if b == "" {
      assert b + z == z;
    }
  }

  /** A whole number's text ends with a digit. */
  lemma IntTextEnd(i: int)
    ensures var t := IntToString(i); IsDigit(t[|t| - 1])
  {
    var n: nat := if i < 0 then -i else i;
    var s := NatToString(n);
    if i < 0 {
      assert IntToString(i) == "-" + s;
    }
  }

  /** The text `Render` writes ends with the last digit of the units count. */
  lemma RenderEnd(negative: bool, m: nat, p: int)
    requires m >= 1
    ensures var r := Render(negative, m, p); r.Text? ==> |r.s| >= 1 && IsDigit(r.s[|r.s| - 1])
  {
    var s := NatToString(m);
    var len := |s| + p;
    if len <= 0 {
      var t := SignPrefix(negative) + Prefix(ZeroTemplate, 2 - len) + s;
      assert t[|t| - 1] == s[|s| - 1];
    } else if p < 0 {
      var t := SignPrefix(negative) + s[..len] + "." + s[len..];
      assert t[|t| - 1] == s[|s| - 1];
    }
  }

  /** Every label string mode writes is decimal text made of number characters. */
  lemma LabelTextDecimal(x: real)
    ensures DecimalText(LabelText(x)) && NumberText(LabelText(x))
    ensures ParseDecimal(LabelText(x)) == Some(SignificantDigitsRound(x, 3, Round))
  {
    RoundedTextValue(x, 3, Round);
    RoundedTextChars(x, 3, Round);
    var r := SignificantText(x, 3, Round);
    if r.Number? {
      IntTextEnd(r.x.Floor);
    } else {
      hide *;
      if x == 0.0 || Exponent(x) < -14 {
        ZeroCase(x, 3, Round);
      } else {
        var p := Exponent(x) - 2;
        var k := Apply(Round, x / Pow10(p));
        if p >= 0 {
          WholeCase(x, 3, Round, p, k);
        } else {
          TextCase(x, 3, Round, p, k);
          var units: nat := if x < 0.0 then -k else k;
          var st := StripZeros(units, p);
          RenderEnd(x < 0.0, st.0, st.1);
        }
      }
    }
  }

  /** Each label, padded, suffixed and given its units, reads back as its tick rounded to three
      significant digits, times the power of 1000 of the suffix. */
  lemma LabelReadsBack(x: real, precision: int, p1000: int, o: UnitsOption)
    ensures ReadFormatted(FormatLabel(Pad(LabelText(x), precision), p1000, o), o) ==
      Some(Thousands(SignificantDigitsRound(x, 3, Round), p1000))
  {
    var l := LabelText(x);
    LabelTextDecimal(x);
    PadKeepsValue(l, precision);
    FormatLabelValue(Pad(l, precision), p1000, o);
  }

  /** The labels of `calculate`, one per tick, read back as their ticks rounded to three
      significant digits and scaled back by the power of 1000; all of them have the same number of
      decimals unless one falls more than four short of the longest. */
  lemma FormattedLabelsRead(min: real, step: real, spaces: nat, p1000: int, o: UnitsOption)
    ensures var labels := FormattedLabels(min, step, spaces, p1000, o);
      forall i :: 0 <= i <= spaces ==>
        ReadFormatted(labels[i], o) == Some(Thousands(SignificantDigitsRound(Tick(min, step, i), 3, Round), p1000))
    ensures var texts := TickTexts(min, step, spaces);
      var precision := MaxFraction(texts);
      forall i :: 0 <= i <= spaces && FractionLength(texts[i]) + 4 >= precision ==>
        FractionLength(Pad(texts[i], precision)) == precision
  {
    var texts := TickTexts(min, step, spaces);
    var precision := MaxFraction(texts);
    forall i | 0 <= i <= spaces
      ensures ReadFormatted(FormattedLabels(min, step, spaces, p1000, o)[i], o) ==
        Some(Thousands(SignificantDigitsRound(Tick(min, step, i), 3, Round), p1000))
      ensures FractionLength(texts[i]) + 4 >= precision ==> FractionLength(Pad(texts[i], precision)) == precision
    {
      LabelReadsBack(Tick(min, step, i), precision, p1000, o);
      LabelTextDecimal(Tick(min, step, i));
      PadKeepsValue(texts[i], precision);
    }
  }
}
