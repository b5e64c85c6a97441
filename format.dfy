/** `Ico.Base.format_value` (ico.js:261-273): a value is scaled by a power of 1000, rounded to
    three significant digits in string mode, given a metric suffix and the chart's units. */
module Format {
  import opened Wrappers
  import opened Numbers
  import opened Decimal
  import opened StringMode

  /** The suffix table of ico.js:268, indexed by the power of 1000. */
  const Prefixes: seq<string> := ["", "k", "M", "G", "T", "P", "E", "Z", "Y"]

  /** `['', 'k', ...][p1000] || 'e' + 3 * p1000`, and nothing when p1000 is 0. */
  function Suffix(p1000: int): string
  {
    if p1000 == 0 then ""
    else if 1 <= p1000 <= 8 then Prefixes[p1000]
    else "e" + IntToString(3 * p1000)
  }

  /** The `units` and `units_position` options; `unitsAfter` is the truthiness of the position. */
  datatype UnitsOption = UnitsOption(units: string, unitsAfter: bool)

  /** The units placement of ico.js:269-271: nothing for empty units, else after or before. */
  function WithUnits(t: string, o: UnitsOption): string
  {
    if o.units == "" then t
    else if o.unitsAfter then t + o.units
    else o.units + t
  }

  /** `format_value(v)` for a number v (the call of ico.js:351). */
  function FormatNumber(v: real, o: UnitsOption): string
  {
    if v == 0.0 then WithUnits("0", o)
    else
      var p := Root(v, 1000);
      WithUnits(RoundedText(SignificantText(v / Pow10(3 * p), 3, Round)) + Suffix(p), o)
  }

  /** `format_value(l, p1000)` for a value label already written as text (the call of
      ico.js:995): the label keeps its text and gets the suffix of the planner's p1000. */
  function FormatLabel(l: string, p1000: int, o: UnitsOption): string
  {
    WithUnits(l + Suffix(p1000), o)
  }

  /** The characters a number's text is made of. */
  predicate NumberChar(c: char) { IsDigit(c) || c == '.' || c == '-' }

  predicate NumberText(s: string) { forall i :: 0 <= i < |s| ==> NumberChar(s[i]) }

  /** Length of the leading run of number characters. */
  function NumberEnd(s: string): (i: nat)
    ensures i <= |s|
  {
    if s == [] || !NumberChar(s[0]) then 0 else 1 + NumberEnd(s[1..])
  }

  /** Reads a suffix back as its power of 1000. */
  function ParseSuffix(s: string): Option<int>
  {
    if s == "" then Some(0)
    else if |s| == 1 && s[0] in "kMGTPEZY" then Some(IndexOf(s[0]))
    else if |s| >= 2 && s[0] == 'e' then
      match ParseInt(s[1..])
      case Some(n) => if n % 3 == 0 then Some(n / 3) else None
      case None => None
    else None
  }

  function IndexOf(c: char): int
    requires c in "kMGTPEZY"
  {
    if c == 'k' then 1 else if c == 'M' then 2 else if c == 'G' then 3 else if c == 'T' then 4
    else if c == 'P' then 5 else if c == 'E' then 6 else if c == 'Z' then 7 else 8
  }

  /** Removes the units that `WithUnits` placed. */
  function StripUnits(s: string, o: UnitsOption): Option<string>
  {
    if o.units == "" then Some(s)
    else if |s| < |o.units| then None
    else if o.unitsAfter then
      if s[|s| - |o.units|..] == o.units then Some(s[..|s| - |o.units|]) else None
    else if s[..|o.units|] == o.units then Some(s[|o.units|..]) else None
  }

  /** x times 1000^p. */
  function Thousands(x: real, p: int): real { x * Pow10(3 * p) }

  /** Reads formatted text back as a number: the units removed, the number read and multiplied
      by the power of 1000 its suffix names. */
  function ReadFormatted(s: string, o: UnitsOption): Option<real>
  {
    var t := StripUnits(s, o);
    if t.None? then None
    else
      var i := NumberEnd(t.value);
      var x, p := ParseDecimal(t.value[..i]), ParseSuffix(t.value[i..]);
      if x.Some? && p.Some? then Some(Thousands(x.value, p.value)) else None
  }

  /** Every power of 1000 is read back from its suffix. */
  lemma SuffixRoundTrip(p: int)
    ensures ParseSuffix(Suffix(p)) == Some(p)
  {
    if 1 <= p <= 8 {
      PrefixRoundTrip(p);
    } else if p != 0 {
      var t := IntToString(3 * p);
      IntToStringRoundTrip(3 * p);
      hide IntToString, ParseInt, IndexOf;
      assert Suffix(p) == "e" + t && ("e" + t)[1..] == t;
      assert (3 * p) % 3 == 0 && (3 * p) / 3 == p;
    }
  }

  /** The metric prefixes k to Y are read back as their index. */
  lemma PrefixRoundTrip(p: int)
    requires 1 <= p <= 8
    ensures ParseSuffix(Suffix(p)) == Some(p)
  {
    hide ParseInt, IntToString;
    if p == 1 {} else if p == 2 {} else if p == 3 {} else if p == 4 {}
    else if p == 5 {} else if p == 6 {} else if p == 7 {} else {}
  }

  /** No suffix starts with a number character. */
  lemma SuffixHead(p: int)
    ensures Suffix(p) == "" || !NumberChar(Suffix(p)[0])
  {}

  /** Units placed by `WithUnits` are removed by `StripUnits`. */
  lemma UnitsRoundTrip(t: string, o: UnitsOption)
    ensures StripUnits(WithUnits(t, o), o) == Some(t)
  {
    var s := WithUnits(t, o);
    if o.units != "" {
      if o.unitsAfter {
        assert s[..|s| - |o.units|] == t;
        assert s[|s| - |o.units|..] == o.units;
      } else {
        assert s[..|o.units|] == o.units;
        assert s[|o.units|..] == t;
      }
    }
  }

  /** The run of number characters ends where the number's text ends. */
  lemma {:induction false} NumberEndConcat(a: string, b: string)
    requires NumberText(a)
    requires b == "" || !NumberChar(b[0])
    ensures NumberEnd(a + b) == |a|
  {
    if a != [] {
      assert (a + b)[1..] == a[1..] + b;
      NumberEndConcat(a[1..], b);
    }
  }

  /** A number's text followed by a suffix reads back as the number times the power of 1000. */
  lemma ReadSuffixed(t: string, p: int, o: UnitsOption)
    requires NumberText(t) && ParseDecimal(t).Some?
    ensures ReadFormatted(WithUnits(t + Suffix(p), o), o) == Some(Thousands(ParseDecimal(t).value, p))
  {
    var u := t + Suffix(p);
    UnitsRoundTrip(u, o);
    SuffixHead(p);
    NumberEndConcat(t, Suffix(p));
    SuffixRoundTrip(p);
    hide ParseDecimal, ParseSuffix, NumberEnd, Suffix, WithUnits, StripUnits, Thousands;
    assert u[..|t|] == t;
    assert u[|t|..] == Suffix(p);
  }

  /** The digits of a whole number, with or without a sign, are number characters. */
  lemma IntTextChars(i: int)
    ensures NumberText(IntToString(i))
  {
    var n: nat := if i < 0 then -i else i;
    var s := NatToString(n);
    if i < 0 {
      assert IntToString(i) == "-" + s;
    }
  }

  /** The text `Render` writes is made of number characters. */
  lemma RenderChars(negative: bool, m: nat, p: int)
    requires m >= 1
    ensures Render(negative, m, p).Text? ==> NumberText(Render(negative, m, p).s)
  {
    var s := NatToString(m);
    var len := |s| + p;
    assert forall i :: 0 <= i < |ZeroTemplate| ==> NumberChar(ZeroTemplate[i]);
    if len <= 0 {
      var z := Prefix(ZeroTemplate, 2 - len);
      assert forall i :: 0 <= i < |z| ==> z[i] == ZeroTemplate[i];
    }
  }

  /** Whatever string mode returns is written with number characters only. */
  lemma RoundedTextChars(v: real, digits: int, f: Rounding)
    requires digits >= 1
    ensures NumberText(RoundedText(SignificantText(v, digits, f)))
  {
    var r := SignificantText(v, digits, f);
    if r.Number? {
      IntTextChars(r.x.Floor);
    } else {
      hide *;
      if v == 0.0 || Exponent(v) < -14 {
        ZeroCase(v, digits, f);
      } else {
        var p := Exponent(v) - (digits - 1);
        var k := Apply(f, v / Pow10(p));
        if p >= 0 {
          WholeCase(v, digits, f, p, k);
        } else {
          TextCase(v, digits, f, p, k);
          var units: nat := if v < 0.0 then -k else k;
          var st := StripZeros(units, p);
          RenderChars(v < 0.0, st.0, st.1);
        }
      }
    }
  }

  /** What `format_value` writes for a number reads back as the number rounded to three
      significant digits after scaling by its power of 1000 (ico.js:262-268). */
  lemma FormatNumberValue(v: real, o: UnitsOption)
    ensures v == 0.0 ==> ReadFormatted(FormatNumber(v, o), o) == Some(0.0)
    ensures v != 0.0 ==>
      var p := Root(v, 1000);
      ReadFormatted(FormatNumber(v, o), o) ==
        Some(Thousands(SignificantDigitsRound(v / Pow10(3 * p), 3, Round), p))
  {
    if v == 0.0 {
      IntToStringDecimal(0);
      NatToStringValue(0);
      assert NumberText("0");
      Pow10Zero();
      assert Suffix(0) == "";
      assert "0" + Suffix(0) == "0";
      ReadSuffixed("0", 0, o);
    } else {
      var p := Root(v, 1000);
      var w := v / Pow10(3 * p);
      var t := RoundedText(SignificantText(w, 3, Round));
      RoundedTextValue(w, 3, Round);
      RoundedTextChars(w, 3, Round);
      ReadSuffixed(t, p, o);
    }
  }

  /** A label keeps its own text; with its suffix and units it reads back as its value times
      the planner's power of 1000. */
  lemma FormatLabelValue(l: string, p1000: int, o: UnitsOption)
    requires NumberText(l) && ParseDecimal(l).Some?
    ensures ReadFormatted(FormatLabel(l, p1000, o), o) == Some(Thousands(ParseDecimal(l).value, p1000))
  {
    ReadSuffixed(l, p1000, o);
  }

  /** The scaled mantissa lies in [1, 1000): `Root(v, 1000)` picks the power that brings v there. */
  lemma MantissaRange(v: real)
    requires v != 0.0
    ensures var w := v / Pow10(3 * Root(v, 1000)); 1.0 <= Abs(w) < 1000.0
  {
    var p := Root(v, 1000);
    var q := Pow10(3 * p);
    Pow10Add(3 * p, 3);
    assert 3 * (p + 1) == 3 * p + 3;
    assert Pow10(3) == 1000.0 by {
      Pow10Succ(0); Pow10Succ(1); Pow10Succ(2); Pow10Zero();
    }
    ScaledAbs(v, q);
  }

  lemma ScaledAbs(v: real, q: real)
    requires q > 0.0 && q <= Abs(v) < q * 1000.0
    ensures 1.0 <= Abs(v / q) < 1000.0
  {
    assert Abs(v / q) == Abs(v) / q;
    ScaledCompare(Abs(v), q, 1000.0);
    ScaledCompare(Abs(v), q, 1.0);
  }
}
