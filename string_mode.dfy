/** The string mode of `Ico.significant_digits_round` (ico.js:20-37): when the last kept place is
    below the units, trailing zeros are stripped from the rounded digits and the value is written
    as decimal text; otherwise the rounded number itself is returned. */
module StringMode {
  import opened Wrappers
  import opened Numbers
  import opened Decimal

  /** What string mode returns: a number, or a decimal text. */
  datatype Rounded = Number(x: real) | Text(s: string)

  /** The number a result stands for: the number itself, or what its text reads as. */
  function ValueOf(r: Rounded): Option<real>
  {
    match r
    case Number(x) => Some(x)
    case Text(s) => ParseDecimal(s)
  }

  /** The zero-stripping loop: divides the units count by 10 and moves the exponent up while the
      count ends in 0. The result ends in a non-zero digit and stands for the same number. */
  function StripZeros(m: nat, p: int): (r: (nat, int))
    requires m >= 1
    ensures r.0 >= 1 && r.0 % 10 != 0
    ensures r.1 >= p && r.0 * IntPow10(r.1 - p) == m
    decreases m
  {
    if m % 10 == 0 then
      var r := StripZeros(m / 10, p + 1);
      assert r.1 - p == (r.1 - (p + 1)) + 1;
      ShiftAssocNat(r.0, IntPow10(r.1 - (p + 1)));
      r
    else (m, p)
  }

  lemma ShiftAssocNat(a: nat, b: nat)
    ensures a * (10 * b) == 10 * (a * b)
  {}

  /** The text the zero padding is cut from. */
  const ZeroTemplate: string := "0.00000000000000"

  /** `String.prototype.substring(0, n)`: the first n characters, n clamped to the string. */
  function Prefix(s: string, n: int): (r: string)
    ensures |r| == if n < 0 then 0 else if n > |s| then |s| else n
  {
    if n < 0 then "" else if n > |s| then s else s[..n]
  }

  function SignPrefix(negative: bool): string { if negative then "-" else "" }

  /** The tail of string mode (ico.js:27-37) for the stripped units count m at exponent p. */
  function Render(negative: bool, m: nat, p: int): Rounded
    requires m >= 1
  {
    var s := NatToString(m);
    var len := |s| + p;
    if len <= 0 then Text(SignPrefix(negative) + Prefix(ZeroTemplate, 2 - len) + s)
    else if p < 0 then Text(SignPrefix(negative) + s[..len] + "." + s[len..])
    else Number((if negative then -(m as real) else m as real) * Pow10(p))
  }

  /** `significant_digits_round(v, digits, f, true)` for a finite v. */
  function SignificantText(v: real, digits: int, f: Rounding): Rounded
    requires digits >= 1
  {
    if v == 0.0 || Exponent(v) < -14 then Number(0.0)
    else
      var p := Exponent(v) - (digits - 1);
      var k := Apply(f, v / Pow10(p));
      if p >= 0 then Number(k as real * Pow10(p))
      else
        UnitsCount(v, digits, f);
        var stripped := StripZeros(if v < 0.0 then -k else k, p);
        Render(v < 0.0, stripped.0, stripped.1)
  }

  /** The rounded units count has the sign of v and at least `digits` digits. */
  lemma UnitsCount(v: real, digits: int, f: Rounding)
    requires digits >= 1 && v != 0.0 && Exponent(v) >= -14
    ensures var k := Apply(f, v / Quantum(v, digits));
      && (v < 0.0 ==> k <= -(IntPow10(digits - 1) as int))
      && (v > 0.0 ==> k >= IntPow10(digits - 1))
  {
    hide *;
    RoundedUnits(v, digits, f);
    RoundedSign(v, digits, f);
    IntPow10Real(digits - 1);
    UnitsFromRounded(v, SignificantDigitsRound(v, digits, f), Apply(f, v / Quantum(v, digits)),
      Quantum(v, digits), IntPow10(digits - 1));
  }

  /** The rounded value has the sign of v and at least `digits` digits before the quantum. */
  lemma RoundedSign(v: real, digits: int, f: Rounding)
    requires digits >= 1 && v != 0.0 && Exponent(v) >= -14
    ensures var q, r := Quantum(v, digits), SignificantDigitsRound(v, digits, f);
      && Pow10(digits - 1) <= Abs(r / q) && (v > 0.0 <==> r > 0.0) && (v < 0.0 <==> r < 0.0)
  {
    FlushThreshold(v);
    SignificantDigitsRoundShape(v, digits, f);
  }

  lemma RoundedUnits(v: real, digits: int, f: Rounding)
    requires v != 0.0 && Exponent(v) >= -14
    ensures SignificantDigitsRound(v, digits, f) == Apply(f, v / Quantum(v, digits)) as real * Quantum(v, digits)
  {
    hide Pow10, Apply, Quantum;
  }

  /** A rounded value r = k * q, q > 0, with the sign of v and |r / q| at least n. */
  lemma UnitsFromRounded(v: real, r: real, k: int, q: real, n: nat)
    requires q > 0.0 && r == k as real * q && n as real <= Abs(r / q)
    requires (v > 0.0 <==> r > 0.0) && (v < 0.0 <==> r < 0.0)
    ensures v < 0.0 ==> k <= -(n as int)
    ensures v > 0.0 ==> k >= n
  {
    ProductSign(k as real, q);
    SignedAtLeast(k, n);
  }

  lemma SignedAtLeast(k: int, n: nat)
    requires n as real <= Abs(k as real)
    ensures k > 0 ==> k >= n
    ensures k < 0 ==> k <= -(n as int)
  {}

  /** The whole-number case of `SignificantText`: the last kept place is at or above the units. */
  lemma WholeCase(v: real, digits: int, f: Rounding, p: int, k: int)
    requires digits >= 1 && v != 0.0 && Exponent(v) >= -14
    requires p == Exponent(v) - (digits - 1) && k == Apply(f, v / Pow10(p)) && p >= 0
    ensures SignificantText(v, digits, f) == Number(UnitsValue(k, p))
    ensures ValueOf(SignificantText(v, digits, f)) == Some(UnitsValue(k, p))
  {
    hide Pow10, Exponent, Apply, Render, StripZeros;
    assert SignificantText(v, digits, f) == Number(k as real * Pow10(p));
  }

  /** The text case of `SignificantText`: the units count is stripped of its trailing zeros. */
  lemma TextCase(v: real, digits: int, f: Rounding, p: int, k: int)
    requires digits >= 1 && v != 0.0 && Exponent(v) >= -14
    requires p == Exponent(v) - (digits - 1) && k == Apply(f, v / Pow10(p)) && p < 0
    ensures v < 0.0 ==> -k >= 1
    ensures v > 0.0 ==> k >= 1
    ensures var units := if v < 0.0 then -k else k;
      units >= IntPow10(digits - 1) && SignificantText(v, digits, f) == Render(v < 0.0, StripZeros(units, p).0, StripZeros(units, p).1)
  {
    hide Pow10, Exponent, Apply, NatToString, Render, StripZeros;
    UnitsCount(v, digits, f);
    assert Quantum(v, digits) == Pow10(p);
  }

  /** The string mode of ico.js:11-40 with its zero-stripping `while` loop. */
  method SignificantDigitsRoundText(v: real, digits: int, f: Rounding) returns (r: Rounded)
    requires digits >= 1
    ensures r == SignificantText(v, digits, f)
  {
    if v == 0.0 {
      return Number(0.0);
    }
    var negative := v < 0.0;
    var p10 := Exponent(v);
    if p10 < -14 {
      return Number(0.0);
    }
    hide *;
    p10 := p10 - (digits - 1);
    var k := Apply(f, v / Pow10(p10));
    if p10 >= 0 {
      WholeCase(v, digits, f, p10, k);
      return Number(UnitsValue(k, p10));
    }
    TextCase(v, digits, f, p10, k);
    var m, p := StripTrailingZeros(if negative then -k else k, p10);
    r := Render(negative, m, p);
  }

  /** The `while (v % 10 == 0)` loop of ico.js:25-26. */
  method StripTrailingZeros(units: nat, exponent: int) returns (m: nat, p: int)
    requires units >= 1
    ensures (m, p) == StripZeros(units, exponent)
  {
    m, p := units, exponent;
    while m % 10 == 0
      invariant m >= 1
      invariant StripZeros(m, p) == StripZeros(units, exponent)
      decreases m
    {
      p := p + 1;
      m := m / 10;
    }
  }

  /** The number m units of 10^p stand for. */
  function UnitsValue(m: int, p: int): real { m as real * Pow10(p) }

  predicate IsWhole(x: real) { x.Floor as real == x }

  function Signed(negative: bool, x: real): real { if negative then -x else x }

  /** The text without its leading '-', if any. */
  function Unsigned(s: string): string { if |s| >= 1 && s[0] == '-' then s[1..] else s }

  /** The padding cut from the template is "0." and n zeros, for the n that can occur. */
  lemma ZeroPadding(n: nat)
    requires n <= 14
    ensures Prefix(ZeroTemplate, n + 2) == "0." + Zeros(n)
  {
    var t := Prefix(ZeroTemplate, n + 2);
    assert forall i :: 2 <= i < |ZeroTemplate| ==> ZeroTemplate[i] == '0';
    assert |t| == |"0." + Zeros(n)|;
    forall i | 0 <= i < |t| ensures t[i] == ("0." + Zeros(n))[i] {
      if i >= 2 { assert ("0." + Zeros(n))[i] == Zeros(n)[i - 2]; }
    }
  }

  /** m = x * q + y, read as x units and y / q of a unit. */
  lemma FractionParts(m: nat, x: nat, y: nat, q: nat)
    requires q >= 1 && m == x * q + y
    ensures x as real + y as real / q as real == m as real / q as real
  {
    assert m as real == x as real * q as real + y as real;
    SplitFraction(x as real, y as real, q as real);
  }

  lemma DivByInverse(m: real, a: real, b: real)
    requires a * b == 1.0 && b > 0.0
    ensures m / b == m * a
  {
    assert m == (m * a) * b;
  }

  lemma SplitFraction(x: real, y: real, p: real)
    requires p > 0.0
    ensures x + y / p == (x * p + y) / p
  {
    assert (x + y / p) * p == x * p + y;
  }

  /** A sign prefix is read back as a negation. */
  lemma ParseSigned(negative: bool, t: string)
    requires |t| >= 1 && IsDigit(t[0])
    ensures ParseUnsigned(t).Some? ==>
      ParseDecimal(SignPrefix(negative) + t) == Some(Signed(negative, ParseUnsigned(t).value))
  {
    if negative {
      assert (SignPrefix(negative) + t)[1..] == t;
    } else {
      assert SignPrefix(negative) + t == t;
    }
  }

  /** The text written for m units at exponent p reads as +-m * 10^p. */
  lemma RenderValue(negative: bool, m: nat, p: int)
    requires m >= 1 && |NatToString(m)| + p >= -13
    ensures ValueOf(Render(negative, m, p)) == Some(Signed(negative, UnitsValue(m, p)))
  {
    if p < 0 {
      FractionalRenderValue(negative, m, p);
    } else {
      WholeRender(negative, m, p);
    }
  }

  /** At or above the units, string mode returns the number itself. */
  lemma WholeRender(negative: bool, m: nat, p: int)
    requires m >= 1 && p >= 0
    ensures Render(negative, m, p) == Number(Signed(negative, UnitsValue(m, p)))
  {
    hide NatToString, Pow10;
    assert |NatToString(m)| + p > 0;
    NegateProduct(m as real, Pow10(p));
  }

  lemma NegateProduct(x: real, y: real)
    ensures -x * y == -(x * y)
  {}

  lemma FractionalRenderValue(negative: bool, m: nat, p: int)
    requires m >= 1 && p < 0 && |NatToString(m)| + p >= -13
    ensures ValueOf(Render(negative, m, p)) == Some(Signed(negative, UnitsValue(m, p)))
  {
    hide NatToString, Prefix, ParseDecimal, ParseUnsigned, UnsignedText, Render;
    UnsignedTextValue(m, p);
    ParseSigned(negative, UnsignedText(m, p));
    RenderText(negative, m, p);
  }

  /** The unsigned text below the units reads as m * 10^p. */
  lemma UnsignedTextValue(m: nat, p: int)
    requires m >= 1 && p < 0 && |NatToString(m)| + p >= -13
    ensures var t := UnsignedText(m, p);
      |t| >= 1 && IsDigit(t[0]) && ParseUnsigned(t) == Some(m as real * Pow10(p))
  {
    hide NatToString, Prefix, ParseUnsigned, UnsignedText;
    if |NatToString(m)| + p <= 0 {
      FractionValue(m, p);
    } else {
      PointedValue(m, p);
    }
    Pow10Inverse(p);
    DivByInverse(m as real, Pow10(p), Pow10(-p));
    assert m as real / Pow10(-p) == m as real * Pow10(p);
  }

  /** The text after the sign that `Render` writes when the last kept place is below the units. */
  function UnsignedText(m: nat, p: int): string
    requires m >= 1 && p < 0
  {
    var s := NatToString(m);
    var len := |s| + p;
    if len <= 0 then Prefix(ZeroTemplate, 2 - len) + s else s[..len] + "." + s[len..]
  }

  lemma RenderText(negative: bool, m: nat, p: int)
    requires m >= 1 && p < 0
    ensures Render(negative, m, p) == Text(SignPrefix(negative) + UnsignedText(m, p))
  {
    var s := NatToString(m);
    var len := |s| + p;
    if len > 0 {
      assert SignPrefix(negative) + s[..len] + "." + s[len..] ==
        SignPrefix(negative) + (s[..len] + "." + s[len..]);
    } else {
      assert SignPrefix(negative) + Prefix(ZeroTemplate, 2 - len) + s ==
        SignPrefix(negative) + (Prefix(ZeroTemplate, 2 - len) + s);
    }
  }

  /** Below 1: "0.", zeros, then the digits of m, read as m / 10^-p. */
  lemma FractionValue(m: nat, p: int)
    requires m >= 1 && p < 0
    requires -13 <= |NatToString(m)| + p <= 0
    ensures var t := UnsignedText(m, p);
      |t| >= 1 && IsDigit(t[0]) && ParseUnsigned(t) == Some(m as real / Pow10(-p))
  {
    hide Pow10, NatToString, Prefix, DigitsValue, Zeros, ParseUnsigned;
    var s := NatToString(m);
    var len := |s| + p;
    NatToStringValue(m);
    ZeroPadding(-len);
    var t := "0." + Zeros(-len) + s;
    assert t == "0" + "." + (Zeros(-len) + s);
    LeadingZeros(-len, s);
    NatToStringValue(0);
    assert DigitsValue("0") == 0;
    ParsePointed("0", Zeros(-len) + s);
    assert |Zeros(-len) + s| == -p;
  }

  /** From 1 on: the digits of m with a point before the last -p of them. */
  lemma PointedValue(m: nat, p: int)
    requires m >= 1 && p < 0
    requires |NatToString(m)| + p > 0
    ensures var t := UnsignedText(m, p);
      |t| >= 1 && IsDigit(t[0]) && ParseUnsigned(t) == Some(m as real / Pow10(-p))
  {
    hide Pow10, NatToString, Prefix, DigitsValue, ParseUnsigned;
    var s := NatToString(m);
    var len := |s| + p;
    NatToStringValue(m);
    IntPow10Real(-p);
    var a, b := s[..len], s[len..];
    assert s == a + b;
    DigitsValueConcat(a, b);
    ParsePointed(a, b);
    FractionParts(m, DigitsValue(a), DigitsValue(b), IntPow10(-p));
    assert UnsignedText(m, p) == a + "." + b;
  }

  /** Stripping zeros from a units count with at least `digits` digits keeps the written text
      long enough that the last digit lands at or above the exponent e of the value. */
  lemma StrippedLength(units: nat, p: int, e: int, digits: int)
    requires digits >= 1 && units >= IntPow10(digits - 1) && e == p + (digits - 1)
    ensures var r := StripZeros(units, p); |NatToString(r.0)| + r.1 > e
  {
    var r := StripZeros(units, p);
    var n := |NatToString(r.0)|;
    var j: nat := r.1 - p;
    NatToStringLength(r.0);
    IntPow10Add(n, j);
    MulLtNat(r.0, IntPow10(n), IntPow10(j));
    if n + j <= digits - 1 {
      IntPow10Monotone(n + j, digits - 1);
    }
  }

  lemma MulLtNat(a: nat, b: nat, c: nat)
    requires a < b && c >= 1
    ensures a * c < b * c
  {}

  /** Stripping zeros changes how a value is written, not the value. */
  lemma StrippedValue(units: nat, p: int)
    requires units >= 1
    ensures var r := StripZeros(units, p); UnitsValue(r.0, r.1) == UnitsValue(units, p)
  {
    var r := StripZeros(units, p);
    var j: nat := r.1 - p;
    assert r.0 * IntPow10(j) == units;
    ShiftUnits(r.0, j, p);
    assert p + j == r.1;
  }

  /** m * 10^j units of 10^p are m units of 10^(p + j). */
  lemma ShiftUnits(m: nat, j: nat, p: int)
    ensures UnitsValue(m * IntPow10(j), p) == UnitsValue(m, p + j)
  {
    hide Pow10;
    IntPow10Real(j);
    Pow10Add(p, j);
    CastProduct(m, IntPow10(j));
    Regroup(m as real, IntPow10(j) as real, Pow10(p));
  }

  lemma CastProduct(a: nat, b: nat)
    ensures (a * b) as real == a as real * b as real
  {}

  lemma Regroup(a: real, b: real, c: real)
    ensures a * (c * b) == (a * b) * c
  {}

  /** Zero, and values too small to keep any digit, read back as 0 in both modes. */
  lemma ZeroCase(v: real, digits: int, f: Rounding)
    requires digits >= 1 && (v == 0.0 || Exponent(v) < -14)
    ensures SignificantText(v, digits, f) == Number(0.0)
    ensures ValueOf(SignificantText(v, digits, f)) == Some(0.0)
    ensures SignificantDigitsRound(v, digits, f) == 0.0
  {
    hide Pow10, IntPow10, Apply, NatToString, Render, StripZeros, Quantum;
  }

  /** Read back, the text of string mode is the numeric rounding of ico.js:11-40. */
  lemma SignificantTextValue(v: real, digits: int, f: Rounding)
    requires digits >= 1
    ensures ValueOf(SignificantText(v, digits, f)) == Some(SignificantDigitsRound(v, digits, f))
  {
    hide *;
    if v == 0.0 || Exponent(v) < -14 {
      ZeroCase(v, digits, f);
    } else {
      var p := Exponent(v) - (digits - 1);
      var k := Apply(f, v / Pow10(p));
      NumericCase(v, digits, f, p, k);
      if p >= 0 {
        WholeCase(v, digits, f, p, k);
      } else {
        TextValue(v, digits, f, p, k);
      }
    }
  }

  /** The numeric rounding is k units of 10^p. */
  lemma NumericCase(v: real, digits: int, f: Rounding, p: int, k: int)
    requires digits >= 1 && v != 0.0 && Exponent(v) >= -14
    requires p == Exponent(v) - (digits - 1) && k == Apply(f, v / Pow10(p))
    ensures SignificantDigitsRound(v, digits, f) == UnitsValue(k, p)
  {
    hide Pow10, Exponent, Apply;
    assert Quantum(v, digits) == Pow10(p);
  }

  /** The text case of `SignificantTextValue`. */
  lemma TextValue(v: real, digits: int, f: Rounding, p: int, k: int)
    requires digits >= 1 && v != 0.0 && Exponent(v) >= -14
    requires p == Exponent(v) - (digits - 1) && k == Apply(f, v / Pow10(p)) && p < 0
    ensures ValueOf(SignificantText(v, digits, f)) == Some(UnitsValue(k, p))
  {
    assert Quantum(v, digits) == Pow10(p);
    hide Pow10, IntPow10, Exponent, Apply, NatToString, Render, StripZeros, ParseDecimal,
      SignificantText, Quantum, UnitsValue;
    TextCase(v, digits, f, p, k);
    var units: nat := if v < 0.0 then -k else k;
    var r := StripZeros(units, p);
    StrippedLength(units, p, Exponent(v), digits);
    RenderValue(v < 0.0, r.0, r.1);
    StrippedValue(units, p);
    SignedUnits(v < 0.0, k, units, p);
  }

  lemma SignedUnits(negative: bool, k: int, units: nat, p: int)
    requires units == if negative then -k else k
    ensures Signed(negative, UnitsValue(units, p)) == UnitsValue(k, p)
  {}

  /** `.toString()` of a string-mode result. A returned number is whole (see `NumberIsWhole`),
      so it is written without a point. */
  function RoundedText(r: Rounded): string
  {
    match r
    case Number(x) => IntToString(x.Floor)
    case Text(s) => s
  }

  /** String mode returns a number only when it is whole. */
  lemma NumberIsWhole(v: real, digits: int, f: Rounding)
    requires digits >= 1
    ensures SignificantText(v, digits, f).Number? ==> IsWhole(SignificantText(v, digits, f).x)
  {
    assert IsWhole(0.0);
    hide *;
    if v == 0.0 || Exponent(v) < -14 {
      ZeroCase(v, digits, f);
    } else {
      var p := Exponent(v) - (digits - 1);
      var k := Apply(f, v / Pow10(p));
      if p >= 0 {
        WholeCase(v, digits, f, p, k);
        WholeUnits(k, p);
      } else {
        TextCase(v, digits, f, p, k);
        var units: nat := if v < 0.0 then -k else k;
        var r := StripZeros(units, p);
        RenderNumberWhole(v < 0.0, r.0, r.1);
      }
    }
  }

  /** k units of a non-negative power of ten make a whole number. */
  lemma WholeUnits(k: int, p: int)
    requires p >= 0
    ensures IsWhole(UnitsValue(k, p))
  {
    IntPow10Real(p);
    var n := k * IntPow10(p);
    CastIntProduct(k, IntPow10(p));
    assert UnitsValue(k, p) == n as real;
    assert (n as real).Floor == n;
  }

  lemma CastIntProduct(a: int, b: int)
    ensures (a * b) as real == a as real * b as real
  {}

  /** `Render` returns a number only for a non-negative exponent, and that number is whole. */
  lemma RenderNumberWhole(negative: bool, m: nat, p: int)
    requires m >= 1
    ensures Render(negative, m, p).Number? <==> p >= 0
    ensures Render(negative, m, p).Number? ==> IsWhole(Render(negative, m, p).x)
  {
    hide NatToString, Prefix, Pow10;
    if p >= 0 {
      var k: int := if negative then -(m as int) else m;
      assert Render(negative, m, p) == Number(UnitsValue(k, p));
      WholeUnits(k, p);
    }
  }

  /** The text string mode produces reads back as the numeric rounding of ico.js:11-40. */
  lemma RoundedTextValue(v: real, digits: int, f: Rounding)
    requires digits >= 1
    ensures ParseDecimal(RoundedText(SignificantText(v, digits, f))) ==
      Some(SignificantDigitsRound(v, digits, f))
  {
    SignificantTextValue(v, digits, f);
    NumberIsWhole(v, digits, f);
    var r := SignificantText(v, digits, f);
    if r.Number? {
      IntToStringDecimal(r.x.Floor);
    }
  }

  /** A value below 1 is written as "0." followed by zeros and the digits of m. */
  lemma BelowOneRender(negative: bool, m: nat, p: int)
    requires m >= 1 && |NatToString(m)| + p >= -13
    requires UnitsValue(m, p) < 1.0
    ensures var len := |NatToString(m)| + p;
      len <= 0 &&
      Render(negative, m, p) == Text(SignPrefix(negative) + "0." + Zeros(-len) + NatToString(m))
  {
    hide Pow10, IntPow10, NatToString, Prefix;
    var s := NatToString(m);
    var n := |s|;
    if n + p > 0 {
      NatToStringLength(m);
      IntPow10Real(n - 1);
      Pow10Add(n - 1, p);
      assert n - 1 + p >= 0;
      Pow10Monotone(0, n - 1 + p);
      Pow10Zero();
      MulLe(IntPow10(n - 1) as real, m as real, Pow10(p));
      assert false;
    }
    ZeroPadding(-(n + p));
  }

  /** A whole number other than 0 is at least 1 in magnitude. */
  lemma WholeMagnitude(x: real)
    requires IsWhole(x) && x != 0.0
    ensures Abs(x) >= 1.0
  {}

  /** String mode writes a non-zero rounded value below 1 as "0." or "-0." and then digits
      (ico.js:28-30). */
  lemma BelowOneText(v: real, digits: int, f: Rounding)
    requires digits >= 1
    requires SignificantDigitsRound(v, digits, f) != 0.0 && Abs(SignificantDigitsRound(v, digits, f)) < 1.0
    ensures var t := RoundedText(SignificantText(v, digits, f));
      var lead := SignPrefix(v < 0.0) + "0.";
      |t| > |lead| && t[..|lead|] == lead
  {
    hide *;
    if v == 0.0 || Exponent(v) < -14 {
      ZeroCase(v, digits, f);
    } else {
      var p := Exponent(v) - (digits - 1);
      var k := Apply(f, v / Pow10(p));
      NumericCase(v, digits, f, p, k);
      if p >= 0 {
        WholeUnits(k, p);
        WholeMagnitude(UnitsValue(k, p));
      } else {
        TextCase(v, digits, f, p, k);
        var units: nat := if v < 0.0 then -k else k;
        var r := StripZeros(units, p);
        StrippedLength(units, p, Exponent(v), digits);
        StrippedValue(units, p);
        SignedUnits(v < 0.0, k, units, p);
        BelowOneTextStep(v < 0.0, r.0, r.1, SignificantDigitsRound(v, digits, f));
      }
    }
  }

  lemma BelowOneTextStep(negative: bool, m: nat, p: int, x: real)
    requires m >= 1 && |NatToString(m)| + p >= -13
    requires x == Signed(negative, UnitsValue(m, p)) && Abs(x) < 1.0
    ensures var t := RoundedText(Render(negative, m, p));
      var lead := SignPrefix(negative) + "0.";
      |t| > |lead| && t[..|lead|] == lead
  {
    hide Pow10, IntPow10, NatToString, Prefix, Zeros;
    assert UnitsValue(m, p) > 0.0;
    BelowOneRender(negative, m, p);
    var len := |NatToString(m)| + p;
    var lead := SignPrefix(negative) + "0.";
    var t := lead + Zeros(-len) + NatToString(m);
    assert t == lead + (Zeros(-len) + NatToString(m));
  }
}
