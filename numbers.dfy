/** Exact-real models of the numeric helpers of `Ico`: integer powers, the integer exponent that
    `Ico.root` and the `p10` of `significant_digits_round` compute with logarithms, the rounding
    functions the library passes around (`Math.floor`, `Math.ceil`, `Math.round` and the "nice"
    closure of the value-label planner), and significant-digit rounding itself. JavaScript numbers
    are modelled as reals: there is no IEEE-754 rounding here. */
module Numbers {

  function Abs(x: real): real { if x < 0.0 then -x else x }

  /** 10^k on the naturals. */
  function IntPow10(k: nat): (r: nat)
    ensures r >= 1
  {
    if k == 0 then 1 else 10 * IntPow10(k - 1)
  }

  /** 10 raised to an integer (possibly negative) power, exactly. */
  function Pow10(q: int): (r: real)
    ensures r > 0.0
  {
    if q >= 0 then IntPow10(q) as real else 1.0 / IntPow10(-q) as real
  }

  lemma Pow10Zero()
    ensures Pow10(0) == 1.0
  {}

  lemma Pow10Succ(q: int)
    ensures Pow10(q + 1) == 10.0 * Pow10(q)
  {
    if q >= 0 {
      assert IntPow10(q + 1) == 10 * IntPow10(q);
    } else if q < -1 {
      var n := IntPow10(-q - 1);
      assert IntPow10(-q) == 10 * n;
      TenthOfReciprocal(n as real);
    }
  }

  lemma TenthOfReciprocal(n: real)
    requires n > 0.0
    ensures 1.0 / n == 10.0 * (1.0 / (10.0 * n))
  {}

  /** Powers of ten grow strictly with the exponent. */
  lemma {:induction false} Pow10StrictlyIncreasing(p: int, q: int)
    requires p < q
    ensures Pow10(p) < Pow10(q)
    decreases q - p
  {
    Pow10Succ(q - 1);
    if p < q - 1 {
      Pow10StrictlyIncreasing(p, q - 1);
    }
  }

  lemma Pow10Monotone(p: int, q: int)
    requires p <= q
    ensures Pow10(p) <= Pow10(q)
  {
    if p < q { Pow10StrictlyIncreasing(p, q); }
  }

  /** Exponents add under multiplication. */
  lemma {:induction false} Pow10Add(m: int, n: int)
    ensures Pow10(m + n) == Pow10(m) * Pow10(n)
    decreases if n < 0 then -n else n
  {
    hide Pow10;
    if n > 0 {
      Pow10Add(m, n - 1);
      Pow10Succ(m + n - 1);
      Pow10Succ(n - 1);
    } else if n < 0 {
      Pow10Add(m, n + 1);
      Pow10Succ(m + n);
      Pow10Succ(n);
    } else {
      Pow10Zero();
    }
  }

  /** 10^-q is the reciprocal of 10^q. */
  lemma Pow10Inverse(q: int)
    ensures Pow10(q) * Pow10(-q) == 1.0
  {
    hide Pow10;
    Pow10Add(q, -q);
    assert q + -q == 0;
    Pow10Zero();
  }

  /** The natural powers of ten grow with the exponent. */
  lemma {:induction false} IntPow10Monotone(a: nat, b: nat)
    requires a <= b
    ensures IntPow10(a) <= IntPow10(b)
    decreases b - a
  {
    if a < b {
      IntPow10Monotone(a, b - 1);
    }
  }

  /** The natural and the real power of ten agree. */
  lemma IntPow10Real(k: nat)
    ensures Pow10(k) == IntPow10(k) as real
  {}

  /** The exponent of a value of at least 1: the q with 10^q <= a < 10^(q+1). */
  function ExponentAbove(a: real): (q: nat)
    requires a >= 1.0
    ensures Pow10(q) <= a < Pow10(q + 1)
    decreases a.Floor
  {
    if a < 10.0 then 0 else 1 + ExponentAbove(a / 10.0)
  }

  /** The exponent of a value strictly between 0 and 1 (always negative). */
  function ExponentBelow(a: real): (q: int)
    requires 0.0 < a < 1.0
    ensures q < 0
    ensures Pow10(q) <= a < Pow10(q + 1)
    decreases (1.0 / a).Floor
  {
    if a * 10.0 >= 1.0 then
      Pow10Succ(-1);
      -1
    else
      assert 1.0 / (a * 10.0) == (1.0 / a) / 10.0;
      var q := ExponentBelow(a * 10.0);
      ExponentDown(a, q);
      q - 1
  }

  /** One decade down: the bounds for 10a give the bounds for a. */
  lemma ExponentDown(a: real, q: int)
    requires Pow10(q) <= a * 10.0 < Pow10(q + 1)
    ensures Pow10(q - 1) <= a < Pow10(q)
  {
    hide Pow10;
    Pow10Succ(q - 1);
    Pow10Succ(q);
  }

  /** `p10` of `significant_digits_round`, floor(log10 |v|), characterised without logarithms as
      the unique integer p with 10^p <= |v| < 10^(p+1). */
  function Exponent(v: real): (p: int)
    requires v != 0.0
    ensures Pow10(p) <= Abs(v) < Pow10(p + 1)
  {
    if Abs(v) >= 1.0 then ExponentAbove(Abs(v)) else ExponentBelow(Abs(v))
  }

  /** The bounds of `Exponent` determine it. */
  lemma ExponentUnique(v: real, p: int)
    requires v != 0.0
    requires Pow10(p) <= Abs(v) < Pow10(p + 1)
    ensures Exponent(v) == p
  {
    var e := Exponent(v);
    if e < p {
      Pow10Monotone(e + 1, p);
    } else if e > p {
      Pow10Monotone(p + 1, e);
    }
  }

  /** `Ico.root(v, base)`, floor(log|v| / log base), for the bases the library uses (10 and
      1000 = 10^3): the unique q with base^q <= |v| < base^(q+1). */
  function Root(v: real, base: nat): (q: int)
    requires v != 0.0 && (base == 10 || base == 1000)
    ensures var k := if base == 10 then 1 else 3;
      Pow10(k * q) <= Abs(v) < Pow10(k * (q + 1))
  {
    var e := Exponent(v);
    if base == 10 then e
    else
      Pow10Monotone(3 * (e / 3), e);
      Pow10Monotone(e + 1, 3 * (e / 3 + 1));
      e / 3
  }

  /** Any q with 1000^q <= |v| < 1000^(q+1) is the thousands root. */
  lemma RootThousandUnique(v: real, q: int)
    requires v != 0.0
    requires Pow10(3 * q) <= Abs(v) < Pow10(3 * (q + 1))
    ensures Root(v, 1000) == q
  {
    var r := Root(v, 1000);
    if r < q {
      Pow10Monotone(3 * (r + 1), 3 * q);
    } else if r > q {
      Pow10Monotone(3 * (q + 1), 3 * r);
    }
  }

  /** Values whose exponent is below -14 are taken for floating-point noise and flushed to 0. */
  lemma FlushThreshold(v: real)
    requires v != 0.0
    ensures Exponent(v) < -14 <==> Abs(v) < Pow10(-14)
  {
    var e := Exponent(v);
    if e < -14 {
      Pow10Monotone(e + 1, -14);
    } else {
      Pow10Monotone(-14, e);
    }
  }

  predicate Flushed(v: real) { v != 0.0 && Abs(v) < Pow10(-14) }

  function Ceiling(x: real): int { -((-x).Floor) }

  /** The rounding closures the library hands to `significant_digits_round`. */
  datatype Rounding = Floor | Ceil | Round | Nice

  /** Applies a rounding closure: `Math.floor`, `Math.ceil`, `Math.round` (halves go up) or the
      "nice" step rounding of the value-label planner. */
  function Apply(f: Rounding, x: real): int
  {
    match f
    case Floor => x.Floor
    case Ceil => Ceiling(x)
    case Round => (x + 0.5).Floor
    case Nice => NiceCeil(x)
  }

  /** The "2 digits rounding function" of `calculate_value_labels_params`: round up to an integer,
      keep it when at most 10, else go up to 12, then to a multiple of 5 up to 54 and to a
      multiple of 10 beyond. */
  function NiceCeil(x: real): (n: int)
    ensures x <= n as real
    ensures Ceiling(x) <= 10 ==> n == Ceiling(x)
    ensures 10 < Ceiling(x) <= 12 ==> n == 12
    ensures 12 < Ceiling(x) <= 54 ==> n % 5 == 0 && Ceiling(x) <= n < Ceiling(x) + 5
    ensures 54 < Ceiling(x) ==> n % 10 == 0 && Ceiling(x) <= n < Ceiling(x) + 10
  {
    var v := Ceiling(x);
    if v <= 10 then v
    else if v <= 12 then 12
    else if v <= 54 then (if v % 5 != 0 then v - v % 5 + 5 else v)
    else if v % 10 != 0 then v - v % 10 + 10 else v
  }

  /** The unit in the last kept place when rounding `v` to `digits` significant digits. */
  function Quantum(v: real, digits: int): (q: real)
    requires v != 0.0
    ensures q > 0.0
  {
    Pow10(Exponent(v) - (digits - 1))
  }

  /** `Ico.significant_digits_round(v, digits, f)` in its numeric mode: f(v / 10^p) * 10^p with
      p = floor(log10 |v|) - (digits - 1); zero is returned unchanged and values whose exponent is
      below -14 are flushed to zero. */
  function SignificantDigitsRound(v: real, digits: int, f: Rounding): real
  {
    if v == 0.0 then 0.0
    else if Exponent(v) < -14 then 0.0
    else
      var q := Quantum(v, digits);
      Apply(f, v / q) as real * q
  }

  /** v / Quantum(v, digits) lies in [10^(digits-1), 10^digits) in absolute value. */
  lemma ScaledMagnitude(v: real, digits: int)
    requires v != 0.0
    ensures Pow10(digits - 1) <= Abs(v / Quantum(v, digits)) < Pow10(digits)
  {
    hide Pow10, Exponent;
    var e := Exponent(v);
    var q := Quantum(v, digits);
    Pow10Add(digits - 1, e - (digits - 1));
    Pow10Add(digits, e - (digits - 1));
    ScaleBounds(Abs(v), q, Pow10(digits - 1), Pow10(digits));
  }

  lemma ScaleBounds(a: real, q: real, lo: real, hi: real)
    requires q > 0.0 && lo * q <= a < hi * q
    ensures lo <= a / q < hi
  {
    if a / q < lo { MulLt(a / q, lo, q); }
    if a / q >= hi { MulLe(hi, a / q, q); }
  }

  lemma MulLe(a: real, b: real, q: real)
    requires a <= b && q > 0.0
    ensures a * q <= b * q
  {}

  lemma MulLt(a: real, b: real, q: real)
    requires a < b && q > 0.0
    ensures a * q < b * q
  {}

  /** Rounding down never overshoots, and stays within one unit of the last kept place. */
  lemma SignificantDigitsRoundFloor(v: real, digits: int)
    ensures Flushed(v) ==> SignificantDigitsRound(v, digits, Floor) == 0.0
    ensures v != 0.0 && !Flushed(v) ==>
      var r := SignificantDigitsRound(v, digits, Floor);
      r <= v < r + Quantum(v, digits)
  {
    hide Pow10, Exponent;
    if v != 0.0 {
      FlushThreshold(v);
      UnitsBracket(v, Quantum(v, digits), Floor);
    }
  }

  /** Rounding up never undershoots, and stays within one unit of the last kept place. */
  lemma SignificantDigitsRoundCeil(v: real, digits: int)
    ensures Flushed(v) ==> SignificantDigitsRound(v, digits, Ceil) == 0.0
    ensures v != 0.0 && !Flushed(v) ==>
      var r := SignificantDigitsRound(v, digits, Ceil);
      r - Quantum(v, digits) < v <= r
  {
    hide Pow10, Exponent;
    if v != 0.0 {
      FlushThreshold(v);
      UnitsBracket(v, Quantum(v, digits), Ceil);
    }
  }

  /** `Math.round` lands within half a unit of the last kept place. */
  lemma SignificantDigitsRoundNearest(v: real, digits: int)
    ensures Flushed(v) ==> SignificantDigitsRound(v, digits, Round) == 0.0
    ensures v != 0.0 && !Flushed(v) ==>
      var r := SignificantDigitsRound(v, digits, Round);
      v - Quantum(v, digits) / 2.0 < r <= v + Quantum(v, digits) / 2.0
  {
    hide Pow10, Exponent;
    if v != 0.0 {
      FlushThreshold(v);
      UnitsBracket(v, Quantum(v, digits), Round);
    }
  }

  /** The "nice" rounding rounds up too. */
  lemma SignificantDigitsRoundNice(v: real, digits: int)
    ensures Flushed(v) ==> SignificantDigitsRound(v, digits, Nice) == 0.0
    ensures v != 0.0 && !Flushed(v) ==> v <= SignificantDigitsRound(v, digits, Nice)
  {
    hide Pow10, Exponent;
    if v != 0.0 {
      FlushThreshold(v);
      UnitsBracket(v, Quantum(v, digits), Nice);
    }
  }

  /** Where a whole number of units q lands relative to v, for each rounding closure. */
  lemma UnitsBracket(v: real, q: real, f: Rounding)
    requires q > 0.0
    ensures var r := Apply(f, v / q) as real * q;
      && (f == Floor ==> r <= v < r + q)
      && (f == Ceil ==> r - q < v <= r)
      && (f == Round ==> v - q / 2.0 < r <= v + q / 2.0)
      && (f == Nice ==> v <= r)
  {
    var n := Apply(f, v / q) as real;
    var r := n * q;
    match f
    case Floor =>
      ScaledCompare(v, q, n);
      ScaledCompare(v, q, n + 1.0);
      assert (n + 1.0) * q == r + q;
    case Ceil =>
      ScaledCompare(v, q, n);
      ScaledCompare(v, q, n - 1.0);
      assert (n - 1.0) * q == r - q;
    case Round =>
      ScaledCompare(v, q, n + 0.5);
      ScaledCompare(v, q, n - 0.5);
      assert (n + 0.5) * q == r + q / 2.0;
      assert (n - 0.5) * q == r - q / 2.0;
    case Nice =>
      ScaledCompare(v, q, n);
  }

  /** Comparing v / q with c is comparing v with c * q, for a positive q. */
  lemma ScaledCompare(v: real, q: real, c: real)
    requires q > 0.0
    ensures v / q <= c <==> v <= c * q
    ensures v / q < c <==> v < c * q
  {
    var x := v / q;
    assert x * q == v;
    if x <= c { MulLe(x, c, q); } else { MulLt(c, x, q); }
    if x < c { MulLt(x, c, q); } else { MulLe(c, x, q); }
  }

  /** With at least one significant digit, every rounding keeps the sign of a value it does not
      flush, and the result is an integer number of units of the last kept place that has at most
      one digit more than requested (a carry such as 99 -> 100). */
  lemma SignificantDigitsRoundShape(v: real, digits: int, f: Rounding)
    requires digits >= 1
    requires v != 0.0 && !Flushed(v)
    ensures var r := SignificantDigitsRound(v, digits, f);
      && (v > 0.0 <==> r > 0.0)
      && (v < 0.0 <==> r < 0.0)
      && (r / Quantum(v, digits)).Floor as real == r / Quantum(v, digits)
      && Pow10(digits - 1) <= Abs(r / Quantum(v, digits)) <= Pow10(digits)
  {
    hide Pow10, Exponent, Quantum, Apply, Abs;
    FlushThreshold(v);
    var q := Quantum(v, digits);
    var x := v / q;
    var k := Apply(f, x);
    assert SignificantDigitsRound(v, digits, f) == k as real * q;
    ScaledMagnitude(v, digits);
    Pow10Monotone(0, digits - 1);
    Pow10Zero();
    PowerOfTenShape(digits);
    var p := Pow10(digits).Floor;
    IntPow10Real(digits - 1);
    var lo := IntPow10(digits - 1);
    ScaledCompare(v, q, 0.0);
    assert 0.0 * q == 0.0;
    RoundedUnits(x, lo, p, f);
    UnitsShape(v, q, k, lo, p);
  }

  /** k units of q, where k has the sign of v and lies between lo and p in absolute value. */
  lemma UnitsShape(v: real, q: real, k: int, lo: int, p: int)
    requires q > 0.0 && v != 0.0 && lo >= 1
    requires v > 0.0 ==> lo <= k <= p
    requires v < 0.0 ==> -p <= k <= -lo
    ensures var r := k as real * q;
      && (v > 0.0 <==> r > 0.0)
      && (v < 0.0 <==> r < 0.0)
      && (r / q).Floor as real == r / q
      && lo as real <= Abs(r / q) <= p as real
  {
    ProductSign(k as real, q);
  }

  lemma ProductSign(k: real, q: real)
    requires q > 0.0
    ensures (k * q) / q == k
    ensures k > 0.0 <==> k * q > 0.0
    ensures k < 0.0 <==> k * q < 0.0
  {
    if k > 0.0 { MulLt(0.0, k, q); }
    if k < 0.0 { MulLt(k, 0.0, q); }
    if k == 0.0 { assert k * q == 0.0; }
  }

  /** The units count of a scaled value lo <= |x| < p, where lo >= 1 is a whole number and p a
      power of ten of at least 10: it has the sign of x and lies between lo and p in absolute
      value. */
  lemma RoundedUnits(x: real, lo: int, p: int, f: Rounding)
    requires p == 10 || (p >= 100 && p % 10 == 0)
    requires lo >= 1 && lo as real <= Abs(x) < p as real
    ensures x > 0.0 ==> lo <= Apply(f, x) <= p
    ensures x < 0.0 ==> -p <= Apply(f, x) <= -lo
  {
    if f == Nice && x > 0.0 {
      var c := Ceiling(x);
      assert c <= p;
      if 54 < c {
        assert p % 10 == 0;
      }
    }
  }

  /** From one digit on, 10^digits is an integer that is 10 or a multiple of 10 of at least 100. */
  lemma {:induction false} PowerOfTenShape(digits: int)
    requires digits >= 1
    ensures Pow10(digits) == Pow10(digits).Floor as real
    ensures var p := Pow10(digits).Floor; p == 10 || (p >= 100 && p % 10 == 0)
  {
    hide Pow10;
    Pow10Succ(digits - 1);
    if digits == 1 {
      Pow10Zero();
    } else {
      PowerOfTenShape(digits - 1);
      var m := Pow10(digits - 1).Floor;
      assert Pow10(digits) == (10 * m) as real;
    }
  }

  /** JavaScript numbers extended with the infinities that `significant_digits_round` passes
      through unchanged. */
  datatype Extended = Finite(value: real) | PlusInfinity | MinusInfinity

  /** `significant_digits_round` on the extended number line: infinities are returned as they are,
      finite values are rounded. */
  function ExtendedSignificantDigitsRound(v: Extended, digits: int, f: Rounding): (r: Extended)
    ensures !v.Finite? ==> r == v
    ensures v.Finite? ==> r.Finite? && (v.value == 0.0 ==> r.value == 0.0)
    ensures v.Finite? && f == Floor ==> r.value <= v.value || Flushed(v.value)
    ensures v.Finite? && f == Ceil ==> v.value <= r.value || Flushed(v.value)
  {
    match v
    case Finite(x) =>
      SignificantDigitsRoundFloor(x, digits);
      SignificantDigitsRoundCeil(x, digits);
      Finite(SignificantDigitsRound(x, digits, f))
    case _ => v
  }

  lemma RoundExamples()
    ensures SignificantDigitsRound(1234.0, 2, Round) == 1200.0
    ensures SignificantDigitsRound(-1234.0, 2, Round) == -1200.0
    ensures SignificantDigitsRound(0.0, 3, Floor) == 0.0
  {
    assert Pow10(3) == 1000.0 && Pow10(4) == 10000.0 && Pow10(2) == 100.0;
    ExponentUnique(1234.0, 3);
    ExponentUnique(-1234.0, 3);
    hide Pow10, Exponent;
    assert Quantum(1234.0, 2) == 100.0 && Quantum(-1234.0, 2) == 100.0;
    assert Apply(Round, 1234.0 / 100.0) == 12;
    assert Apply(Round, -1234.0 / 100.0) == -12;
  }
}
