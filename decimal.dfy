/** Decimal text of numbers, as JavaScript's `'' + n` writes a whole number, and the reading of
    decimal text back into a number. Whole numbers are written without exponent notation. */
module Decimal {
  import opened Wrappers
  import opened Numbers

  lemma {:induction false} IntPow10Add(a: nat, b: nat)
    ensures IntPow10(a + b) == IntPow10(a) * IntPow10(b)
  {
    if b > 0 {
      IntPow10Add(a, b - 1);
    }
  }

  predicate IsDigit(c: char) { '0' <= c <= '9' }

  predicate AllDigits(s: string) { forall i :: 0 <= i < |s| ==> IsDigit(s[i]) }

  function DigitChar(d: int): (c: char)
    requires 0 <= d < 10
    ensures IsDigit(c)
  {
    ('0' as int + d) as char
  }

  function DigitOf(c: char): (d: nat)
    requires IsDigit(c)
    ensures d < 10
  {
    c as int - '0' as int
  }

  /** The value of a string of decimal digits, most significant first. */
  function DigitsValue(s: string): (n: nat)
    requires AllDigits(s)
    ensures n < IntPow10(|s|)
  {
    if s == [] then 0 else 10 * DigitsValue(s[..|s| - 1]) + DigitOf(s[|s| - 1])
  }

  /** `'' + n` for a whole number n >= 0: its shortest decimal text. */
  function NatToString(n: nat): (s: string)
    ensures |s| >= 1 && AllDigits(s)
    ensures n == 0 <==> s == "0"
    ensures n > 0 ==> s[0] != '0'
  {
    if n < 10 then [DigitChar(n)] else NatToString(n / 10) + [DigitChar(n % 10)]
  }

  /** Reading the text of n gives n back. */
  lemma {:induction false} NatToStringValue(n: nat)
    ensures DigitsValue(NatToString(n)) == n
  {
    if n >= 10 {
      NatToStringValue(n / 10);
      var s := NatToString(n);
      assert s[..|s| - 1] == NatToString(n / 10);
    }
  }

  /** A positive n has |NatToString(n)| digits: 10^(len-1) <= n < 10^len. */
  lemma {:induction false} NatToStringLength(n: nat)
    requires n >= 1
    ensures var s := NatToString(n); IntPow10(|s| - 1) <= n < IntPow10(|s|)
  {
    NatToStringValue(n);
    if n >= 10 {
      NatToStringLength(n / 10);
    }
  }

  /** Appending digits shifts the prefix by their count. */
  lemma {:induction false} DigitsValueConcat(a: string, b: string)
    requires AllDigits(a) && AllDigits(b)
    ensures AllDigits(a + b)
    ensures DigitsValue(a + b) == DigitsValue(a) * IntPow10(|b|) + DigitsValue(b)
  {
    assert AllDigits(a + b) by {
      forall i | 0 <= i < |a + b| ensures IsDigit((a + b)[i]) {
        if i < |a| { assert (a + b)[i] == a[i]; } else { assert (a + b)[i] == b[i - |a|]; }
      }
    }
    if b == [] {
      assert a + b == a;
    } else {
      var b' := b[..|b| - 1];
      var d := DigitOf(b[|b| - 1]);
      assert (a + b)[..|a + b| - 1] == a + b';
      assert (a + b)[|a + b| - 1] == b[|b| - 1];
      DigitsValueConcat(a, b');
      var x, p := DigitsValue(a), IntPow10(|b'|);
      calc {
        DigitsValue(a + b);
        10 * DigitsValue(a + b') + d;
        10 * (x * p + DigitsValue(b')) + d;
        { ShiftAssoc(x, p); }
        x * (10 * p) + (10 * DigitsValue(b') + d);
        x * IntPow10(|b|) + DigitsValue(b);
      }
    }
  }

  lemma ShiftAssoc(x: int, p: int)
    ensures 10 * (x * p) == x * (10 * p)
  {}

  /** k zero digits. */
  function Zeros(k: nat): (s: string)
    ensures |s| == k && AllDigits(s)
    ensures forall i :: 0 <= i < k ==> s[i] == '0'
  {
    if k == 0 then "" else Zeros(k - 1) + "0"
  }

  lemma {:induction false} ZerosValue(k: nat)
    ensures DigitsValue(Zeros(k)) == 0
  {
    if k > 0 {
      ZerosValue(k - 1);
      assert Zeros(k)[..k - 1] == Zeros(k - 1);
    }
  }

  /** Leading zeros do not change the value of digits. */
  lemma LeadingZeros(k: nat, s: string)
    requires AllDigits(s)
    ensures AllDigits(Zeros(k) + s)
    ensures DigitsValue(Zeros(k) + s) == DigitsValue(s)
  {
    DigitsValueConcat(Zeros(k), s);
    ZerosValue(k);
  }

  /** `'' + i` for a whole number i. */
  function IntToString(i: int): (s: string)
    ensures |s| >= 1
  {
    if i < 0 then "-" + NatToString(-i) else NatToString(i)
  }

  /** Reads a non-empty string of digits. */
  function ParseNat(s: string): (r: Option<nat>)
    ensures r.Some? <==> |s| >= 1 && AllDigits(s)
  {
    if |s| >= 1 && AllDigits(s) then Some(DigitsValue(s)) else None
  }

  /** Reads an optionally signed whole number. */
  function ParseInt(s: string): Option<int>
  {
    if |s| >= 1 && s[0] == '-' then
      match ParseNat(s[1..])
      case Some(n) => Some(-(n as int))
      case None => None
    else
      match ParseNat(s)
      case Some(n) => Some(n)
      case None => None
  }

  /** The text of a whole number reads back as that number. */
  lemma IntToStringRoundTrip(i: int)
    ensures ParseInt(IntToString(i)) == Some(i)
  {
    hide NatToString, DigitsValue;
    if i < 0 {
      NatToStringValue(-i);
      assert IntToString(i)[1..] == NatToString(-i);
    } else {
      NatToStringValue(i);
    }
  }

  /** The text of a whole number also reads back as that number as a decimal. */
  lemma IntToStringDecimal(i: int)
    ensures ParseDecimal(IntToString(i)) == Some(i as real)
  {
    var n: nat := if i < 0 then -i else i;
    var s := NatToString(n);
    NatToStringValue(n);
    ParseDigits(s);
    if i < 0 {
      assert IntToString(i)[1..] == s;
    }
  }

  /** Index of the first '.', or |s| when there is none. */
  function FindDot(s: string): (i: nat)
    ensures i <= |s|
    ensures i < |s| ==> s[i] == '.'
    ensures forall j :: 0 <= j < i ==> s[j] != '.'
  {
    if s == [] then 0
    else if s[0] == '.' then 0
    else 1 + FindDot(s[1..])
  }

  /** Reads unsigned decimal text: digits, optionally followed by '.' and more digits. */
  function ParseUnsigned(s: string): Option<real>
  {
    var i := FindDot(s);
    var a := s[..i];
    if |a| == 0 || !AllDigits(a) then None
    else if i == |s| then Some(DigitsValue(a) as real)
    else
      var b := s[i + 1..];
      if !AllDigits(b) then None
      else Some(DigitsValue(a) as real + DigitsValue(b) as real / Pow10(|b|))
  }

  /** Reads decimal text with an optional leading '-'. */
  function ParseDecimal(s: string): Option<real>
  {
    if |s| >= 1 && s[0] == '-' then
      match ParseUnsigned(s[1..])
      case Some(x) => Some(-x)
      case None => None
    else ParseUnsigned(s)
  }

  /** Text made of digits, a point and digits reads as the integer part plus the scaled fraction. */
  lemma {:induction false} ParsePointed(a: string, b: string)
    requires |a| >= 1 && AllDigits(a) && AllDigits(b)
    ensures ParseUnsigned(a + "." + b) ==
      Some(DigitsValue(a) as real + DigitsValue(b) as real / Pow10(|b|))
  {
    var s := a + "." + b;
    DotAfterDigits(a, "." + b);
    assert s == a + ("." + b);
    assert s[..|a|] == a;
    assert s[|a| + 1..] == b;
  }

  /** Plain digits read as their value. */
  lemma ParseDigits(a: string)
    requires |a| >= 1 && AllDigits(a)
    ensures ParseUnsigned(a) == Some(DigitsValue(a) as real)
  {
    DotAfterDigits(a, "");
    assert a + "" == a;
    assert a[..|a|] == a;
  }

  lemma {:induction false} DotAfterDigits(a: string, t: string)
    requires AllDigits(a)
    requires t == [] || t[0] == '.'
    ensures FindDot(a + t) == |a|
  {
    if a != [] {
      assert (a + t)[1..] == a[1..] + t;
      DotAfterDigits(a[1..], t);
    }
  }
}
