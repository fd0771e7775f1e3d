/**
 * The conversions `single_predict` applies to validated form entries
 * (Tkinter/fraudDetector.py:347-351): `int(...)` on the count fields and
 * `float(...)` on the money fields. `float` is modelled as the exact decimal
 * value of the string, a real number.
 */
module Conversion {
  import opened Validators

  function Pow10(n: nat): (p: nat)
    ensures p >= 1
  {
    if n == 0 then 1 else 10 * Pow10(n - 1)
  }

  function DigitValue(c: char): (d: nat)
    requires IsAsciiDigit(c)
    ensures d < 10
  {
    (c as int) - ('0' as int)
  }

  /** `int(s)` for a string of ASCII digits (the empty string reads as 0). */
  function ParseInteger(s: string): (n: nat)
    requires AllDigits(s)
    ensures n < Pow10(|s|)
  {
    if s == [] then 0 else 10 * ParseInteger(s[..|s| - 1]) + DigitValue(s[|s| - 1])
  }

  /** Reading `a + b` as a number shifts `a` left by the length of `b`. */
  lemma {:induction false} ParseIntegerConcat(a: string, b: string)
    requires AllDigits(a) && AllDigits(b)
    ensures AllDigits(a + b)
    ensures ParseInteger(a + b) == ParseInteger(a) * Pow10(|b|) + ParseInteger(b)
  {
    if b == [] {
      assert a + b == a;
    } else {
      var b' := b[..|b| - 1];
      var s := a + b;
      assert s[..|s| - 1] == a + b';
      assert s[|s| - 1] == b[|b| - 1];
      ParseIntegerConcat(a, b');
      var x, y, p, d := ParseInteger(a), ParseInteger(b'), Pow10(|b'|), DigitValue(b[|b| - 1]);
      assert ParseInteger(s) == 10 * ParseInteger(a + b') + d;
      assert ParseInteger(b) == 10 * y + d && Pow10(|b|) == 10 * p;
      ShiftDistributes(x, y, p, d);
    }
  }

  lemma ShiftDistributes(x: int, y: int, p: int, d: int)
    ensures 10 * (x * p + y) + d == x * (10 * p) + (10 * y + d)
  {
  }

  /** Leading zeros do not change the value: `int("007") == 7`. */
  lemma LeadingZero(s: string)
    requires AllDigits(s)
    ensures AllDigits("0" + s) && ParseInteger("0" + s) == ParseInteger(s)
  {
    ParseIntegerConcat("0", s);
  }

  /** The string validate_float accepts, without the final newline `$` lets through. */
  function DecimalBody(s: string): (t: string)
    requires ValidateFloat(s)
    ensures DecimalShape(t)
    ensures t == s || t + "\n" == s
  {
    if DecimalShape(s) then s else DropLast(s)
  }

  /** The digits of a decimal string with its point removed and the fraction padded to two digits. */
  function Hundredths(t: string): (d: string)
    requires DecimalShape(t)
    ensures AllDigits(d)
  {
    if AllDigits(t) then t + "00"
    else if t[|t| - 2] == '.' then t[..|t| - 2] + [t[|t| - 1], '0']
    else t[..|t| - 3] + t[|t| - 2..]
  }

  /**
   * `float(s)` for a string validate_float accepts, as an exact real. Python's `float`
   * ignores surrounding whitespace, so the final newline `$` admits is dropped.
   */
  function ParseDecimal(s: string): (x: real)
    requires ValidateFloat(s)
    ensures x >= 0.0
    ensures x * 100.0 == ParseInteger(Hundredths(DecimalBody(s))) as real
  {
    var t := DecimalBody(s);
    HundredthsValue(t);
    if AllDigits(t) then
      ParseInteger(t) as real
    else if t[|t| - 2] == '.' then
      ParseInteger(t[..|t| - 2]) as real + DigitValue(t[|t| - 1]) as real / 10.0
    else
      ParseInteger(t[..|t| - 3]) as real + ParseInteger(t[|t| - 2..]) as real / 100.0
  }

  lemma HundredthsValue(t: string)
    requires DecimalShape(t)
    ensures AllDigits(t) ==> ParseInteger(Hundredths(t)) == ParseInteger(t) * 100
    ensures !AllDigits(t) && t[|t| - 2] == '.' ==>
      ParseInteger(Hundredths(t)) == ParseInteger(t[..|t| - 2]) * 100 + DigitValue(t[|t| - 1]) * 10
    ensures !AllDigits(t) && t[|t| - 2] != '.' ==>
      ParseInteger(Hundredths(t)) == ParseInteger(t[..|t| - 3]) * 100 + ParseInteger(t[|t| - 2..])
  {
    if AllDigits(t) {
      WholeHundredths(t);
    } else if t[|t| - 2] == '.' {
      TenthsHundredths(t[..|t| - 2], t[|t| - 1]);
      assert Hundredths(t) == t[..|t| - 2] + [t[|t| - 1], '0'];
    } else {
      ParseIntegerConcat(t[..|t| - 3], t[|t| - 2..]);
      assert Pow10(2) == 100;
    }
  }

  lemma WholeHundredths(t: string)
    requires AllDigits(t)
    ensures AllDigits(t + "00") && ParseInteger(t + "00") == ParseInteger(t) * 100
  {
    ParseIntegerConcat(t, "00");
    assert ParseInteger("00") == 0 by { assert "00"[..1] == "0"; }
    assert Pow10(2) == 100;
  }

  lemma TenthsHundredths(whole: string, c: char)
    requires AllDigits(whole) && IsAsciiDigit(c)
    ensures AllDigits(whole + [c, '0'])
    ensures ParseInteger(whole + [c, '0']) == ParseInteger(whole) * 100 + DigitValue(c) * 10
  {
    var frac := [c, '0'];
    ParseIntegerConcat(whole, frac);
    assert frac[..1] == [c];
    assert ParseInteger(frac) == 10 * DigitValue(c);
    assert Pow10(2) == 100;
  }

  /** On a string of digits, `float` and `int` agree. */
  lemma IntegerAsDecimal(s: string)
    requires ValidateInteger(s)
    ensures ValidateFloat(s) && ParseDecimal(s) == ParseInteger(s) as real
  {
    IntegerIsDecimal(s);
  }
}
