/**
 * The four field validators of the order form (Tkinter/fraudDetector.py:43-53).
 *
 * Three of them are `re.match` calls on anchored patterns. They are modelled with a
 * small regular-expression datatype and its full-match semantics, and Python's `$`
 * (end of string, or just before one final newline) is modelled by `PyMatch`.
 * Each validator is then characterised by a plain description of the strings it accepts.
 * Character classes are ASCII only: `\d` and `str.isdigit` are restricted to '0'..'9'.
 */
module Validators {

  predicate IsAsciiLetter(c: char) { 'a' <= c <= 'z' || 'A' <= c <= 'Z' }

  predicate IsAsciiDigit(c: char) { '0' <= c <= '9' }

  /** The class `[a-zA-Z0-9]`. */
  predicate IsAsciiAlnum(c: char) { IsAsciiLetter(c) || IsAsciiDigit(c) }

  predicate AllDigits(s: string) { forall i :: 0 <= i < |s| ==> IsAsciiDigit(s[i]) }

  predicate AllAlnum(s: string) { forall i :: 0 <= i < |s| ==> IsAsciiAlnum(s[i]) }

  /** A single-character class of a pattern: `[a-zA-Z0-9]`, `\d` or a literal character. */
  datatype CharClass = Alnum | Digit | Literal(c: char)

  predicate InClass(cls: CharClass, c: char)
  {
    match cls
    case Alnum => IsAsciiAlnum(c)
    case Digit => IsAsciiDigit(c)
    case Literal(l) => c == l
  }

  /** The fragment of regular expressions the three patterns use. */
  datatype Regex =
    | Eps                         // the empty pattern
    | Char(cls: CharClass)        // one character of a class
    | Cat(left: Regex, right: Regex)
    | Alt(left: Regex, right: Regex)
    | Plus(body: Regex)           // body+

  /** `r{n}` */
  function Repeat(r: Regex, n: nat): Regex
  {
    if n == 0 then Eps else Cat(r, Repeat(r, n - 1))
  }

  /** `(r)?` */
  function Optional(r: Regex): Regex { Alt(Eps, r) }

  /** True iff `r` matches the whole of `s`. */
  predicate FullMatch(r: Regex, s: string)
    decreases r, |s|
  {
    match r
    case Eps => s == []
    case Char(cls) => |s| == 1 && InClass(cls, s[0])
    case Cat(a, b) => exists k :: 0 <= k <= |s| && FullMatch(a, s[..k]) && FullMatch(b, s[k..])
    case Alt(a, b) => FullMatch(a, s) || FullMatch(b, s)
    case Plus(a) =>
      FullMatch(a, s) || exists k :: 0 < k < |s| && FullMatch(a, s[..k]) && FullMatch(Plus(a), s[k..])
  }

  /**
   * `re.match('^' + r + '$', s)`: Python's `$` matches at the end of the string and
   * also just before a newline that ends the string.
   */
  predicate PyMatch(r: Regex, s: string)
  {
    FullMatch(r, s) || (|s| > 0 && s[|s| - 1] == '\n' && FullMatch(r, s[..|s| - 1]))
  }

  /** `[a-zA-Z0-9]{4}-[a-zA-Z0-9]{4}` */
  const OrderIdPattern: Regex :=
    Cat(Repeat(Char(Alnum), 4), Cat(Char(Literal('-')), Repeat(Char(Alnum), 4)))

  /** `[a-zA-Z0-9]{8}` */
  const CustomerIdPattern: Regex := Repeat(Char(Alnum), 8)

  /** `\.\d{1,2}` */
  const FractionPattern: Regex :=
    Cat(Char(Literal('.')), Alt(Repeat(Char(Digit), 1), Repeat(Char(Digit), 2)))

  /** `\d+(\.\d{1,2})?` */
  const DecimalPattern: Regex := Cat(Plus(Char(Digit)), Optional(FractionPattern))

  // ---------------------------------------------------------------------------
  // Reference descriptions of the accepted strings

  /** Four alphanumerics, a hyphen, four alphanumerics. */
  predicate OrderIdShape(s: string)
  {
    |s| == 9 && s[4] == '-' && forall i :: 0 <= i < 9 && i != 4 ==> IsAsciiAlnum(s[i])
  }

  /** Exactly eight alphanumerics. */
  predicate CustomerIdShape(s: string)
  {
    |s| == 8 && AllAlnum(s)
  }

  /** One or more digits, optionally followed by a point and one or two digits. */
  predicate DecimalShape(s: string)
  {
    || (|s| > 0 && AllDigits(s))
    || (|s| >= 3 && s[|s| - 2] == '.' && AllDigits(s[..|s| - 2]) && IsAsciiDigit(s[|s| - 1]))
    || (|s| >= 4 && s[|s| - 3] == '.' && AllDigits(s[..|s| - 3]) && AllDigits(s[|s| - 2..]))
  }

  /** `s` is `body` itself, or `body` followed by one newline. */
  predicate ShapeUpToFinalNewline(s: string, shape: string -> bool)
  {
    shape(s) || (|s| > 0 && s[|s| - 1] == '\n' && shape(s[..|s| - 1]))
  }

  // ---------------------------------------------------------------------------
  // The validators

  /** `s` without its last character; the empty string stays empty. */
  function DropLast(s: string): string { if |s| > 0 then s[..|s| - 1] else s }

  /** validate_order_id */
  predicate ValidateOrderId(s: string)
    ensures ValidateOrderId(s) <==> ShapeUpToFinalNewline(s, OrderIdShape)
  {
    OrderIdPatternMatches(s);
    OrderIdPatternMatches(DropLast(s));
    PyMatch(OrderIdPattern, s)
  }

  /** validate_customer_id */
  predicate ValidateCustomerId(s: string)
    ensures ValidateCustomerId(s) <==> ShapeUpToFinalNewline(s, CustomerIdShape)
  {
    RepeatMatches(Alnum, 8, s);
    RepeatMatches(Alnum, 8, DropLast(s));
    PyMatch(CustomerIdPattern, s)
  }

  /**
   * validate_integer: `str.isdigit`, which is false on the empty string. Unlike the
   * regular expressions it allows no final newline: the accepted entries are exactly
   * the decimal-shaped ones without a point.
   */
  predicate ValidateInteger(s: string)
    ensures ValidateInteger(s) <==> DecimalShape(s) && '.' !in s
  {
    assert |s| >= 3 && s[|s| - 2] == '.' ==> '.' in s;
    assert |s| >= 4 && s[|s| - 3] == '.' ==> '.' in s;
    |s| > 0 && AllDigits(s)
  }

  /** validate_float */
  predicate ValidateFloat(s: string)
    ensures ValidateFloat(s) <==> ShapeUpToFinalNewline(s, DecimalShape)
  {
    DecimalPatternMatches(s);
    DecimalPatternMatches(DropLast(s));
    PyMatch(DecimalPattern, s)
  }

  // ---------------------------------------------------------------------------
  // Lemmas connecting the patterns to the reference descriptions

  lemma {:induction false} RepeatMatches(cls: CharClass, n: nat, s: string)
    ensures FullMatch(Repeat(Char(cls), n), s) <==> |s| == n && forall i :: 0 <= i < |s| ==> InClass(cls, s[i])
  {
    if n == 0 {
    } else {
      var r := Repeat(Char(cls), n);
      assert r == Cat(Char(cls), Repeat(Char(cls), n - 1));
      if FullMatch(r, s) {
        var k :| 0 <= k <= |s| && FullMatch(Char(cls), s[..k]) && FullMatch(Repeat(Char(cls), n - 1), s[k..]);
        RepeatMatches(cls, n - 1, s[k..]);
        assert k == 1;
        forall i | 0 <= i < |s| ensures InClass(cls, s[i]) {
          if i > 0 { assert s[i] == s[1..][i - 1]; }
        }
      }
      if |s| == n && forall i :: 0 <= i < |s| ==> InClass(cls, s[i]) {
        RepeatMatches(cls, n - 1, s[1..]);
        assert FullMatch(Char(cls), s[..1]);
      }
    }
  }

  lemma {:induction false} PlusMatches(cls: CharClass, s: string)
    ensures FullMatch(Plus(Char(cls)), s) <==> |s| > 0 && forall i :: 0 <= i < |s| ==> InClass(cls, s[i])
    decreases |s|
  {
    var r := Plus(Char(cls));
    if FullMatch(r, s) && !FullMatch(Char(cls), s) {
      var k :| 0 < k < |s| && FullMatch(Char(cls), s[..k]) && FullMatch(r, s[k..]);
      PlusMatches(cls, s[k..]);
      forall i | 0 <= i < |s| ensures InClass(cls, s[i]) {
        if i > 0 { assert s[i] == s[k..][i - 1]; }
      }
    }
    if |s| > 1 && forall i :: 0 <= i < |s| ==> InClass(cls, s[i]) {
      PlusMatches(cls, s[1..]);
      assert FullMatch(Char(cls), s[..1]);
    }
  }

  lemma OrderIdPatternMatches(s: string)
    ensures FullMatch(OrderIdPattern, s) <==> OrderIdShape(s)
  {
    var four := Repeat(Char(Alnum), 4);
    var tail := Cat(Char(Literal('-')), four);
    forall t: string ensures FullMatch(tail, t) <==> |t| == 5 && t[0] == '-' && AllAlnum(t[1..]) {
      if FullMatch(tail, t) {
        var j :| 0 <= j <= |t| && FullMatch(Char(Literal('-')), t[..j]) && FullMatch(four, t[j..]);
        RepeatMatches(Alnum, 4, t[j..]);
      }
      if |t| == 5 && t[0] == '-' && AllAlnum(t[1..]) {
        RepeatMatches(Alnum, 4, t[1..]);
        assert FullMatch(Char(Literal('-')), t[..1]);
      }
    }
    if FullMatch(OrderIdPattern, s) {
      var k :| 0 <= k <= |s| && FullMatch(four, s[..k]) && FullMatch(tail, s[k..]);
      RepeatMatches(Alnum, 4, s[..k]);
      assert k == 4;
      forall i | 0 <= i < 9 && i != 4 ensures IsAsciiAlnum(s[i]) {
        if i > 4 { assert s[i] == s[k..][1..][i - 5]; } else { assert s[i] == s[..k][i]; }
      }
    }
    if OrderIdShape(s) {
      RepeatMatches(Alnum, 4, s[..4]);
      assert s[4..][1..] == s[5..];
      assert FullMatch(four, s[..4]) && FullMatch(tail, s[4..]);
    }
  }

  lemma FractionMatches(t: string)
    ensures FullMatch(FractionPattern, t) <==> (|t| == 2 || |t| == 3) && t[0] == '.' && AllDigits(t[1..])
  {
    var digits := Alt(Repeat(Char(Digit), 1), Repeat(Char(Digit), 2));
    forall u: string ensures FullMatch(digits, u) <==> (|u| == 1 || |u| == 2) && AllDigits(u) {
      RepeatMatches(Digit, 1, u);
      RepeatMatches(Digit, 2, u);
    }
    if FullMatch(FractionPattern, t) {
      var j :| 0 <= j <= |t| && FullMatch(Char(Literal('.')), t[..j]) && FullMatch(digits, t[j..]);
      assert j == 1;
    }
    if (|t| == 2 || |t| == 3) && t[0] == '.' && AllDigits(t[1..]) {
      assert FullMatch(Char(Literal('.')), t[..1]);
    }
  }

  lemma DecimalPatternMatches(s: string)
    ensures FullMatch(DecimalPattern, s) <==> DecimalShape(s)
  {
    if FullMatch(DecimalPattern, s) {
      DecimalMatchHasShape(s);
    }
    if DecimalShape(s) {
      DecimalShapeMatches(s);
    }
  }

  lemma DecimalMatchHasShape(s: string)
    requires FullMatch(DecimalPattern, s)
    ensures DecimalShape(s)
  {
    var k :| 0 <= k <= |s| && FullMatch(Plus(Char(Digit)), s[..k]) && FullMatch(Optional(FractionPattern), s[k..]);
    SplitDecimalShape(s, k);
    SplitGivesDecimalShape(s, k);
  }

  lemma DecimalShapeMatches(s: string)
    requires DecimalShape(s)
    ensures FullMatch(DecimalPattern, s)
  {
    var k := if AllDigits(s) then |s| else if s[|s| - 2] == '.' then |s| - 2 else |s| - 3;
    assert DecimalSplitAt(s, k) by {
      if k == |s| {
        assert s[..k] == s;
      } else if k == |s| - 2 {
        assert s[k + 1..] == [s[|s| - 1]];
      } else {
        assert s[k + 1..] == s[|s| - 2..];
      }
    }
    SplitDecimalShape(s, k);
  }

  /** `s` is digits up to `k`, then nothing or a point and one or two digits. */
  predicate DecimalSplitAt(s: string, k: nat)
    requires k <= |s|
  {
    && 0 < k && AllDigits(s[..k])
    && (k == |s| || ((|s| - k == 2 || |s| - k == 3) && s[k] == '.' && AllDigits(s[k + 1..])))
  }

  lemma SplitDecimalShape(s: string, k: nat)
    requires k <= |s|
    ensures FullMatch(Plus(Char(Digit)), s[..k]) && FullMatch(Optional(FractionPattern), s[k..]) <==> DecimalSplitAt(s, k)
  {
    PlusMatches(Digit, s[..k]);
    FractionMatches(s[k..]);
    if k < |s| {
      assert s[k..][1..] == s[k + 1..];
    }
  }

  lemma SplitGivesDecimalShape(s: string, k: nat)
    requires k <= |s| && DecimalSplitAt(s, k)
    ensures DecimalShape(s)
  {
    if k == |s| {
      assert s[..k] == s;
    } else if |s| - k == 2 {
      assert s[..|s| - 2] == s[..k];
      assert s[|s| - 1] == s[k + 1..][0];
    } else {
      assert s[..|s| - 3] == s[..k];
      assert s[|s| - 2..] == s[k + 1..];
    }
  }

  // ---------------------------------------------------------------------------
  // Properties of the validators

  /** Every string `validate_integer` accepts is also accepted by `validate_float`. */
  lemma IntegerIsDecimal(s: string)
    requires ValidateInteger(s)
    ensures ValidateFloat(s)
  {
  }

  /** Examples of accepted and rejected order and customer identifiers. */
  lemma IdentifierExamples()
    ensures ValidateOrderId("AB12-cd34")
    ensures !ValidateOrderId("AB12cd34") && !ValidateOrderId("AB1-cd345")
    ensures ValidateCustomerId("CUST0001") && !ValidateCustomerId("CUST001")
  {
    assert OrderIdShape("AB12-cd34");
    assert !OrderIdShape("AB1-cd345") by { assert "AB1-cd345"[3] == '-'; }
    assert CustomerIdShape("CUST0001");
  }

  /** Examples of accepted and rejected numeric fields. */
  lemma NumberExamples()
    ensures ValidateFloat("12") && ValidateFloat("12.5")
    ensures !ValidateFloat("12.555") && !ValidateFloat("12.") && !ValidateFloat(".5") && !ValidateFloat("-1.5")
    ensures !ValidateInteger("") && !ValidateInteger("-1") && !ValidateInteger("1.0")
  {
    assert DecimalShape("12");
    assert DecimalShape("12.5") by { assert "12.5"[..2] == "12"; }
    assert !DecimalShape("12.555") by { assert "12.555"[2] == '.'; }
    assert !DecimalShape("12.") by { assert "12."[2] == '.'; }
    assert !DecimalShape(".5") by { assert ".5"[0] == '.'; }
    assert !DecimalShape("-1.5") by { assert "-1.5"[..2] == "-1"; assert !IsAsciiDigit("-1"[0]); }
    assert "1.0"[1] == '.';
  }
}
