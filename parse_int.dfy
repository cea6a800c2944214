/**
 * `parseInt(v, 10)`, section 19.2.5 of ECMA-262, applied to the JavaScript
 * values JSON can produce. The Number it returns is NaN, an infinity, or an
 * integer, kept here as a mathematical integer.
 */
module ParseInt {
  import opened JsValues
  import opened JsStrings

  function Abs(m: int): nat {
    if m < 0 then -m else m
  }

  /** The Numbers parseInt can return. */
  datatype NumResult = NaN | Int(value: int) | Infinity(negative: bool)

  /** A JavaScript completion: a normal value or a thrown TypeError. */
  datatype Completion<T> = Normal(value: T) | Throw

  function Pow10(n: nat): (p: nat)
    ensures p >= 1
  {
    if n == 0 then 1 else 10 * Pow10(n - 1)
  }

  /**
   * 2^1024 - 2^970, halfway between the largest finite double and 2^1024: the
   * least magnitude whose Number value (section 6.1.6.1 of ECMA-262, ties to
   * even) is an infinity rather than a finite double.
   */
  const OverflowBound: nat :=
    179769313486231580793728971405303415079934132710037826936173778980444968292764750946649017977587207096330286416692887910946555547851940402630657488671505820681908902000708383676273854845817711531764475730270069855571366959622842914819860834936475292719074168444365510704342711559699508093042880177904174497792

  /**
   * The Number value for the integer n: an infinity of n's sign from
   * OverflowBound on. Below it the integer is kept exactly.
   */
  function IntegerToNumber(n: int): (r: NumResult)
    ensures !r.NaN?
    ensures r.Int? <==> Abs(n) < OverflowBound
    ensures r.Int? ==> r.value == n
    ensures r.Infinity? ==> r.negative == (n < 0)
  {
    if Abs(n) < OverflowBound then Int(n) else Infinity(n < 0)
  }

  /** The JavaScript value of a Number parseInt returned other than NaN. */
  function NumberValue(r: NumResult): (v: JsValue)
    requires !r.NaN?
    ensures ToBoolean(v) <==> r != Int(0)
  {
    match r
    case Int(n) => Num(n, 0)
    case Infinity(negative) => NumInfinity(negative)
  }

  function DigitValue(c: char): (d: nat)
    requires IsDigit(c)
    ensures d <= 9
  {
    (c as int) - ('0' as int)
  }

  /** The number a string of decimal digits denotes; it has no more digits than the string. */
  function DecimalValue(s: string): (n: nat)
    requires AllDigits(s)
    ensures n < Pow10(|s|)
  {
    if s == [] then 0 else DecimalValue(s[..|s| - 1]) * 10 + DigitValue(s[|s| - 1])
  }

  /** The end of the longest run of decimal digits that starts at index i. */
  function DigitsEnd(s: string, i: nat): (k: nat)
    requires i <= |s|
    ensures i <= k <= |s|
    ensures forall j :: i <= j < k ==> IsDigit(s[j])
    ensures k == |s| || !IsDigit(s[k])
    decreases |s| - i
  {
    if i < |s| && IsDigit(s[i]) then DigitsEnd(s, i + 1) else i
  }

  /** Where parseInt looks for digits: after the leading white space and at most one sign. */
  function DigitsStart(s: string): (d: nat)
    ensures d <= |s|
  {
    var start := SkipBlanks(s, 0);
    if start < |s| && (s[start] == '-' || s[start] == '+') then start + 1 else start
  }

  /**
   * s reads as a number: white space s[..w], a first non-blank character at w,
   * at most one sign s[w..d], a non-empty run of digits s[d..e], and no digit at e.
   */
  ghost predicate ReadsAs(s: string, w: nat, d: nat, e: nat) {
    && w <= d < e <= |s|
    && (forall i :: 0 <= i < w ==> IsWhiteSpace(s[i]))
    && !IsWhiteSpace(s[w])
    && (d == w || (d == w + 1 && (s[w] == '-' || s[w] == '+')))
    && (forall i :: d <= i < e ==> IsDigit(s[i]))
    && (e == |s| || !IsDigit(s[e]))
  }

  /** The integer such a reading denotes: the digits' value, negated after a '-'. */
  ghost function ReadValue(s: string, w: nat, d: nat, e: nat): int
    requires ReadsAs(s, w, d, e)
  {
    assert AllDigits(s[d..e]);
    var n: int := DecimalValue(s[d..e]);
    if d == w + 1 && s[w] == '-' then -n else n
  }

  /** A string reads as a number in at most one way, the one parseInt's scan finds. */
  lemma ReadsAsUnique(s: string)
    ensures forall w: nat, d: nat, e: nat :: ReadsAs(s, w, d, e) ==>
      w == SkipBlanks(s, 0) && d == DigitsStart(s) && e == DigitsEnd(s, d)
  {
    forall w: nat, d: nat, e: nat | ReadsAs(s, w, d, e)
      ensures w == SkipBlanks(s, 0) && d == DigitsStart(s) && e == DigitsEnd(s, d)
    {
      assert w == SkipBlanks(s, 0);
      assert d == DigitsStart(s);
    }
  }

  /**
   * `parseInt(s, 10)` for a string: skip leading white space, read an optional
   * sign, then the longest run of decimal digits; no digits gives NaN. There is
   * no "0x" prefix handling because the radix is 10.
   */
  function ParseIntString(s: string): (r: NumResult)
    ensures r.NaN? <==> !exists w: nat, d: nat, e: nat :: ReadsAs(s, w, d, e)
    ensures forall w: nat, d: nat, e: nat :: ReadsAs(s, w, d, e) ==> r == IntegerToNumber(ReadValue(s, w, d, e))
  {
    var start := SkipBlanks(s, 0);
    var digits := DigitsStart(s);
    var end := DigitsEnd(s, digits);
    ReadsAsUnique(s);
    if end == digits then NaN
    else
      assert ReadsAs(s, start, digits, end);
      var n: int := DecimalValue(s[digits..end]);
      IntegerToNumber(if s[start] == '-' then -n else n)
  }

  /** A non-empty string of digits reads as its decimal value. */
  lemma ParseIntDigits(s: string)
    requires s != [] && AllDigits(s)
    ensures ParseIntString(s) == IntegerToNumber(DecimalValue(s))
  {
    assert SkipBlanks(s, 0) == 0;
    assert DigitsEnd(s, 0) == |s|;
    assert s[0..|s|] == s;
  }

  /** Leading zeros do not change the value of a digit string: "007" is 7. */
  lemma {:induction false} LeadingZero(s: string)
    requires AllDigits(s)
    ensures AllDigits("0" + s) && DecimalValue("0" + s) == DecimalValue(s)
  {
    var t := "0" + s;
    assert AllDigits(t);
    if s != [] {
      assert t[..|t| - 1] == "0" + s[..|s| - 1];
      LeadingZero(s[..|s| - 1]);
    }
  }

  /**
   * parseInt stops at the first character that is neither white space, a
   * sign nor a digit (',' or 'a', say): what follows it is never read.
   */
  lemma ParseIntStopsAt(a: string, c: char, b: string)
    requires !IsDigit(c) && !IsWhiteSpace(c) && c != '+' && c != '-'
    ensures ParseIntString(a + [c] + b) == ParseIntString(a)
  {
    var s := a + [c] + b;
    assert a == s[..|a|] && s[|a|] == c;
    var start := SkipBlanks(a, 0);
    SkipBlanksPrefix(a, s, 0);
    assert SkipBlanks(s, 0) == start;
    assert start < |s| && (start < |a| ==> s[start] == a[start]) && (start == |a| ==> s[start] == c);
    var signed := start < |a| && (a[start] == '-' || a[start] == '+');
    assert signed == (s[start] == '-' || s[start] == '+');
    var digits := if signed then start + 1 else start;
    assert DigitsStart(s) == digits && DigitsStart(a) == digits;
    DigitsEndPrefix(a, s, digits);
    var end := DigitsEnd(a, digits);
    assert DigitsEnd(s, digits) == end;
    if end > digits {
      assert s[digits..end] == a[digits..end];
    }
  }

  lemma {:induction false} SkipBlanksPrefix(a: string, s: string, i: nat)
    requires |a| < |s| && a == s[..|a|] && !IsWhiteSpace(s[|a|]) && i <= |a|
    ensures SkipBlanks(s, i) == SkipBlanks(a, i)
    decreases |a| - i
  {
    if i < |a| && IsWhiteSpace(a[i]) {
      SkipBlanksPrefix(a, s, i + 1);
    }
  }

  lemma {:induction false} DigitsEndPrefix(a: string, s: string, i: nat)
    requires |a| < |s| && a == s[..|a|] && !IsDigit(s[|a|]) && i <= |a|
    ensures DigitsEnd(s, i) == DigitsEnd(a, i)
    decreases |a| - i
  {
    if i < |a| && IsDigit(a[i]) {
      DigitsEndPrefix(a, s, i + 1);
    }
  }

  /** The number of decimal digits of m: 10^(k-1) <= m < 10^k. */
  function NumDigits(m: nat): (k: nat)
    requires m > 0
    ensures k >= 1 && Pow10(k - 1) <= m < Pow10(k)
  {
    if m < 10 then 1 else 1 + NumDigits(m / 10)
  }

  /** The first decimal digit of m. */
  function LeadingDigit(m: nat): (d: nat)
    requires m > 0
    ensures 1 <= d <= 9
  {
    if m < 10 then m else LeadingDigit(m / 10)
  }

  /** LeadingDigit(m) is the digit d with d * 10^(k-1) <= m < (d + 1) * 10^(k-1), k the length of m. */
  lemma {:induction false} LeadingDigitBounds(m: nat)
    requires m > 0
    ensures var d, p := LeadingDigit(m), Pow10(NumDigits(m) - 1);
      d * p <= m < (d + 1) * p
  {
    if m >= 10 {
      var m' := m / 10;
      LeadingDigitBounds(m');
      var d, p' := LeadingDigit(m'), Pow10(NumDigits(m') - 1);
      assert LeadingDigit(m) == d;
      assert Pow10(NumDigits(m) - 1) == 10 * p';
      var lo, hi := d * p', (d + 1) * p';
      assert lo <= m' && m' + 1 <= hi;
      ScaleByTen(d, p');
      ScaleByTen(d + 1, p');
    }
  }

  lemma ScaleByTen(a: nat, b: nat)
    ensures a * (10 * b) == 10 * (a * b)
  {
  }

  lemma ScaledNonNegative(a: nat, p: nat)
    requires p >= 1
    ensures a * p >= 0 && a / p >= 0
  {
  }

  /** significand * 10^exponent rounded toward zero; the sign is kept. */
  function Truncate(significand: int, exponent: int): (t: int)
    ensures significand >= 0 ==> t >= 0
    ensures significand < 0 ==> t <= 0
  {
    var a, p := Abs(significand), Pow10(Abs(exponent));
    ScaledNonNegative(a, p);
    var q: int := if exponent >= 0 then a * p else a / p;
    if significand < 0 then -q else q
  }

  /**
   * parseInt of a Number. Number::toString (section 6.1.6.1.20 of ECMA-262)
   * writes x with 10^(n-1) <= |x| < 10^n in plain decimal notation when
   * -6 < n <= 21, so parseInt reads its integer part; otherwise it uses
   * exponent notation ("1e+21", "1.5e-7") and parseInt reads only the first
   * significant digit. Zero prints as "0". The digits read are those of
   * significand * 10^exponent, the shortest round-trip decimal a JsValue Num holds.
   */
  function NumberParseInt(significand: int, exponent: int): (r: NumResult)
    ensures r.Int?
    ensures significand >= 0 ==> r.value >= 0
    ensures significand <= 0 ==> r.value <= 0
  {
    if significand == 0 then Int(0)
    else
      var n := NumDigits(Abs(significand)) + exponent;
      if -6 < n <= 21 then Int(Truncate(significand, exponent))
      else
        var d: int := LeadingDigit(Abs(significand));
        Int(if significand < 0 then -d else d)
  }

  /**
   * Whether ToString(v) throws. A JSON object with its own "toString" key has a
   * non-callable toString and an inherited valueOf that returns the object itself,
   * so ToPrimitive throws a TypeError; an array throws when one of its elements does.
   */
  predicate ToStringThrows(v: JsValue) {
    match v
    case Obj(props) => "toString" in props
    case Arr(elems) => exists i :: 0 <= i < |elems| && ToStringThrows(elems[i])
    case _ => false
  }

  /** A string whose first character is neither white space, a sign nor a digit reads as NaN. */
  lemma NoNumberAhead(s: string)
    requires s != [] && !IsWhiteSpace(s[0]) && !IsDigit(s[0]) && s[0] != '+' && s[0] != '-'
    ensures ParseIntString(s) == NaN
  {
    assert SkipBlanks(s, 0) == 0;
    assert DigitsStart(s) == 0;
    assert DigitsEnd(s, 0) == 0;
  }

  /** The words ToString gives for undefined, null, the booleans, the infinities and plain objects. */
  lemma WordsHaveNoDigits()
    ensures ParseIntString("undefined") == NaN && ParseIntString("null") == NaN
    ensures ParseIntString("true") == NaN && ParseIntString("false") == NaN
    ensures ParseIntString("Infinity") == NaN && ParseIntString("-Infinity") == NaN
    ensures ParseIntString("[object Object]") == NaN && ParseIntString("") == NaN
  {
    NoNumberAhead("undefined");
    NoNumberAhead("null");
    NoNumberAhead("true");
    NoNumberAhead("false");
    NoNumberAhead("Infinity");
    NoNumberAhead("[object Object]");
    assert SkipBlanks("-Infinity", 0) == 0 && DigitsStart("-Infinity") == 1;
    assert DigitsEnd("-Infinity", 1) == 1;
    assert DigitsStart("") == 0;
  }

  /**
   * `parseInt(v, 10)` for any value: ToString(v) may throw; otherwise the
   * string it gives is parsed. A finite Number always reads as an integer of
   * its own sign; undefined, null, the booleans, the infinities, the empty
   * string and plain objects all read as NaN.
   */
  function ParseIntValue(v: JsValue): (r: Completion<NumResult>)
    ensures r.Throw? <==> ToStringThrows(v)
    ensures v.Num? ==> r.Normal? && r.value.Int?
    ensures v.Num? && v.significand >= 0 ==> r.value.value >= 0
    ensures v.Num? && v.significand <= 0 ==> r.value.value <= 0
    ensures !ToBoolean(v) && !v.Num? ==> r == Normal(NaN)
    ensures v.Bool? || v.NumInfinity? || (v.Obj? && !ToStringThrows(v)) ==> r == Normal(NaN)
  {
    if ToStringThrows(v) then Throw
    else
      WordsHaveNoDigits();
      match v
      case Undefined => Normal(ParseIntString("undefined"))
      case Null => Normal(ParseIntString("null"))
      case Bool(b) => Normal(ParseIntString(if b then "true" else "false"))
      case Num(m, e) => Normal(NumberParseInt(m, e))
      case NumInfinity(negative) => Normal(ParseIntString(if negative then "-Infinity" else "Infinity"))
      case Str(s) => Normal(ParseIntString(s))
      case Obj(_) => Normal(ParseIntString("[object Object]"))
      // Array.prototype.toString joins the elements' strings with ',' (null and
      // undefined join as ""), and ParseIntStopsAt shows parseInt reads no further
      // than the first ','.
      case Arr(elems) =>
        if elems == [] || IsNullish(elems[0]) then Normal(ParseIntString(""))
        else ParseIntValue(elems[0])
  }

  lemma {:induction false} Pow10Monotone(a: nat, b: nat)
    requires a < b
    ensures Pow10(a) < Pow10(b)
  {
    if b > a + 1 {
      Pow10Monotone(a, b - 1);
    }
  }

  /** An integer below 10^21 in absolute value prints in plain notation, so parseInt returns it unchanged. */
  lemma IntegerParsesToItself(k: int)
    requires Abs(k) < Pow10(21)
    ensures NumberParseInt(k, 0) == Int(k)
  {
    if k != 0 {
      var n := NumDigits(Abs(k));
      if n > 21 {
        Pow10Monotone(21, n - 1);
      }
    }
  }

  /** Text after the digits is ignored: parseInt("12abc") is 12. */
  lemma TrailingTextIgnored()
    ensures ParseIntString("12abc") == Int(12)
  {
    assert "12abc" == "12" + ['a'] + "bc";
    ParseIntStopsAt("12", 'a', "bc");
    ParseIntDigits("12");
  }

  /** No digits after the white space and sign gives NaN. */
  lemma NoDigitsIsNaN()
    ensures ParseIntString("abc") == NaN
    ensures ParseIntString("") == NaN
    ensures ParseIntString(" -") == NaN
  {
  }

  /** Leading white space is skipped and one sign is read: parseInt(" \t-7 ") is -7. */
  lemma SignAfterBlanks()
    ensures ParseIntString(" \t-7 ") == Int(-7)
  {
  }

  /** With radix 10 a hexadecimal prefix is not recognised: parseInt("0x1A", 10) is 0. */
  lemma HexPrefixNotRead()
    ensures ParseIntString("0x1A") == Int(0)
  {
  }

  /** Worked cases on Numbers: fractions are cut toward zero; 1e21 and 1.5e-7 read as 1. */
  lemma NumberParseIntExamples()
    ensures ParseIntValue(Num(459, -1)) == Normal(Int(45))
    ensures ParseIntValue(Num(-459, -1)) == Normal(Int(-45))
    ensures ParseIntValue(Num(1, 21)) == Normal(Int(1))
    ensures ParseIntValue(Num(15, -8)) == Normal(Int(1))
    ensures ParseIntValue(Num(1, -6)) == Normal(Int(0))
  {
  }

  /** An object with its own "toString" key makes parseInt throw; an array reads its first element. */
  lemma ObjectAndArrayExamples()
    ensures ParseIntValue(Obj(map["toString" := Num(1, 0)])) == Throw
    ensures ParseIntValue(Arr([Str("12abc"), Num(3, 0)])) == Normal(Int(12))
  {
    var a := [Str("12abc"), Num(3, 0)];
    assert !ToStringThrows(Arr(a)) by {
      forall i | 0 <= i < |a| ensures !ToStringThrows(a[i]) {
      }
    }
    TrailingTextIgnored();
    assert ParseIntValue(a[0]) == Normal(Int(12));
  }
}
