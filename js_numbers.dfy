/** The two global string-to-number conversions of ECMAScript that the form
    submission relies on: parseInt (ECMA-262 section 19.2.5) called without a
    radix, and parseFloat (ECMA-262 section 19.2.4).  Both are total: every
    string yields a Number, and text that does not start with a numeral yields
    NaN.  Finite results are kept as exact reals; rounding to the nearest
    IEEE-754 double (and with it overflow to Infinity and the sign of zero) is
    not modelled. */
module JsNumbers {

  /** A Number as far as parsing can produce one. */
  datatype Number = NaN | Num(v: real) | Infinity(negative: bool)

  /** StrWhiteSpaceChar: the WhiteSpace and LineTerminator code points
      (ECMA-262 sections 12.2 and 12.3) that both parsers skip at the start. */
  predicate IsStrWhiteSpace(c: char) {
    || c == '\t' || c == '\U{B}' || c == '\U{C}' || c == ' ' || c == '\U{A0}' || c == '\U{FEFF}'
    || c == '\U{1680}' || ('\U{2000}' <= c <= '\U{200A}') || c == '\U{202F}' || c == '\U{205F}' || c == '\U{3000}'
    || c == '\n' || c == '\r' || c == '\U{2028}' || c == '\U{2029}'
  }

  predicate IsDecimalDigit(c: char) {
    '0' <= c <= '9'
  }

  predicate IsHexDigit(c: char) {
    IsDecimalDigit(c) || 'a' <= c <= 'f' || 'A' <= c <= 'F'
  }

  /** A digit of radix 10 or 16, the two radices parseInt picks without an explicit radix. */
  predicate IsRadixDigit(c: char, radix: nat)
    requires radix == 10 || radix == 16
  {
    if radix == 10 then IsDecimalDigit(c) else IsHexDigit(c)
  }

  function DigitValue(c: char, radix: nat): (d: nat)
    requires radix == 10 || radix == 16
    requires IsRadixDigit(c, radix)
    ensures d < radix
  {
    if IsDecimalDigit(c) then c as int - '0' as int
    else if 'a' <= c <= 'f' then c as int - 'a' as int + 10
    else c as int - 'A' as int + 10
  }

  /** The number of leading characters of s that are skipped as white space. */
  function LeadingWhiteSpace(s: string): (n: nat)
    ensures n <= |s|
    ensures forall i :: 0 <= i < n ==> IsStrWhiteSpace(s[i])
    ensures n < |s| ==> !IsStrWhiteSpace(s[n])
  {
    if |s| > 0 && IsStrWhiteSpace(s[0]) then 1 + LeadingWhiteSpace(s[1..]) else 0
  }

  /** The length of the longest prefix of s made of radix digits. */
  function LeadingDigits(s: string, radix: nat): (n: nat)
    requires radix == 10 || radix == 16
    ensures n <= |s|
    ensures forall i :: 0 <= i < n ==> IsRadixDigit(s[i], radix)
    ensures n < |s| ==> !IsRadixDigit(s[n], radix)
  {
    if |s| > 0 && IsRadixDigit(s[0], radix) then 1 + LeadingDigits(s[1..], radix) else 0
  }

  predicate AllDigits(s: string, radix: nat)
    requires radix == 10 || radix == 16
  {
    forall i :: 0 <= i < |s| ==> IsRadixDigit(s[i], radix)
  }

  /** The mathematical value of a string of digits, most significant first. */
  function DigitsValue(s: string, radix: nat): nat
    requires radix == 10 || radix == 16
    requires AllDigits(s, radix)
  {
    if |s| == 0 then 0
    else DigitsValue(s[..|s| - 1], radix) * radix + DigitValue(s[|s| - 1], radix)
  }

  function Pow10(n: nat): (p: nat)
    ensures p >= 1
  {
    if n == 0 then 1 else 10 * Pow10(n - 1)
  }

  /** 10 raised to an integer exponent, as a real. */
  function Scale(e: int): (r: real)
    ensures r > 0.0
  {
    if e >= 0 then Pow10(e) as real else 1.0 / Pow10(-e) as real
  }

  function Signed(negative: bool, m: real): real {
    if negative then -m else m
  }

  /** What is left of s once the leading white space is skipped. */
  function TrimStart(s: string): (t: string)
    ensures |t| <= |s| && t == s[|s| - |t|..]
    ensures |t| > 0 ==> !IsStrWhiteSpace(t[0])
  {
    s[LeadingWhiteSpace(s)..]
  }

  /** Whether s starts with a minus sign. */
  predicate IsNegative(s: string) {
    |s| > 0 && s[0] == '-'
  }

  /** s without one leading sign character, if it has one. */
  function DropSign(s: string): (t: string)
    ensures t == s || (|s| > 0 && t == s[1..])
  {
    if |s| > 0 && (s[0] == '-' || s[0] == '+') then s[1..] else s
  }

  predicate HasHexPrefix(s: string) {
    |s| >= 2 && s[0] == '0' && (s[1] == 'x' || s[1] == 'X')
  }

  /** The integer denoted by the longest prefix of radix digits of s, NaN if there is none. */
  function IntegerPrefix(negative: bool, s: string, radix: nat): (r: Number)
    requires radix == 10 || radix == 16
    ensures r.NaN? <==> LeadingDigits(s, radix) == 0
  {
    var end := LeadingDigits(s, radix);
    if end == 0 then NaN
    else Num(Signed(negative, DigitsValue(s[..end], radix) as real))
  }

  /** parseInt(string) with the radix argument absent: skip leading white
      space, take one optional sign, read a "0x"/"0X" prefix as radix 16 and
      otherwise use radix 10, then convert the longest prefix of digits of
      that radix; no digits at all gives NaN. */
  function ParseInt(input: string): (r: Number)
    ensures r.NaN? || r.Num?
  {
    var s := TrimStart(input);
    var u := DropSign(s);
    if HasHexPrefix(u) then IntegerPrefix(IsNegative(s), u[2..], 16)
    else IntegerPrefix(IsNegative(s), u, 10)
  }

  /** The exponent an ExponentPart at the start of t denotes ("e" or "E", an
      optional sign, at least one decimal digit), and 0 when t does not start
      with one: a dangling "e" is simply not part of the numeral. */
  function ExponentValue(t: string): int {
    if |t| > 0 && (t[0] == 'e' || t[0] == 'E') then
      var rest := t[1..];
      var digits := DropSign(rest);
      var n := LeadingDigits(digits, 10);
      if n == 0 then 0
      else if IsNegative(rest) then -(DigitsValue(digits[..n], 10) as int)
      else DigitsValue(digits[..n], 10)
    else 0
  }

  /** The value of a numeral with integer part n, f fraction digits of
      value m, and exponent e. */
  function DecimalValue(n: nat, m: nat, f: nat, e: int): real {
    Fraction(n, m, f) * Scale(e)
  }

  /** n followed by the f fraction digits of value m: n + m / 10^f. */
  function Fraction(n: nat, m: nat, f: nat): real {
    (n * Pow10(f) + m) as real / Pow10(f) as real
  }

  predicate StartsWithInfinity(u: string) {
    |u| >= 8 && u[..8] == "Infinity"
  }

  /** The value of an unsigned decimal numeral at the start of u: integer
      digits, then optionally a point and fraction digits, then an optional
      exponent.  NaN when there is not a single digit on either side of the
      point. */
  function DecimalPrefix(negative: bool, u: string): (r: Number)
    ensures r.NaN? <==> LeadingDigits(u, 10) == 0 && !(|u| > 0 && u[0] == '.' && LeadingDigits(u[1..], 10) > 0)
  {
    var i := LeadingDigits(u, 10);
    var hasPoint := i < |u| && u[i] == '.';
    var frac := if hasPoint then u[i + 1..] else [];
    var f := LeadingDigits(frac, 10);
    var rest := if hasPoint then frac[f..] else u[i..];
    if i + f == 0 then NaN
    else Num(Signed(negative, DecimalValue(DigitsValue(u[..i], 10), DigitsValue(frac[..f], 10), f, ExponentValue(rest))))
  }

  /** parseFloat(string): skip leading white space and convert the longest
      prefix that is a StrDecimalLiteral: an optional sign followed by
      "Infinity", or by digits with an optional fraction (at least one digit
      either side of the point) and an optional exponent.  No such prefix
      gives NaN. */
  function ParseFloat(input: string): (r: Number)
    ensures r.Infinity? <==> StartsWithInfinity(DropSign(TrimStart(input)))
  {
    var s := TrimStart(input);
    var u := DropSign(s);
    if StartsWithInfinity(u) then Infinity(IsNegative(s))
    else DecimalPrefix(IsNegative(s), u)
  }

  // ---------------------------------------------------------------------
  // Decimal-digit behaviour

  /** Text that starts with a decimal digit comes through trimming and sign removal untouched. */
  lemma DigitStartIsUntouched(s: string)
    requires |s| > 0 && IsDecimalDigit(s[0])
    ensures TrimStart(s) == s && DropSign(s) == s && !IsNegative(s)
    ensures !StartsWithInfinity(s)
  {
  }

  /** A plain string of decimal digits parses, under parseInt, to its decimal value. */
  lemma ParseIntOfDigits(s: string)
    requires |s| > 0 && AllDigits(s, 10)
    ensures ParseInt(s) == Num(DigitsValue(s, 10) as real)
  {
    DigitStartIsUntouched(s);
    assert !HasHexPrefix(s) by {
      if |s| >= 2 { assert IsRadixDigit(s[1], 10); }
    }
    assert LeadingDigits(s, 10) == |s|;
    assert s[..|s|] == s;
  }

  /** A plain string of decimal digits parses, under parseFloat, to its decimal value. */
  lemma ParseFloatOfDigits(s: string)
    requires |s| > 0 && AllDigits(s, 10)
    ensures ParseFloat(s) == Num(DigitsValue(s, 10) as real)
  {
    DigitStartIsUntouched(s);
    assert LeadingDigits(s, 10) == |s|;
    assert s[..|s|] == s;
    assert ExponentValue(s[|s|..]) == 0;
    assert LeadingDigits([], 10) == 0 && DigitsValue([], 10) == 0;
    assert Scale(0) == 1.0 && Pow10(0) == 1;
  }

  /** In "a.b" with a all digits, the integer digits are exactly a. */
  lemma PointSplit(a: string, b: string)
    requires AllDigits(a, 10)
    ensures var u := a + "." + b;
      && LeadingDigits(u, 10) == |a| && u[|a|] == '.'
      && u[|a| + 1..] == b && u[..|a|] == a
  {
    var u := a + "." + b;
    assert forall i :: 0 <= i < |a| ==> u[i] == a[i];
    assert u[|a|] == '.';
  }

  /** The numeral "a.b" read from the start of a string, without a sign. */
  lemma DecimalPrefixOfPoint(a: string, b: string)
    requires AllDigits(a, 10) && AllDigits(b, 10) && |a| + |b| > 0
    ensures DecimalPrefix(false, a + "." + b) == Num(DecimalValue(DigitsValue(a, 10), DigitsValue(b, 10), |b|, 0))
  {
    var u := a + "." + b;
    PointSplit(a, b);
    assert LeadingDigits(b, 10) == |b|;
    assert b[..|b|] == b && b[|b|..] == [];
    assert ExponentValue([]) == 0;
  }

  /** Text that starts with a digit or a point is read by DecimalPrefix, unsigned. */
  lemma ParseFloatUnsigned(s: string)
    requires |s| > 0 && (IsDecimalDigit(s[0]) || s[0] == '.')
    ensures ParseFloat(s) == DecimalPrefix(false, s)
  {
    assert !IsStrWhiteSpace(s[0]);
    assert TrimStart(s) == s;
    assert !StartsWithInfinity(s);
  }

  /** Without an exponent, the value of a numeral is its integer part plus its
      fraction. */
  lemma DecimalValueWithoutExponent(n: nat, m: nat, f: nat)
    ensures DecimalValue(n, m, f, 0) == Fraction(n, m, f)
  {
    assert Scale(0) == 1.0;
  }

  /** "a.b", with a and b strings of decimal digits not both empty, parses
      under parseFloat to the value of a plus the value of b divided by 10 to
      the number of digits of b (the empty a or b counting as 0). */
  lemma ParseFloatOfDecimal(s: string, a: string, b: string)
    requires s == a + "." + b
    requires AllDigits(a, 10) && AllDigits(b, 10) && |a| + |b| > 0
    ensures ParseFloat(s) == Num(Fraction(DigitsValue(a, 10), DigitsValue(b, 10), |b|))
  {
    assert s[0] == if |a| > 0 then a[0] else '.';
    ParseFloatUnsigned(s);
    DecimalPrefixOfPoint(a, b);
    DecimalValueWithoutExponent(DigitsValue(a, 10), DigitsValue(b, 10), |b|);
  }

  /** After trimming and sign removal, text without decimal digits still has none. */
  lemma NoDigitsSurvive(s: string)
    requires forall i :: 0 <= i < |s| ==> !IsDecimalDigit(s[i]) && s[i] != 'I'
    ensures var u := DropSign(TrimStart(s));
      forall i :: 0 <= i < |u| ==> !IsDecimalDigit(u[i]) && u[i] != 'I'
  {
    var t := TrimStart(s);
    var u := DropSign(t);
    forall i | 0 <= i < |u| ensures !IsDecimalDigit(u[i]) && u[i] != 'I' {
      if u == t {
        assert u[i] == s[|s| - |t| + i];
      } else {
        assert u[i] == s[|s| - |t| + 1 + i];
      }
    }
  }

  /** Text without a decimal digit is NaN for parseInt. */
  lemma ParseIntNonNumeric(s: string)
    requires forall i :: 0 <= i < |s| ==> !IsDecimalDigit(s[i]) && s[i] != 'I'
    ensures ParseInt(s) == NaN
  {
    NoDigitsSurvive(s);
    var u := DropSign(TrimStart(s));
    if |u| > 0 {
      assert !IsRadixDigit(u[0], 10);
      assert !HasHexPrefix(u);
    }
  }

  /** Text without a decimal digit and without the letter I is NaN for parseFloat. */
  lemma ParseFloatNonNumeric(s: string)
    requires forall i :: 0 <= i < |s| ==> !IsDecimalDigit(s[i]) && s[i] != 'I'
    ensures ParseFloat(s) == NaN
  {
    NoDigitsSurvive(s);
    var u := DropSign(TrimStart(s));
    if |u| > 0 {
      assert !IsRadixDigit(u[0], 10);
      if u[0] == '.' && |u| > 1 {
        assert u[1..][0] == u[1];
        assert !IsRadixDigit(u[1..][0], 10);
      }
    }
  }

  /** Text without a decimal digit and without the letter I, the empty
      string among it, is NaN for both parseInt and parseFloat. */
  lemma NonNumericIsNaN(s: string)
    requires forall i :: 0 <= i < |s| ==> !IsDecimalDigit(s[i]) && s[i] != 'I'
    ensures ParseInt(s) == NaN && ParseFloat(s) == NaN
  {
    ParseIntNonNumeric(s);
    ParseFloatNonNumeric(s);
  }
}
