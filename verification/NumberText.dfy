/** The text of a finite number in both languages. The worker's is Number::toString
    (ECMA-262, section 6.1.6.1.20), which starts from the shortest decimal of a double. */
module NumberText {
  import opened Numerals
  import opened TextParts

  datatype Dialect = TypeScript | Python

  /** 0.d1d2d3... times ten to the power `point`; both zeros are one. */
  datatype Shortest = Zero | Decimal(negative: bool, digits: string, point: int)

  predicate Significant(digits: string) {
    digits != "" && IsNumeral(B10, digits) && digits[0] != '0' && digits[|digits| - 1] != '0'
  }

  predicate IsShortest(x: Shortest) {
    x.Decimal? ==> Significant(x.digits)
  }

  /** Every finite double has one of these. */
  type Number = x: Shortest | IsShortest(x) witness Zero

  function Zeros(n: nat): (s: string)
    ensures |s| == n && forall i | 0 <= i < n :: s[i] == '0'
  {
    seq(n, _ => '0')
  }

  /** Integers in full, fractions with a point, small ones after leading zeros, the others
      with an exponent. */
  datatype Form = Whole | Pointed | Small | Exponent

  /** The pipeline writes out every integer, the worker up to twenty-one digits. The pipeline
      writes no fractions; for those the dialects are not told apart here. */
  function FormOf(d: Dialect, digits: string, point: int): Form {
    if |digits| <= point && (point <= 21 || d.Python?) then Whole
    else if 0 < point <= 21 then Pointed
    else if -6 < point <= 0 then Small
    else Exponent
  }

  function Mantissa(digits: string): string
    requires digits != ""
  {
    if |digits| == 1 then digits else digits[..1] + ("." + digits[1..])
  }

  function Power(e: int): string {
    if e < 0 then "-" + ToText(B10, -e) else "+" + ToText(B10, e)
  }

  function Unsigned(d: Dialect, digits: string, point: int): string
    requires digits != ""
  {
    match FormOf(d, digits, point)
    case Whole => digits + Zeros(point - |digits|)
    case Pointed => digits[..point] + ("." + digits[point..])
    case Small => "0." + (Zeros(-point) + digits)
    case Exponent => Mantissa(digits) + ("e" + Power(point - 1))
  }

  function TextOf(d: Dialect, x: Number): string {
    match x
    case Zero => "0"
    case Decimal(negative, digits, point) => if negative then "-" + Unsigned(d, digits, point) else Unsigned(d, digits, point)
  }

  predicate IsDigit(c: char) {
    '0' <= c <= '9'
  }

  predicate NumberChar(c: char) {
    IsDigit(c) || c in {'-', '+', '.', 'e'}
  }

  lemma NumeralChars(s: string)
    requires IsNumeral(B10, s)
    ensures forall c | c in s :: IsDigit(c)
  {
  }

  // ---------------------------------------------------------------- the text shows its form

  lemma MantissaChars(digits: string)
    requires Significant(digits)
    ensures forall c | c in Mantissa(digits) :: IsDigit(c) || c == '.'
    ensures Mantissa(digits) != "" && Mantissa(digits)[0] == digits[0]
  {
    NumeralChars(digits);
    assert digits[..1][0] == digits[0];
  }

  lemma PowerChars(e: int)
    ensures forall c | c in Power(e) :: IsDigit(c) || c == '-' || c == '+'
  {
    NumeralChars(ToText(B10, if e < 0 then -e else e));
    hide ToText;
  }

  /** The characters of a text, and what they say about its form. */
  lemma FormShows(d: Dialect, digits: string, point: int)
    requires Significant(digits)
    ensures var s := Unsigned(d, digits, point);
            && s != "" && IsDigit(s[0]) && s != "0" && (forall c | c in s :: NumberChar(c))
            && ('e' in s <==> FormOf(d, digits, point).Exponent?)
            && (FormOf(d, digits, point).Whole? ==> '.' !in s)
            && (FormOf(d, digits, point).Pointed? ==> '.' in s && s[0] != '0')
            && (FormOf(d, digits, point).Small? ==> '.' in s && s[0] == '0')
  {
    NumeralChars(digits);
    MantissaChars(digits);
    PowerChars(point - 1);
    hide IsNumeral, Mantissa, Power;
    var s := Unsigned(d, digits, point);
    match FormOf(d, digits, point)
    case Whole => assert s[0] == digits[0];
    case Pointed => assert s[0] == digits[0] && s[point] == '.';
    case Small => assert s[1] == '.';
    case Exponent =>
      var n := |Mantissa(digits)|;
      assert s[n] == 'e' && s[0] == digits[0];
  }

  // ---------------------------------------------------------------- the text gives the number

  lemma TrailingZeros(a: string, m: nat, b: string, n: nat)
    requires Significant(a) && Significant(b) && a + Zeros(m) == b + Zeros(n)
    ensures a == b && m == n
  {
    var s, t := a + Zeros(m), b + Zeros(n);
    assert s[|a| - 1] == a[|a| - 1] && t[|b| - 1] == b[|b| - 1];
    assert |a| == |b|;
    assert s[..|a|] == a && t[..|b|] == b;
  }

  lemma LeadingZeros(a: string, m: nat, b: string, n: nat)
    requires Significant(a) && Significant(b) && "0." + (Zeros(m) + a) == "0." + (Zeros(n) + b)
    ensures a == b && m == n
  {
    var s, t := Zeros(m) + a, Zeros(n) + b;
    assert ("0." + s)[2..] == s && ("0." + t)[2..] == t;
    assert s[m] == a[0] && t[n] == b[0];
    assert m == n;
    assert s[m..] == a && t[n..] == b;
  }

  lemma MantissaReads(a: string, b: string)
    requires Significant(a) && Significant(b) && Mantissa(a) == Mantissa(b)
    ensures a == b
  {
    var s, t := Mantissa(a), Mantissa(b);
    assert |a| > 1 ==> s[..1] == a[..1] && s[2..] == a[1..] && a == a[..1] + a[1..];
    assert |b| > 1 ==> t[..1] == b[..1] && t[2..] == b[1..] && b == b[..1] + b[1..];
  }

  lemma PowerReads(e: int, f: int)
    requires Power(e) == Power(f)
    ensures e == f
  {
    var m, n: nat := if e < 0 then -e else e, if f < 0 then -f else f;
    TextReadsBack(B10, m);
    TextReadsBack(B10, n);
    hide ToText, ToNumber;
    assert Power(e)[0] == Power(f)[0];
    assert Power(e)[1..] == ToText(B10, m) && Power(f)[1..] == ToText(B10, n);
  }

  lemma UnsignedReads(d: Dialect, a: string, m: int, b: string, n: int)
    requires Significant(a) && Significant(b) && Unsigned(d, a, m) == Unsigned(d, b, n)
    ensures a == b && m == n
  {
    hide Mantissa, Power, Significant, IsNumeral;
    FormShows(d, a, m);
    FormShows(d, b, n);
    assert FormOf(d, a, m) == FormOf(d, b, n) by { hide Unsigned, FormOf; }
    match FormOf(d, a, m)
    case Whole => TrailingZeros(a, m - |a|, b, n - |b|);
    case Pointed => PointReads(a, m, b, n);
    case Small => LeadingZeros(a, -m, b, -n);
    case Exponent => ExponentReads(a, m - 1, b, n - 1);
  }

  lemma ExponentReads(a: string, e: int, b: string, f: int)
    requires Significant(a) && Significant(b) && Mantissa(a) + ("e" + Power(e)) == Mantissa(b) + ("e" + Power(f))
    ensures a == b && e == f
  {
    MantissaChars(a);
    MantissaChars(b);
    FirstPart("e", Mantissa(a), Mantissa(b), Power(e), Power(f));
    MantissaReads(a, b);
    PowerReads(e, f);
  }

  lemma PointReads(a: string, m: nat, b: string, n: nat)
    requires Significant(a) && Significant(b) && m <= |a| && n <= |b|
    requires a[..m] + ("." + a[m..]) == b[..n] + ("." + b[n..])
    ensures a == b && m == n
  {
    NumeralChars(a);
    NumeralChars(b);
    hide IsNumeral;
    FirstPart(".", a[..m], b[..n], a[m..], b[n..]);
    assert a == a[..m] + a[m..] && b == b[..n] + b[n..];
  }

  lemma TextChars(d: Dialect, x: Number)
    ensures TextOf(d, x) != "" && (forall c | c in TextOf(d, x) :: NumberChar(c))
    ensures TextOf(d, x)[0] == '-' || IsDigit(TextOf(d, x)[0])
    ensures x.Decimal? ==> (x.negative <==> TextOf(d, x)[0] == '-') && TextOf(d, x) != "0"
  {
    if x.Decimal? { FormShows(d, x.digits, x.point); }
    hide Unsigned;
  }

  /** The text of a number is its own: what is hashed tells any two numbers apart. */
  lemma TextIsNumber(d: Dialect, x: Number, y: Number)
    ensures TextOf(d, x) == TextOf(d, y) <==> x == y
  {
    TextChars(d, x);
    TextChars(d, y);
    if TextOf(d, x) == TextOf(d, y) && x.Decimal? && y.Decimal? {
      hide Unsigned;
      var s, t := Unsigned(d, x.digits, x.point), Unsigned(d, y.digits, y.point);
      assert ("-" + s)[1..] == s && ("-" + t)[1..] == t;
      UnsignedReads(d, x.digits, x.point, y.digits, y.point);
    }
  }

  // ---------------------------------------------------------------- integers

  const MAX_SAFE := 9_007_199_254_740_991

  type SafeInt = n: int | -MAX_SAFE <= n <= MAX_SAFE

  function Magnitude(n: int): nat {
    if n < 0 then -n else n
  }

  /** The digits without the zeros at their end. */
  function Strip(s: string): string {
    if s != "" && s[|s| - 1] == '0' then Strip(s[..|s| - 1]) else s
  }

  lemma {:induction false} StripKeeps(s: string)
    requires s != "" && s[0] != '0' && IsNumeral(B10, s)
    ensures Significant(Strip(s)) && |Strip(s)| <= |s| && s == Strip(s) + Zeros(|s| - |Strip(s)|)
  {
    if s[|s| - 1] == '0' { StripKeeps(s[..|s| - 1]); }
  }

  lemma SafeDigits(n: SafeInt)
    ensures |ToText(B10, Magnitude(n))| <= 16
    ensures n != 0 ==> Significant(Strip(ToText(B10, Magnitude(n))))
  {
    var s := ToText(B10, Magnitude(n));
    TextLength(B10, Magnitude(n), 16);
    PowerOfTen();
    if n != 0 {
      TextIsCanonical(B10, Magnitude(n));
      StripKeeps(s);
    }
  }

  lemma PowerOfTen()
    ensures Pow(B10, 16) == 10_000_000_000_000_000
  {
    assert Pow(B10, 4) == 10_000;
    assert Pow(B10, 8) == 100_000_000;
    assert Pow(B10, 12) == 1_000_000_000_000;
  }

  function Integer(n: SafeInt): Number {
    SafeDigits(n);
    var s := ToText(B10, Magnitude(n));
    if n == 0 then Zero else Decimal(n < 0, Strip(s), |s|)
  }

  /** Both languages write a safe integer in full. */
  lemma IntegerText(d: Dialect, n: SafeInt)
    ensures TextOf(d, Integer(n)) == if n < 0 then "-" + ToText(B10, -n) else ToText(B10, n)
  {
    if n != 0 {
      SafeDigits(n);
      TextIsCanonical(B10, Magnitude(n));
      StripKeeps(ToText(B10, Magnitude(n)));
      hide ToText, Strip;
    }
  }

  lemma IntegersDiffer(m: SafeInt, n: SafeInt)
    ensures Integer(m) == Integer(n) <==> m == n
  {
    IntegerText(TypeScript, m);
    IntegerText(TypeScript, n);
    TextReadsBack(B10, Magnitude(m));
    TextReadsBack(B10, Magnitude(n));
    hide ToText, ToNumber, TextOf;
    if Integer(m) == Integer(n) {
      assert m < 0 ==> ("-" + ToText(B10, -m))[1..] == ToText(B10, Magnitude(m));
      assert n < 0 ==> ("-" + ToText(B10, -n))[1..] == ToText(B10, Magnitude(n));
    }
  }

  /** The integers of at most twenty-one digits, which both languages write alike. */
  predicate Plain(x: Number) {
    x.Zero? || |x.digits| <= x.point <= 21
  }

  lemma IntegerIsPlain(n: SafeInt)
    ensures Plain(Integer(n))
  {
    if n != 0 {
      SafeDigits(n);
      TextIsCanonical(B10, Magnitude(n));
      StripKeeps(ToText(B10, Magnitude(n)));
      hide ToText, Strip;
    }
  }

  /** Exactly when the two languages write one text for an integer. */
  lemma PlainIsAlike(x: Number)
    requires x.Decimal? ==> |x.digits| <= x.point
    ensures TextOf(TypeScript, x) == TextOf(Python, x) <==> Plain(x)
  {
    if x.Decimal? {
      FormShows(TypeScript, x.digits, x.point);
      FormShows(Python, x.digits, x.point);
      hide Unsigned;
      var s, t := Unsigned(TypeScript, x.digits, x.point), Unsigned(Python, x.digits, x.point);
      assert ("-" + s)[1..] == s && ("-" + t)[1..] == t;
      if Plain(x) { SameForm(x.digits, x.point); }
    }
  }

  lemma SameForm(digits: string, point: int)
    requires digits != "" && FormOf(TypeScript, digits, point) == FormOf(Python, digits, point)
    ensures Unsigned(TypeScript, digits, point) == Unsigned(Python, digits, point)
  {
  }
}
