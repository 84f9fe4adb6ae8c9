/** JavaScript numbers as the app uses them: `parseFloat`, `isNaN`, the
    comparisons `<`, `<=`, `>`, strict equality and addition. Finite values are
    exact reals: IEEE-754 rounding is not modelled. */
module Numbers {
  import opened Text
  import opened Wrappers

  datatype Num = NaN | Infinity(negative: bool) | Finite(value: real)

  function DigitValue(c: char): nat
    requires IsDigit(c)
  {
    (c as int) - ('0' as int)
  }

  /** The value of a decimal digit string, most significant digit first. */
  function DigitsValue(d: string): nat
    requires AllDigits(d)
  {
    if d == [] then 0 else 10 * DigitsValue(d[..|d| - 1]) + DigitValue(d[|d| - 1])
  }

  function Pow10(n: nat): (p: nat)
    ensures p >= 1
  {
    if n == 0 then 1 else 10 * Pow10(n - 1)
  }

  /** 10 raised to an integer power. */
  function Scale(e: int): (r: real)
    ensures r > 0.0
  {
    if e >= 0 then Pow10(e) as real else 1.0 / (Pow10(-e) as real)
  }

  /** Length of the run of digits `s` starts with. */
  function LeadingDigits(s: string): (n: nat)
    ensures n <= |s| && AllDigits(s[..n])
    ensures n < |s| ==> !IsDigit(s[n])
  {
    if |s| == 0 || !IsDigit(s[0]) then 0 else 1 + LeadingDigits(s[1..])
  }

  lemma LeadingDigitsOfDigits(s: string)
    requires AllDigits(s)
    ensures LeadingDigits(s) == |s|
  {
  }

  /** Length and value of the longest ExponentPart (`e` or `E`, an optional
      sign, digits) that `s` starts with; (0, 0) when there is none. */
  function ExponentPrefix(s: string): (r: (nat, int))
    ensures r.0 <= |s|
  {
    if |s| > 0 && (s[0] == 'e' || s[0] == 'E') then
      var signLen := if |s| > 1 && (s[1] == '+' || s[1] == '-') then 1 else 0;
      var digits := s[1 + signLen..];
      var n := LeadingDigits(digits);
      if n == 0 then (0, 0)
      else
        var v: int := DigitsValue(digits[..n]);
        (1 + signLen + n, if signLen == 1 && s[1] == '-' then -v else v)
    else (0, 0)
  }

  predicate StartsWithInfinity(t: string) {
    |t| >= 8 && t[..8] == "Infinity"
  }

  /** Length and value of the longest mantissa (digits with an optional
      fraction: `1`, `1.`, `.5`, `1.5`) that `t` starts with. */
  function DecimalMantissa(t: string): (r: Option<(nat, real)>)
    ensures r.Some? ==> r.value.0 <= |t|
  {
    var n1 := LeadingDigits(t);
    var afterInt := t[n1..];
    var hasDot := |afterInt| > 0 && afterInt[0] == '.';
    var frac := if hasDot then afterInt[1..][..LeadingDigits(afterInt[1..])] else "";
    if n1 == 0 && |frac| == 0 then None
    else
      var len := if hasDot then n1 + 1 + |frac| else n1;
      Some((len, MantissaValue(t[..n1], frac)))
  }

  /** The value of `i.f` for digit strings `i` and `f`. */
  function MantissaValue(i: string, f: string): (r: real)
    requires AllDigits(i) && AllDigits(f)
    ensures r >= DigitsValue(i) as real
  {
    DigitsValue(i) as real + DigitsValue(f) as real / Pow10(|f|) as real
  }

  /** The value of the longest StrUnsignedDecimalLiteral that `t` starts with:
      `Infinity`, or a mantissa with an optional exponent. None when `t`
      starts with no such literal. */
  function ParseUnsignedPrefix(t: string): Option<Num> {
    if StartsWithInfinity(t) then Some(Infinity(false))
    else
      match DecimalMantissa(t)
      case None => None
      case Some(m) => Some(Finite(m.1 * Scale(ExponentPrefix(t[m.0..]).1)))
  }

  function Negate(n: Num): Num {
    match n
    case NaN => NaN
    case Infinity(neg) => Infinity(!neg)
    case Finite(v) => Finite(-v)
  }

  /** `parseFloat(s)`: leading white space is skipped, then the longest prefix
      that is a decimal literal with an optional sign is read; NaN when there
      is none. */
  function ParseFloat(s: string): Num {
    ParseSigned(TrimStart(s))
  }

  /** The literal with an optional sign that `t` starts with; NaN when none. */
  function ParseSigned(t: string): Num {
    if |t| > 0 && (t[0] == '+' || t[0] == '-') then
      match ParseUnsignedPrefix(t[1..])
      case None => NaN
      case Some(n) => if t[0] == '-' then Negate(n) else n
    else
      ParseUnsignedPrefix(t).GetOr(NaN)
  }

  /** `isNaN(n)` */
  predicate IsNaN(n: Num) {
    n.NaN?
  }

  /** `a < b`: false whenever either side is NaN. */
  predicate LessThan(a: Num, b: Num) {
    match (a, b)
    case (Finite(x), Finite(y)) => x < y
    case (Infinity(na), Infinity(nb)) => na && !nb
    case (Infinity(na), Finite(_)) => na
    case (Finite(_), Infinity(nb)) => !nb
    case _ => false
  }

  /** `a <= b`: false whenever either side is NaN. */
  predicate LessOrEqual(a: Num, b: Num) {
    !IsNaN(a) && !IsNaN(b) && !LessThan(b, a)
  }

  /** `a === b` on numbers: NaN equals nothing; +0 and -0 are one real. */
  predicate StrictEquals(a: Num, b: Num) {
    !IsNaN(a) && a == b
  }

  /** `a + b` */
  function Add(a: Num, b: Num): Num {
    match (a, b)
    case (Finite(x), Finite(y)) => Finite(x + y)
    case (Infinity(na), Infinity(nb)) => if na == nb then a else NaN
    case (Infinity(_), Finite(_)) => a
    case (Finite(_), Infinity(_)) => b
    case _ => NaN
  }

  /** A string that starts with neither white space nor a sign is read
      from its first character. */
  lemma ParseFloatUnsigned(s: string)
    requires |s| > 0 && !IsSpace(s[0]) && s[0] != '+' && s[0] != '-'
    ensures ParseFloat(s) == ParseUnsignedPrefix(s).GetOr(NaN)
  {
    assert TrimStart(s) == s;
  }

  lemma NotInfinity(t: string)
    requires |t| > 0 && t[0] != 'I'
    ensures !StartsWithInfinity(t)
  {
  }

  lemma MantissaOfDigits(s: string)
    requires IsDigits(s)
    ensures DecimalMantissa(s) == Some((|s|, MantissaValue(s, "")))
  {
    LeadingDigitsOfDigits(s);
    assert s[..|s|] == s;
    assert s[|s|..] == "";
  }

  lemma MantissaOfDecimal(d1: string, d2: string)
    requires AllDigits(d1) && IsDigits(d2)
    ensures DecimalMantissa(d1 + "." + d2)
            == Some((|d1| + 1 + |d2|, MantissaValue(d1, d2)))
  {
    var s := d1 + "." + d2;
    assert s[..|d1|] == d1;
    assert LeadingDigits(s) == |d1| by {
      LeadingDigitsOfDigits(d1);
      assert s[|d1|] == '.';
    }
    assert s[|d1|..][1..] == d2;
    LeadingDigitsOfDigits(d2);
    assert d2[..|d2|] == d2;
  }

  lemma MantissaValueOfInteger(i: string)
    requires AllDigits(i)
    ensures MantissaValue(i, "") == DigitsValue(i) as real
  {
    assert DigitsValue("") == 0;
    assert Pow10(0) == 1;
  }

  /** A digit string parses to its decimal value. */
  lemma ParseFloatOfDigits(s: string)
    requires IsDigits(s)
    ensures ParseFloat(s) == Finite(DigitsValue(s) as real)
  {
    assert IsDigit(s[0]);
    ParseFloatUnsigned(s);
    UnsignedOfDigits(s);
  }

  lemma UnsignedOfDigits(s: string)
    requires IsDigits(s)
    ensures ParseUnsignedPrefix(s) == Some(Finite(DigitsValue(s) as real))
  {
    NotInfinity(s);
    MantissaOfDigits(s);
    assert s[|s|..] == "";
    assert ExponentPrefix("") == (0, 0);
    assert Scale(0) == 1.0;
    MantissaValueOfInteger(s);
  }

  /** A mantissa with a fraction and nothing after it (`1.5`, `.5`) reads as
      its value. */
  lemma UnsignedOfDecimal(d1: string, d2: string)
    requires AllDigits(d1) && IsDigits(d2)
    ensures ParseUnsignedPrefix(d1 + "." + d2) == Some(Finite(MantissaValue(d1, d2)))
  {
    var s := d1 + "." + d2;
    if d1 == [] {
      assert s[0] == '.';
    } else {
      assert s[0] == d1[0];
    }
    NotInfinity(s);
    MantissaOfDecimal(d1, d2);
    assert s[|s|..] == "";
    assert ExponentPrefix("") == (0, 0);
    assert Scale(0) == 1.0;
  }

  /** `d1.d2` parses to the value of its integer and fractional digits. */
  lemma ParseFloatOfDecimal(d1: string, d2: string)
    requires IsDigits(d1) && IsDigits(d2)
    ensures ParseFloat(d1 + "." + d2)
            == Finite(MantissaValue(d1, d2))
  {
    var s := d1 + "." + d2;
    assert s[0] == d1[0];
    ParseFloatUnsigned(s);
    NotInfinity(s);
    MantissaOfDecimal(d1, d2);
    assert s[|s|..] == "";
    assert ExponentPrefix("") == (0, 0);
    assert Scale(0) == 1.0;
  }

  /** The characters `parseFloat` can start a number with (leading white
      space is skipped). */
  predicate IsNumberStart(c: char) {
    IsDigit(c) || c == '.' || c == '+' || c == '-' || IsWhiteSpace(c)
  }

  /** `.d` parses to the fraction `d` denotes. */
  lemma ParseFloatLeadingDot(d: string)
    requires IsDigits(d)
    ensures ParseFloat("." + d) == Finite(MantissaValue("", d))
  {
    var s := "." + d;
    assert s == "" + "." + d;
    ParseFloatUnsigned(s);
    NotInfinity(s);
    MantissaOfDecimal("", d);
    assert s[|s|..] == "";
    assert ExponentPrefix("") == (0, 0);
    assert Scale(0) == 1.0;
  }

  /** Without leading white space, `parseFloat` reads the string from its
      first character. */
  lemma ParseFloatNoLeadingSpace(s: string)
    requires |s| > 0 && !IsSpace(s[0])
    ensures ParseFloat(s) == ParseSigned(s)
  {
    assert TrimStart(s) == s;
  }

  lemma SignedDigits(c: char, d: string)
    requires (c == '+' || c == '-') && IsDigits(d)
    ensures ParseSigned([c] + d) == Finite(if c == '-' then -(DigitsValue(d) as real) else DigitsValue(d) as real)
  {
    var s := [c] + d;
    assert s[1..] == d;
    UnsignedOfDigits(d);
  }

  /** `+d` and `-d` parse to the signed value of the digits. */
  lemma ParseFloatSigned(c: char, d: string)
    requires (c == '+' || c == '-') && IsDigits(d)
    ensures ParseFloat([c] + d) == Finite(if c == '-' then -(DigitsValue(d) as real) else DigitsValue(d) as real)
  {
    var s := [c] + d;
    assert s[0] == c;
    ParseFloatNoLeadingSpace(s);
    SignedDigits(c, d);
  }

  /** Leading white space is skipped. */
  lemma ParseFloatSkipsSpace(c: char, t: string)
    requires IsSpace(c)
    ensures ParseFloat([c] + t) == ParseFloat(t)
  {
    assert ([c] + t)[1..] == t;
  }

  /** White space before digits is skipped. */
  lemma ParseFloatSpaceThenDigits(c: char, d: string)
    requires IsWhiteSpace(c) && IsDigits(d)
    ensures ParseFloat([c] + d) == Finite(DigitsValue(d) as real)
  {
    ParseFloatSkipsSpace(c, d);
    ParseFloatOfDigits(d);
  }

  /** A first character that cannot start a number gives NaN. */
  lemma ParseFloatNoNumber(c: char, d: string)
    requires !IsNumberStart(c) && !IsLineTerminator(c) && IsDigits(d)
    ensures ParseFloat([c] + d) == NaN
  {
    var s := [c] + d;
    assert s[0] == c && s[1] == d[0];
    ParseFloatUnsigned(s);
    assert !StartsWithInfinity(s) by {
      if c == 'I' {
        assert |s| < 8 || s[..8][1] == s[1];
      } else {
        NotInfinity(s);
      }
    }
    assert LeadingDigits(s) == 0;
    assert DecimalMantissa(s).None?;
  }
}
