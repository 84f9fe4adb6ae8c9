/** The input validators of `src/utils/index.ts`, written as predicates that
    denote the language of each regular expression, and the default printer
    configuration. */
module Utils {
  import opened Text
  import opened Numbers

  /** `\d+(\.\d+)?` */
  predicate DecimalShape(s: string) {
    IsDigits(s) || exists i | 0 < i < |s| - 1 :: s[i] == '.' && IsDigits(s[..i]) && IsDigits(s[i + 1..])
  }

  /** `.?\d+`: an optional character other than a line terminator, then digits. */
  predicate AnyCharThenDigitsShape(s: string) {
    IsDigits(s) || (|s| >= 2 && !IsLineTerminator(s[0]) && IsDigits(s[1..]))
  }

  /** `isValidFloatNumber`: `/^(\d+(\.\d+)?)$|^(.?\d+)$/`. The `.` of the
      second alternative is not escaped, so any first character is allowed. */
  predicate IsValidFloatNumber(s: string) {
    DecimalShape(s) || AnyCharThenDigitsShape(s)
  }

  /** `isValidIntNumber`: `/^[0-9]+$/`. */
  predicate IsValidIntNumber(s: string) {
    IsDigits(s)
  }

  /** `isValidAmount`: `/^[0-9]*.?[0-9]{1,2}$/`. The last one or two digits
      start at `b`; before them come digits and at most one other character. */
  predicate IsValidAmount(s: string) {
    exists b | 0 <= b < |s| ::
      && |s| - b <= 2
      && IsDigits(s[b..])
      && (AllDigits(s[..b]) || (0 < b && AllDigits(s[..b - 1]) && !IsLineTerminator(s[b - 1])))
  }

  /** The class `[^<>()[\]\.,;:\s@\"]` of the email pattern. */
  predicate IsAtomChar(c: char) {
    c !in "<>()[].,;:@\"" && !IsSpace(c)
  }

  predicate AllAtomChars(s: string) {
    forall k | 0 <= k < |s| :: IsAtomChar(s[k])
  }

  /** `[^…]+(\.[^…]+)*`: runs of atom characters separated by single dots. */
  predicate IsDotAtom(t: string) {
    && |t| > 0
    && t[0] != '.'
    && t[|t| - 1] != '.'
    && (forall k | 0 <= k < |t| :: IsAtomChar(t[k]) || t[k] == '.')
    && (forall k | 0 <= k < |t| - 1 :: t[k] == '.' ==> t[k + 1] != '.')
  }

  /** `\".+\"`: a quoted local part; inside the quotes anything but a line
      terminator. */
  predicate IsQuotedLocal(t: string) {
    && |t| >= 3
    && t[0] == '"'
    && t[|t| - 1] == '"'
    && forall k | 0 < k < |t| - 1 :: !IsLineTerminator(t[k])
  }

  /** `([^…]+\.)+[^…]{2,}`: one or more dot-terminated labels, then a final
      label of at least two atom characters. */
  predicate IsDomain(d: string) {
    exists j | 0 < j < |d| - 2 :: d[j] == '.' && IsDotAtom(d[..j]) && AllAtomChars(d[j + 1..])
  }

  /** `isEmailValid`: local part (dotted atoms or a quoted string), `@`, domain.
      The `i` flag changes nothing: the pattern has no letters. */
  predicate IsEmailValid(s: string) {
    exists i | 0 < i < |s| :: s[i] == '@' && (IsDotAtom(s[..i]) || IsQuotedLocal(s[..i])) && IsDomain(s[i + 1..])
  }

  /** The printer configuration the app falls back to. */
  datatype PrinterConfig = PrinterConfig(printerDpi: Num, printerWidthMM: Num, printerNbrCharactersPerLine: Num)

  const PrinterDefaultConfig := PrinterConfig(Finite(150.0), Finite(48.0), Finite(30.0))

  /** `showAlert(title, message)` and `showToast(message)`: what the screens
      tell the user. */
  datatype Notice = Alert(title: string, message: string) | Toast(message: string)

  /** Whether a call to the printer returned or threw (with the error's
      message). */
  datatype PrintOutcome = PrintDone | PrintThrew(message: string)

  /** `error?.message || 'Something went wrong'` */
  function ErrorText(message: string): (t: string)
    ensures t != ""
    ensures message != "" ==> t == message
    ensures message == "" ==> t == "Something went wrong"
  {
    if message == "" then "Something went wrong" else message
  }

  /** Every integer string is a float string. */
  lemma IntIsFloat(s: string)
    requires IsValidIntNumber(s)
    ensures IsValidFloatNumber(s)
  {
  }

  /** The unescaped `.`: `.5`, `-5` and `x5` pass; the empty string and `1.` do not. */
  lemma FloatNumberExamples()
    ensures IsValidFloatNumber(".5") && IsValidFloatNumber("-5") && IsValidFloatNumber("x5")
    ensures !IsValidFloatNumber("") && !IsValidFloatNumber("1.")
  {
    assert ".5"[1..] == "5";
    assert "-5"[1..] == "5";
    assert "x5"[1..] == "5";
    assert "1."[1] == '.' && "1."[1..] == ".";
    assert !IsDigits("1.") && !IsDigits(".");
  }

  /** What `parseFloat` makes of a string the float check accepts: never
      an infinity; NaN exactly when the first character cannot start a
      number; otherwise a value that is negative only after a leading `-`. */
  predicate ParsesAsChecked(s: string)
    requires |s| > 0
  {
    var n := ParseFloat(s);
    && (n.Finite? || n.NaN?)
    && (n.NaN? <==> !IsNumberStart(s[0]))
    && (n.Finite? && s[0] != '-' ==> n.value >= 0.0)
  }

  /** `parseFloat` on a string `isValidFloatNumber` accepts, as described by
      `ParsesAsChecked`. */
  lemma ValidFloatParse(s: string)
    requires IsValidFloatNumber(s)
    ensures |s| > 0 && ParsesAsChecked(s)
  {
    if IsDigits(s) {
      ParseFloatOfDigits(s);
      assert IsDigit(s[0]);
    } else if i :| 0 < i < |s| - 1 && s[i] == '.' && IsDigits(s[..i]) && IsDigits(s[i + 1..]) {
      DecimalParse(s, i);
    } else {
      OneCharThenDigitsParse(s);
    }
  }

  lemma DecimalParse(s: string, i: int)
    requires 0 < i < |s| - 1 && s[i] == '.' && IsDigits(s[..i]) && IsDigits(s[i + 1..])
    ensures ParsesAsChecked(s)
  {
    assert s == s[..i] + "." + s[i + 1..];
    DigitsDotDigitsParse(s[..i], s[i + 1..]);
  }

  lemma DigitsDotDigitsParse(d1: string, d2: string)
    requires IsDigits(d1) && IsDigits(d2)
    ensures ParsesAsChecked(d1 + "." + d2)
  {
    ParseFloatOfDecimal(d1, d2);
    assert (d1 + "." + d2)[0] == d1[0];
  }

  lemma OneCharThenDigitsParse(s: string)
    requires |s| >= 2 && !IsLineTerminator(s[0]) && IsDigits(s[1..])
    ensures ParsesAsChecked(s)
  {
    var c, d := s[0], s[1..];
    assert s == [c] + d;
    CharThenDigitsParse(c, d);
  }

  lemma CharThenDigitsParse(c: char, d: string)
    requires !IsLineTerminator(c) && IsDigits(d)
    ensures ParsesAsChecked([c] + d)
  {
    var s := [c] + d;
    if c == '.' {
      ParseFloatLeadingDot(d);
    } else if c == '+' || c == '-' {
      ParseFloatSigned(c, d);
    } else if IsWhiteSpace(c) {
      ParseFloatSpaceThenDigits(c, d);
    } else if IsDigit(c) {
      assert IsDigits(s) by { assert s[1..] == d; }
      ParseFloatOfDigits(s);
    } else {
      ParseFloatNoNumber(c, d);
    }
  }

  /** `isValidAmount` lets one or two decimals through and no more. */
  lemma AmountExamples()
    ensures IsValidAmount("12.34") && !IsValidAmount("12.345")
  {
    var s := "12.34";
    assert s[3..] == "34" && s[..2] == "12";
    var t := "12.345";
    forall b | 0 <= b < |t| && |t| - b <= 2 && IsDigits(t[b..])
      ensures !AllDigits(t[..b]) && !(0 < b && AllDigits(t[..b - 1]))
    {
      assert b == 4 || b == 5;
      assert t[..b][2] == '.';
      assert t[..b - 1][2] == '.';
    }
  }

  /** An accepted amount is all digits, or has exactly one other character,
      which is neither last nor earlier than third from last. */
  lemma AmountShape(s: string)
    requires IsValidAmount(s)
    ensures |s| > 0 && IsDigit(s[|s| - 1])
    ensures AllDigits(s) || exists p | 0 <= p < |s| - 1 ::
              |s| - 3 <= p && !IsDigit(s[p]) && AllDigits(s[..p]) && AllDigits(s[p + 1..])
  {
    var b :| 0 <= b < |s| && |s| - b <= 2 && IsDigits(s[b..])
             && (AllDigits(s[..b]) || (0 < b && AllDigits(s[..b - 1]) && !IsLineTerminator(s[b - 1])));
    AmountShapeAt(s, b);
  }

  /** The same, for the final digits starting at `b`. */
  lemma AmountShapeAt(s: string, b: int)
    requires 0 <= b < |s| && |s| - b <= 2 && IsDigits(s[b..])
    requires AllDigits(s[..b]) || (0 < b && AllDigits(s[..b - 1]))
    ensures |s| > 0 && IsDigit(s[|s| - 1])
    ensures AllDigits(s) || exists p | 0 <= p < |s| - 1 ::
              |s| - 3 <= p && !IsDigit(s[p]) && AllDigits(s[..p]) && AllDigits(s[p + 1..])
  {
    assert s[|s| - 1] == s[b..][|s| - 1 - b];
    if AllDigits(s[..b]) {
      assert s == s[..b] + s[b..];
      AllDigitsConcat(s[..b], s[b..]);
    } else {
      // The other character is the one just before the final digits.
      var p := b - 1;
      assert s[..b] == s[..p] + [s[p]];
      AllDigitsSnoc(s[..p], s[p]);
      assert s[p + 1..] == s[b..];
      assert 0 <= p < |s| - 1 && |s| - 3 <= p && !IsDigit(s[p]) && AllDigits(s[..p]) && AllDigits(s[p + 1..]);
    }
  }

  /** The domain facts of an accepted email, for the `@` at position `i`. */
  predicate DomainAfter(s: string, i: int)
    requires 0 <= i < |s| - 3
  {
    && s[i] == '@'
    && (forall k | i < k < |s| :: IsAtomChar(s[k]) || s[k] == '.')
    && s[i + 1] != '.' && s[|s| - 1] != '.' && s[|s| - 2] != '.'
    && (exists k | i + 1 < k < |s| - 2 :: s[k] == '.')
    && (forall k | i < k < |s| - 1 :: s[k] == '.' ==> s[k + 1] != '.')
  }

  /** A domain consists of atom characters and dots, starts with an atom
      character, ends with two of them, has a dot before those, and never has
      two dots in a row: every label is non-empty. */
  lemma DomainShape(d: string)
    requires IsDomain(d)
    ensures |d| >= 4 && d[0] != '.' && d[|d| - 1] != '.' && d[|d| - 2] != '.'
    ensures forall m | 0 <= m < |d| :: IsAtomChar(d[m]) || d[m] == '.'
    ensures exists k | 0 < k < |d| - 2 :: d[k] == '.'
    ensures forall k | 0 <= k < |d| - 1 :: d[k] == '.' ==> d[k + 1] != '.'
  {
    var j :| 0 < j < |d| - 2 && d[j] == '.' && IsDotAtom(d[..j]) && AllAtomChars(d[j + 1..]);
    forall m | 0 <= m < |d| ensures IsAtomChar(d[m]) || d[m] == '.' {
      if m < j {
        assert d[m] == d[..j][m];
      } else if m > j {
        assert d[m] == d[j + 1..][m - j - 1];
      }
    }
    forall k | 0 <= k < |d| - 1 ensures d[k] == '.' ==> d[k + 1] != '.' {
      if k < j - 1 {
        assert d[k] == d[..j][k] && d[k + 1] == d[..j][k + 1];
      } else if k == j - 1 {
        assert d[k] == d[..j][j - 1];
      } else {
        assert IsAtomChar(d[j + 1..][k - j]);
        assert d[k + 1] == d[j + 1..][k - j];
      }
    }
    assert d[0] == d[..j][0];
    assert d[|d| - 1] == d[j + 1..][|d| - j - 2];
    assert d[|d| - 2] == d[j + 1..][|d| - j - 3];
  }

  /** After the `@` of an accepted email: no further `@`, no white space or
      quote, at least one dot, and a final label of two or more characters. */
  lemma EmailDomainShape(s: string)
    requires IsEmailValid(s)
    ensures exists i | 0 < i < |s| - 3 :: DomainAfter(s, i)
  {
    var i :| 0 < i < |s| && s[i] == '@' && (IsDotAtom(s[..i]) || IsQuotedLocal(s[..i])) && IsDomain(s[i + 1..]);
    DomainAfterAt(s, i);
  }

  /** The domain facts for an `@` at `i` followed by a domain. */
  lemma DomainAfterAt(s: string, i: int)
    requires 0 < i < |s| && s[i] == '@' && IsDomain(s[i + 1..])
    ensures i < |s| - 3 && DomainAfter(s, i)
  {
    var d := s[i + 1..];
    DomainShape(d);
    forall k | i < k < |s| ensures IsAtomChar(s[k]) || s[k] == '.' {
      assert s[k] == d[k - i - 1];
    }
    forall k | i < k < |s| - 1 && s[k] == '.' ensures s[k + 1] != '.' {
      assert s[k] == d[k - i - 1] && s[k + 1] == d[k - i];
    }
    var k :| 0 < k < |d| - 2 && d[k] == '.';
    assert s[i + 1 + k] == '.';
    assert DomainAfter(s, i);
  }

  lemma EmailExamples()
    ensures IsEmailValid("a@b.co")
    ensures !IsEmailValid("a@b.c")
  {
    var s := "a@b.co";
    assert s[..1] == "a" && s[2..] == "b.co";
    assert "b.co"[..1] == "b" && "b.co"[2..] == "co";
    assert IsDomain("b.co");
    var t := "a@b.c";
    forall i | 0 < i < |t| && t[i] == '@' ensures !IsDomain(t[i + 1..]) {
      assert i == 1;
      assert |t[i + 1..]| == 3;
    }
  }
}
