/**
 * Python's `int(s)` and `float(s)` on text, as partial functions: None is
 * the ValueError they raise.  Both accept surrounding whitespace (only the
 * narrower set `IsNumberSpace`, not all of `str.isspace()`), a sign and
 * single underscores between digits; `float` also accepts a fraction, an
 * exponent and the spellings "inf", "infinity" and "nan" in any case.
 * Values are exact: a float is a real number, or an infinity, or NaN.
 */
module PyNumbers {
  import opened Wrappers
  import opened PyText

  /** What `float()` can return. */
  datatype Float = Finite(value: real) | Infinity(negative: bool) | NaN

  /** Digits with single underscores between them, as `int()` and `float()` accept. */
  predicate IsDigitGroup(s: string)
    decreases |s|
  {
    |s| > 0 && IsDigit(s[0]) &&
    (|s| == 1 || IsDigitGroup(s[1..]) || (|s| > 2 && s[1] == '_' && IsDigitGroup(s[2..])))
  }

  /** The number the digits of `s` spell, underscores skipped. */
  function DigitValue(s: string): nat
  {
    if s == [] then 0
    else if IsDigit(s[|s| - 1]) then 10 * DigitValue(s[..|s| - 1]) + (s[|s| - 1] as int - '0' as int)
    else DigitValue(s[..|s| - 1])
  }

  /** The number of digits in `s`. */
  function DigitCount(s: string): nat
  {
    if s == [] then 0
    else DigitCount(s[..|s| - 1]) + (if IsDigit(s[|s| - 1]) then 1 else 0)
  }

  function Pow10(n: nat): (r: nat)
    ensures r >= 1
  {
    if n == 0 then 1 else 10 * Pow10(n - 1)
  }

  /** A leading '+' or '-' split off: whether it was '-', and the rest. */
  function SplitSign(t: string): (bool, string)
  {
    if t != [] && (t[0] == '+' || t[0] == '-') then (t[0] == '-', t[1..]) else (false, t)
  }

  /** An optional sign, then a digit group: the integer literal of `int()` and a float's exponent. */
  function ParseSigned(t: string): Option<int>
  {
    var (negative, digits) := SplitSign(t);
    if IsDigitGroup(digits) then Some(if negative then -(DigitValue(digits) as int) else DigitValue(digits))
    else None
  }

  /** `int(s)`. */
  function ParseInt(s: string): Option<int>
  {
    ParseSigned(StripNumberSpace(s))
  }

  /** The index of the first character of `s` satisfying `p`, or `|s|` when there is none. */
  function FindFirst(s: string, p: char -> bool): (i: nat)
    ensures i <= |s|
  {
    if s == [] then 0 else if p(s[0]) then 0 else 1 + FindFirst(s[1..], p)
  }

  function LowerAscii(s: string): (r: string)
    ensures |r| == |s|
  {
    if s == [] then []
    else [if 'A' <= s[0] <= 'Z' then (s[0] as int + 32) as char else s[0]] + LowerAscii(s[1..])
  }

  predicate IsExponentMark(c: char)
  {
    c == 'e' || c == 'E'
  }

  predicate IsPoint(c: char)
  {
    c == '.'
  }

  /** `10^e` for any integer exponent. */
  function Scale(e: int): (r: real)
    ensures r > 0.0
  {
    if e >= 0 then Pow10(e) as real else 1.0 / Pow10(-e) as real
  }

  /** An unsigned decimal literal: a mantissa, then optionally `e` or `E` and a signed exponent. */
  function ParseDecimal(s: string): Option<real>
  {
    var e := FindFirst(s, IsExponentMark);
    if e == |s| then ParseMantissa(s)
    else match (ParseMantissa(s[..e]), ParseSigned(s[e + 1..]))
      case (Some(m), Some(x)) => Some(m * Scale(x))
      case _ => None
  }

  /** `digits`, `digits.`, `.digits` or `digits.digits`. */
  function ParseMantissa(m: string): Option<real>
  {
    var d := FindFirst(m, IsPoint);
    if d == |m| then (if IsDigitGroup(m) then Some(DigitValue(m) as real) else None)
    else MantissaValue(m[..d], m[d + 1..])
  }

  /** The value of `whole.fraction`, when at least one side has digits and neither is malformed. */
  function MantissaValue(whole: string, fraction: string): Option<real>
  {
    if whole == [] && fraction == [] then None
    else if whole != [] && !IsDigitGroup(whole) then None
    else if fraction != [] && !IsDigitGroup(fraction) then None
    else Some(DigitValue(whole) as real + FractionValue(fraction))
  }

  /** The value of the digits after the point. */
  function FractionValue(fraction: string): (r: real)
    ensures 0.0 <= r
  {
    DigitValue(fraction) as real / Pow10(DigitCount(fraction)) as real
  }

  /** `float(s)`. */
  function ParseFloat(s: string): Option<Float>
  {
    var (negative, body) := SplitSign(StripNumberSpace(s));
    var lower := LowerAscii(body);
    if lower == "inf" || lower == "infinity" then Some(Infinity(negative))
    else if lower == "nan" then Some(NaN)
    else match ParseDecimal(body)
      case None => None
      case Some(v) => Some(Finite(if negative then -v else v))
  }

  /** `int(x)` for a finite float: truncation toward zero. */
  function Trunc(x: real): (t: int)
    ensures x >= 0.0 ==> t as real <= x < t as real + 1.0
    ensures x < 0.0 ==> t as real - 1.0 < x <= t as real
  {
    if x >= 0.0 then x.Floor else -((-x).Floor)
  }

  // ---------------------------------------------------------------------------
  // str() followed by int() / float() gives the number back
  // ---------------------------------------------------------------------------

  lemma {:induction false} AllDigitsIsGroup(s: string)
    requires |s| > 0 && forall i :: 0 <= i < |s| ==> IsDigit(s[i])
    ensures IsDigitGroup(s)
  {
    if |s| > 1 {
      AllDigitsIsGroup(s[1..]);
    }
  }

  lemma {:induction false} DecimalValue(n: nat)
    ensures DigitValue(NatToDecimal(n)) == n
  {
    if n >= 10 {
      var s := NatToDecimal(n);
      assert s[..|s| - 1] == NatToDecimal(n / 10);
      DecimalValue(n / 10);
    }
  }

  lemma {:induction false} FindFirstAbsent(s: string, p: char -> bool)
    requires forall i :: 0 <= i < |s| ==> !p(s[i])
    ensures FindFirst(s, p) == |s|
  {
    if s != [] {
      FindFirstAbsent(s[1..], p);
    }
  }

  lemma DecimalHasNoPointOrExponent(n: nat)
    ensures FindFirst(NatToDecimal(n), IsExponentMark) == |NatToDecimal(n)|
    ensures FindFirst(NatToDecimal(n), IsPoint) == |NatToDecimal(n)|
  {
    var s := NatToDecimal(n);
    FindFirstAbsent(s, IsExponentMark);
    FindFirstAbsent(s, IsPoint);
  }

  /** int(str(i)) == i for every integer i. */
  lemma ParseIntOfDecimal(i: int)
    ensures ParseInt(IntToDecimal(i)) == Some(i)
  {
    var m: nat := if i < 0 then -i else i;
    var digits := NatToDecimal(m);
    AllDigitsIsGroup(digits);
    DecimalValue(m);
    SignedDecimalSplit(i);
  }

  /** float() of an unsigned decimal numeral is the number it spells. */
  lemma ParseDecimalOfDecimal(n: nat)
    ensures ParseDecimal(NatToDecimal(n)) == Some(n as real)
  {
    var s := NatToDecimal(n);
    DecimalHasNoPointOrExponent(n);
    assert ParseDecimal(s) == ParseMantissa(s);
    AllDigitsIsGroup(s);
    DecimalValue(n);
  }

  /** float(str(i)) is i for every integer i. */
  lemma ParseFloatOfDecimal(i: int)
    ensures ParseFloat(IntToDecimal(i)) == Some(Finite(i as real))
  {
    var m: nat := if i < 0 then -i else i;
    SignedDecimalSplit(i);
    NotSpecialSpelling(NatToDecimal(m));
    ParseDecimalOfDecimal(m);
    ParseFloatOfNumeral(IntToDecimal(i), i < 0, NatToDecimal(m), m as real);
  }

  /** str(i) strips to itself and splits into the sign of i and the digits of its magnitude. */
  lemma SignedDecimalSplit(i: int)
    ensures SplitSign(StripNumberSpace(IntToDecimal(i))) == (i < 0, NatToDecimal(if i < 0 then -i else i))
  {
    var digits := NatToDecimal(if i < 0 then -i else i);
    if i < 0 {
      NegativeNumeralSplit(digits);
    } else {
      NumeralSplit(digits);
    }
  }

  lemma NumeralSplit(digits: string)
    requires |digits| > 0 && IsDigit(digits[0]) && IsDigit(digits[|digits| - 1])
    ensures SplitSign(StripNumberSpace(digits)) == (false, digits)
  {
    StripUnchanged(digits, IsNumberSpace);
  }

  lemma NegativeNumeralSplit(digits: string)
    requires |digits| > 0 && IsDigit(digits[|digits| - 1])
    ensures SplitSign(StripNumberSpace("-" + digits)) == (true, digits)
  {
    var s := "-" + digits;
    assert s[0] == '-' && s[|s| - 1] == digits[|digits| - 1];
    assert !IsNumberSpace(s[0]);
    assert !IsNumberSpace(s[|s| - 1]);
    assert StripNumberSpace(s) == s by {
      StripUnchanged(s, IsNumberSpace);
    }
    assert s[1..] == digits;
    assert SplitSign(s) == (true, digits);
  }

  /** A string whose body after the sign is a plain decimal literal parses to that literal's value. */
  lemma ParseFloatOfNumeral(s: string, negative: bool, body: string, v: real)
    requires SplitSign(StripNumberSpace(s)) == (negative, body)
    requires LowerAscii(body) != "inf" && LowerAscii(body) != "infinity" && LowerAscii(body) != "nan"
    requires ParseDecimal(body) == Some(v)
    ensures ParseFloat(s) == Some(Finite(if negative then -v else v))
  {
  }

  lemma NotSpecialSpelling(body: string)
    requires |body| > 0 && IsDigit(body[0])
    ensures LowerAscii(body) != "inf" && LowerAscii(body) != "infinity" && LowerAscii(body) != "nan"
  {
    LowerAsciiKeepsDigits(body);
    assert LowerAscii(body)[0] != "inf"[0];
    assert "inf"[0] == "infinity"[0];
    assert LowerAscii(body)[0] != "nan"[0];
  }

  lemma {:induction false} LowerAsciiOfLower(s: string)
    requires forall i :: 0 <= i < |s| ==> !('A' <= s[i] <= 'Z')
    ensures LowerAscii(s) == s
  {
    if s != [] {
      LowerAsciiOfLower(s[1..]);
    }
  }

  /** float("inf") is positive infinity. */
  lemma ParseFloatInf()
    ensures ParseFloat("inf") == Some(Infinity(false))
  {
    StripUnchanged("inf", IsNumberSpace);
    assert SplitSign("inf") == (false, "inf");
    LowerAsciiOfLower("inf");
  }

  /** float("5.7") is 5.7. */
  lemma ParseFloatFiveSeven()
    ensures ParseFloat("5.7") == Some(Finite(5.7))
  {
    StripUnchanged("5.7", IsNumberSpace);
    assert SplitSign("5.7") == (false, "5.7");
    NotSpecialSpelling("5.7");
    DecimalFiveSeven();
    ParseFloatOfNumeral("5.7", false, "5.7", 5.7);
  }

  lemma DecimalFiveSeven()
    ensures ParseDecimal("5.7") == Some(5.7)
  {
    assert "5.7" == "5" + "." + "7";
    NoExponent("5.7");
    MantissaSplitsAtPoint("5", "7");
    assert IsDigitGroup("5") && IsDigitGroup("7");
    assert DigitValue("5") == 5 by { assert "5"[..0] == []; }
    assert DigitValue("7") == 7 && DigitCount("7") == 1 by { assert "7"[..0] == []; }
    assert FractionValue("7") == 0.7;
  }

  /** float("0.5") is 0.5. */
  lemma ParseFloatOneHalf()
    ensures ParseFloat("0.5") == Some(Finite(0.5))
  {
    StripUnchanged("0.5", IsNumberSpace);
    assert SplitSign("0.5") == (false, "0.5");
    NotSpecialSpelling("0.5");
    DecimalOneHalf();
    ParseFloatOfNumeral("0.5", false, "0.5", 0.5);
  }

  lemma DecimalOneHalf()
    ensures ParseDecimal("0.5") == Some(0.5)
  {
    assert "0.5" == "0" + "." + "5";
    NoExponent("0.5");
    MantissaSplitsAtPoint("0", "5");
    assert IsDigitGroup("0") && IsDigitGroup("5");
    assert DigitValue("0") == 0 by { assert "0"[..0] == []; }
    assert DigitValue("5") == 5 && DigitCount("5") == 1 by { assert "5"[..0] == []; }
    assert FractionValue("5") == 0.5;
  }

  lemma NoExponent(s: string)
    requires forall i :: 0 <= i < |s| ==> !IsExponentMark(s[i])
    ensures ParseDecimal(s) == ParseMantissa(s)
  {
    FindFirstAbsent(s, IsExponentMark);
  }

  lemma MantissaSplitsAtPoint(whole: string, fraction: string)
    requires forall i :: 0 <= i < |whole| ==> !IsPoint(whole[i])
    ensures ParseMantissa(whole + "." + fraction) == MantissaValue(whole, fraction)
  {
    var s := whole + "." + fraction;
    FindFirstAbsent(whole, IsPoint);
    FindFirstAfter(s, IsPoint, whole);
    assert s[|whole|..][0] == '.';
    assert FindFirst(s, IsPoint) == |whole|;
    assert s[..|whole|] == whole && s[|whole| + 1..] == fraction;
  }

  /** The first match in `prefix + rest` is past the prefix when the prefix has none. */
  lemma {:induction false} FindFirstAfter(s: string, p: char -> bool, prefix: string)
    requires |prefix| <= |s| && s[..|prefix|] == prefix
    requires FindFirst(prefix, p) == |prefix|
    ensures FindFirst(s, p) == |prefix| + FindFirst(s[|prefix|..], p)
  {
    if prefix != [] {
      assert !p(prefix[0]);
      assert s[1..][..|prefix| - 1] == prefix[1..];
      assert s[1..][|prefix| - 1..] == s[|prefix|..];
      FindFirstAfter(s[1..], p, prefix[1..]);
    }
  }

  /** A word that starts with neither a sign nor a digit is not an integer. */
  lemma ParseIntRejectsWord(s: string)
    requires |s| > 0 && !IsNumberSpace(s[0]) && !IsNumberSpace(s[|s| - 1])
    requires !IsDigit(s[0]) && s[0] != '+' && s[0] != '-'
    ensures ParseInt(s).None?
  {
    StripUnchanged(s, IsNumberSpace);
    assert SplitSign(s) == (false, s);
  }

  /**
   * A word that starts with none of a sign, a digit, a point, an exponent
   * mark or the first letter of "inf", "infinity" or "nan" is not a float.
   */
  lemma ParseFloatRejectsWord(s: string)
    requires |s| > 0 && !IsNumberSpace(s[0]) && !IsNumberSpace(s[|s| - 1])
    requires !IsDigit(s[0]) && s[0] != '+' && s[0] != '-' && !IsPoint(s[0]) && !IsExponentMark(s[0])
    requires s[0] !in "iInN"
    ensures ParseFloat(s).None?
  {
    StripUnchanged(s, IsNumberSpace);
    assert SplitSign(s) == (false, s);
    assert LowerAscii(s)[0] == LowerAscii(s[..1])[0] by {
      assert LowerAscii(s) == LowerAscii(s[..1]) + LowerAscii(s[1..]);
    }
    assert LowerAscii(s)[0] != 'i' && LowerAscii(s)[0] != 'n';
    var e := FindFirst(s, IsExponentMark);
    assert e > 0;
    MantissaRejectsWord(s[..e]);
  }

  /** A mantissa that starts with neither a digit nor a point is malformed. */
  lemma MantissaRejectsWord(m: string)
    requires |m| > 0 && !IsDigit(m[0]) && !IsPoint(m[0])
    ensures ParseMantissa(m).None?
  {
    var d := FindFirst(m, IsPoint);
    assert d > 0;
    if d < |m| {
      assert m[..d][0] == m[0];
    }
  }

  lemma {:induction false} LowerAsciiKeepsDigits(s: string)
    requires |s| > 0 && IsDigit(s[0])
    ensures LowerAscii(s)[0] == s[0]
  {
  }
}
