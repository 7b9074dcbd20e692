/**
 * The few Python string operations the tank service relies on:
 * `str.strip()`, `str.startswith()` and the decimal spelling of an integer,
 * and the narrower whitespace that `int()` and `float()` skip.
 */
module PyText {

  /** ASCII characters for which Python's `str.isspace()` holds. */
  predicate IsSpace(c: char)
  {
    c == ' ' || 9 <= c as int <= 13 || 28 <= c as int <= 31
  }

  predicate IsDigit(c: char)
  {
    '0' <= c <= '9'
  }

  /**
   * ASCII characters that `int()` and `float()` skip around a number: only
   * space and `\t \n \v \f \r`, not the separators 0x1C..0x1F that
   * `str.isspace()` also accepts.
   */
  predicate IsNumberSpace(c: char)
  {
    c == ' ' || 9 <= c as int <= 13
  }

  /** The suffix left after dropping the leading characters that satisfy `space`. */
  function StripLeft(s: string, space: char -> bool): (r: string)
    ensures |r| <= |s| && r == s[|s| - |r|..]
    ensures r == [] || !space(r[0])
    ensures forall i :: 0 <= i < |s| - |r| ==> space(s[i])
  {
    if s != [] && space(s[0]) then StripLeft(s[1..], space) else s
  }

  /** The prefix left after dropping the trailing characters that satisfy `space`. */
  function StripRight(s: string, space: char -> bool): (r: string)
    ensures |r| <= |s| && r == s[..|r|]
    ensures r == [] || !space(r[|r| - 1])
    ensures forall i :: |r| <= i < |s| ==> space(s[i])
  {
    if s != [] && space(s[|s| - 1]) then StripRight(s[..|s| - 1], space) else s
  }

  /** `s` with the characters satisfying `space` dropped at both ends. */
  function StripBy(s: string, space: char -> bool): string
  {
    StripRight(StripLeft(s, space), space)
  }

  /** `s.strip()`. */
  function Strip(s: string): (r: string)
    ensures r == [] || (!IsSpace(r[0]) && !IsSpace(r[|r| - 1]))
    ensures exists i, j ::
              && 0 <= i <= j <= |s| && r == s[i..j]
              && (forall k :: 0 <= k < i ==> IsSpace(s[k]))
              && (forall k :: j <= k < |s| ==> IsSpace(s[k]))
  {
    var l := StripLeft(s, IsSpace);
    var r := StripRight(l, IsSpace);
    assert r == s[|s| - |l|..|s| - |l| + |r|];
    r
  }

  /** The text `int()` and `float()` parse: `s` without surrounding number whitespace. */
  function StripNumberSpace(s: string): string
  {
    StripBy(s, IsNumberSpace)
  }

  /** A string that neither starts nor ends with a `space` character is its own strip. */
  lemma StripUnchanged(s: string, space: char -> bool)
    requires s == [] || (!space(s[0]) && !space(s[|s| - 1]))
    ensures StripBy(s, space) == s
  {
  }

  /** `s.startswith(prefix)`. */
  predicate StartsWith(s: string, prefix: string)
  {
    |prefix| <= |s| && s[..|prefix|] == prefix
  }

  function DigitChar(d: nat): (c: char)
    requires d < 10
    ensures IsDigit(c) && c as int - '0' as int == d
  {
    ('0' as int + d) as char
  }

  /** `str(n)` for a non-negative integer: its decimal digits, most significant first. */
  function NatToDecimal(n: nat): (s: string)
    ensures |s| > 0
    ensures forall i :: 0 <= i < |s| ==> IsDigit(s[i])
  {
    if n < 10 then [DigitChar(n)] else NatToDecimal(n / 10) + [DigitChar(n % 10)]
  }

  /** `str(i)` for any integer. */
  function IntToDecimal(i: int): (s: string)
    ensures |s| > 0
  {
    if i < 0 then "-" + NatToDecimal(-i) else NatToDecimal(i)
  }

  /** str(101) == "101". */
  lemma DecimalOf101()
    ensures IntToDecimal(101) == "101"
  {
    assert NatToDecimal(1) == "1";
    assert NatToDecimal(10) == NatToDecimal(1) + [DigitChar(0)];
    assert NatToDecimal(101) == NatToDecimal(10) + [DigitChar(1)];
  }
}
