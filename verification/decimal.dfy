/**
 * Decimal text as the persisted calibration files hold it: Python's `str()` of an
 * integer, and Python's `int()` applied to a string (base 10, ASCII input).
 */
module Decimal {
  import opened Wrappers

  /**
   * The whitespace `int()` strips from both ends of ASCII text: space, tab, line
   * feed, vertical tab, form feed and carriage return. The separators 0x1C..0x1F,
   * which `str.isspace()` also accepts, are never stripped.
   */
  predicate IsSpace(c: char) {
    c == ' ' || c == '\t' || c == '\n' || c == '\r' || c == '\U{B}' || c == '\U{C}'
  }

  predicate IsDigit(c: char) {
    '0' <= c <= '9'
  }

  function DigitValue(c: char): (d: nat)
    requires IsDigit(c)
    ensures d < 10
  {
    (c as int) - ('0' as int)
  }

  function DigitChar(d: nat): (c: char)
    requires d < 10
    ensures IsDigit(c) && DigitValue(c) == d
  {
    (('0' as int) + d) as char
  }

  predicate DigitsOrUnderscores(s: string) {
    forall i :: 0 <= i < |s| ==> IsDigit(s[i]) || s[i] == '_'
  }

  /**
   * The digit part `int()` accepts: non-empty, digits with single underscores
   * between them (no leading, trailing or doubled underscore).
   */
  predicate IsDigitGroup(s: string) {
    && |s| > 0
    && IsDigit(s[0])
    && IsDigit(s[|s| - 1])
    && DigitsOrUnderscores(s)
    && forall i :: 0 <= i < |s| - 1 ==> !(s[i] == '_' && s[i + 1] == '_')
  }

  /** The value of a digit string, underscores skipped. */
  function DigitsValue(s: string): nat
    requires DigitsOrUnderscores(s)
  {
    if |s| == 0 then 0
    else if s[|s| - 1] == '_' then DigitsValue(s[..|s| - 1])
    else DigitsValue(s[..|s| - 1]) * 10 + DigitValue(s[|s| - 1])
  }

  function TrimStart(s: string): (r: string)
    ensures |r| <= |s| && r == s[|s| - |r|..]
    ensures forall i :: 0 <= i < |s| - |r| ==> IsSpace(s[i])
    ensures |r| > 0 ==> !IsSpace(r[0])
  {
    if |s| > 0 && IsSpace(s[0]) then TrimStart(s[1..]) else s
  }

  function TrimEnd(s: string): (r: string)
    ensures |r| <= |s| && r == s[..|r|]
    ensures forall i :: |r| <= i < |s| ==> IsSpace(s[i])
    ensures |r| > 0 ==> !IsSpace(r[|r| - 1])
  {
    if |s| > 0 && IsSpace(s[|s| - 1]) then TrimEnd(s[..|s| - 1]) else s
  }

  /** `str.strip()` restricted to ASCII whitespace. */
  function Strip(s: string): string {
    TrimEnd(TrimStart(s))
  }

  /**
   * `int(text)`: None where Python raises ValueError. Leading zeros are accepted,
   * as base-10 `int()` accepts them.
   */
  function ParseInt(text: string): Option<int> {
    var t := Strip(text);
    if |t| > 0 && (t[0] == '+' || t[0] == '-') then
      if IsDigitGroup(t[1..]) then
        var v: int := DigitsValue(t[1..]);
        Some(if t[0] == '-' then -v else v)
      else None
    else if IsDigitGroup(t) then Some(DigitsValue(t))
    else None
  }

  /** `str(n)` for a natural number: its digits, no leading zero, no underscore. */
  function FormatNat(n: nat): (r: string)
    ensures |r| > 0 && DigitsOrUnderscores(r)
    ensures forall i :: 0 <= i < |r| ==> IsDigit(r[i])
    ensures |r| > 1 ==> r[0] != '0'
    ensures DigitsValue(r) == n
  {
    if n < 10 then [DigitChar(n)]
    else
      var prefix := FormatNat(n / 10);
      var r := prefix + [DigitChar(n % 10)];
      assert r[..|r| - 1] == prefix;
      r
  }

  /** `str(n)` for any integer. */
  function FormatInt(n: int): string {
    if n < 0 then "-" + FormatNat(-n) else FormatNat(n)
  }

  lemma StripIdentity(s: string)
    requires |s| > 0 && !IsSpace(s[0]) && !IsSpace(s[|s| - 1])
    ensures Strip(s) == s
  {
  }

  /** What `str()` writes, `int()` reads back: for every integer. */
  lemma {:induction false} ParseFormatRoundTrip(n: int)
    ensures ParseInt(FormatInt(n)) == Some(n)
  {
    var s := FormatInt(n);
    var digits := FormatNat(if n < 0 then -n else n);
    assert IsDigitGroup(digits);
    if n < 0 {
      assert s[1..] == digits;
      StripIdentity(s);
    } else {
      StripIdentity(s);
    }
  }

  /** The uncalibrated sentinel reads back as -1. */
  lemma ParseSentinel()
    ensures ParseInt("-1") == Some(-1)
  {
    assert FormatNat(1) == "1";
    assert FormatInt(-1) == "-1";
    ParseFormatRoundTrip(-1);
  }

  /** A two-digit value past the phase table. */
  lemma ParseNinetyNine()
    ensures ParseInt("99") == Some(99)
  {
    assert FormatNat(9) == "9";
    assert FormatNat(99) == "99";
    ParseFormatRoundTrip(99);
  }

  /** Text that strips to a digit group parses as its digits' value. */
  lemma ParseGroup(text: string)
    requires IsDigitGroup(Strip(text))
    ensures ParseInt(text) == Some(DigitsValue(Strip(text)))
  {
  }

  /** Text that strips to something neither signed nor a digit group is rejected. */
  lemma ParseNonGroup(text: string)
    requires var t := Strip(text); !IsDigitGroup(t) && (|t| == 0 || !(t[0] == '+' || t[0] == '-'))
    ensures ParseInt(text) == None
  {
  }

  /** Surrounding whitespace is stripped, as `int()` strips it (" 5\n" is 5). */
  lemma ParseSurroundingSpace(before: char, d: char, after: char)
    requires IsSpace(before) && IsDigit(d) && IsSpace(after)
    ensures ParseInt([before, d, after]) == Some(DigitValue(d))
  {
    StripSpaced(before, d, after);
    ParseStrippedDigit([before, d, after], d);
  }

  /** Stripping a character between two spaces leaves that character. */
  lemma StripSpaced(before: char, c: char, after: char)
    requires IsSpace(before) && !IsSpace(c) && IsSpace(after)
    ensures Strip([before, c, after]) == [c]
  {
    var text := [before, c, after];
    assert text[1..] == [c, after];
    assert TrimStart(text) == [c, after];
    TrimEndOne(c, after);
  }

  /** A trailing space after a non-space character is stripped. */
  lemma TrimEndOne(c: char, sp: char)
    requires !IsSpace(c) && IsSpace(sp)
    ensures TrimEnd([c, sp]) == [c]
  {
    assert [c, sp][..1] == [c];
  }

  /** Text that strips to a lone digit parses as that digit's value. */
  lemma ParseStrippedDigit(text: string, c: char)
    requires IsDigit(c) && Strip(text) == [c]
    ensures ParseInt(text) == Some(DigitValue(c))
  {
    var t := [c];
    assert IsDigitGroup(t);
    assert t[..0] == "";
    assert DigitsValue(t) == DigitValue(c);
  }

  /** A single underscore between digits is accepted, as `int()` accepts it ("1_0" is 10). */
  lemma ParseUnderscore(d: char, e: char)
    requires IsDigit(d) && IsDigit(e)
    ensures ParseInt([d, '_', e]) == Some(10 * DigitValue(d) + DigitValue(e))
  {
    var t := [d, '_', e];
    StripIdentity(t);
    assert IsDigitGroup(t);
    assert t[..2] == [d, '_'] && [d, '_'][..1] == [d] && [d][..0] == "";
    assert DigitsValue([d, '_']) == DigitsValue([d]) == DigitValue(d);
  }

  /** An empty file is not an integer. */
  lemma ParseRejectsEmpty()
    ensures ParseInt("") == None
  {
    assert TrimStart("") == "" && TrimEnd("") == "";
    ParseNonGroup("");
  }

  /** A decimal point is not part of an integer ("5.0" is rejected). */
  lemma ParseRejectsDecimalPoint(d: char, e: char)
    requires IsDigit(d) && IsDigit(e)
    ensures ParseInt([d, '.', e]) == None
  {
    var t := [d, '.', e];
    StripIdentity(t);
    assert !DigitsOrUnderscores(t) by {
      assert !(IsDigit(t[1]) || t[1] == '_');
    }
    ParseNonGroup(t);
  }

  /** A doubled underscore is rejected ("1__0"). */
  lemma ParseRejectsDoubleUnderscore(d: char, e: char)
    requires IsDigit(d) && IsDigit(e)
    ensures ParseInt([d, '_', '_', e]) == None
  {
    var t := [d, '_', '_', e];
    StripIdentity(t);
    assert t[1] == '_' && t[2] == '_';
    assert !IsDigitGroup(t);
    ParseNonGroup(t);
  }

  /** The file separator 0x1C is not whitespace to `int()`: "\x1c5 " is rejected. */
  lemma ParseRejectsFileSeparator()
    ensures ParseInt("\U{1C}5 ") == None
  {
    StripKeepsSeparator('5');
    ParseRejectsLead("\U{1C}5 ");
  }

  /** Text whose stripped form starts with neither a sign nor a digit is rejected. */
  lemma ParseRejectsLead(text: string)
    requires var t := Strip(text); |t| > 0 && !IsDigit(t[0]) && t[0] != '+' && t[0] != '-'
    ensures ParseInt(text) == None
  {
  }

  /** Stripping "\x1c5 " removes the trailing space and keeps the separator. */
  lemma StripKeepsSeparator(d: char)
    requires IsDigit(d)
    ensures Strip(['\U{1C}', d, ' ']) == ['\U{1C}', d]
  {
    TrimStartStops(['\U{1C}', d, ' ']);
    TrimEndLast('\U{1C}', d, ' ');
  }

  /** Nothing is trimmed from the front of text that starts with a non-space. */
  lemma TrimStartStops(s: string)
    requires |s| > 0 && !IsSpace(s[0])
    ensures TrimStart(s) == s
  {
  }

  /** One trailing space after a non-space is trimmed from three characters. */
  lemma TrimEndLast(a: char, c: char, sp: char)
    requires !IsSpace(c) && IsSpace(sp)
    ensures TrimEnd([a, c, sp]) == [a, c]
  {
    assert [a, c, sp][..2] == [a, c];
  }
}
