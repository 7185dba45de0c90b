/**
 * The few JavaScript value semantics the create-collection page relies on:
 * numbers that may be NaN, truthiness, `Number(string)`, `parseInt(string)`
 * and `String.prototype.split` with a one-character separator.
 */
module JsValues {

  /** A JavaScript number as this model needs it: an integral value, or NaN. */
  datatype Num = NaN | Int(value: int)

  /** ToBoolean on a number: NaN, 0 and -0 are falsy, everything else is truthy. */
  predicate Truthy(n: Num) {
    n.Int? && n.value != 0
  }

  // ---------------------------------------------------------------- digits

  predicate IsDecimalDigit(c: char) {
    '0' <= c <= '9'
  }

  predicate IsHexDigit(c: char) {
    IsDecimalDigit(c) || 'a' <= c <= 'f' || 'A' <= c <= 'F'
  }

  function HexDigitValue(c: char): (d: nat)
    requires IsHexDigit(c)
    ensures d < 16
    ensures IsDecimalDigit(c) <==> d < 10
  {
    if IsDecimalDigit(c) then c as int - '0' as int
    else if 'a' <= c <= 'f' then c as int - 'a' as int + 10
    else c as int - 'A' as int + 10
  }

  function DigitChar(d: nat): (c: char)
    requires d < 10
    ensures IsDecimalDigit(c) && HexDigitValue(c) == d
  {
    ('0' as int + d) as char
  }

  predicate AllDecimalDigits(s: string) {
    forall i :: 0 <= i < |s| ==> IsDecimalDigit(s[i])
  }

  predicate AllHexDigits(s: string) {
    forall i :: 0 <= i < |s| ==> IsHexDigit(s[i])
  }

  /** The value of a digit string in the given radix, most significant digit first. */
  function DigitsValue(s: string, radix: nat): (n: nat)
    requires radix == 10 || radix == 16
    requires AllHexDigits(s)
  {
    if s == [] then 0
    else radix * DigitsValue(s[..|s| - 1], radix) + HexDigitValue(s[|s| - 1])
  }

  /** The shortest decimal spelling of a natural number (no leading zeros). */
  function DecimalString(n: nat): (s: string)
    ensures 1 <= |s| && AllDecimalDigits(s)
    ensures s[0] == '0' ==> n == 0 && |s| == 1
  {
    if n < 10 then [DigitChar(n)]
    else DecimalString(n / 10) + [DigitChar(n % 10)]
  }

  /** Two decimal digits with a leading zero, as a time input shows an hour or a minute. */
  function Pad2(n: nat): (s: string)
    requires n < 100
    ensures |s| == 2 && AllDecimalDigits(s)
  {
    [DigitChar(n / 10), DigitChar(n % 10)]
  }

  lemma {:induction false} DecimalStringValue(n: nat)
    ensures AllHexDigits(DecimalString(n))
    ensures DigitsValue(DecimalString(n), 10) == n
  {
    var s := DecimalString(n);
    if n >= 10 {
      DecimalStringValue(n / 10);
      assert s[..|s| - 1] == DecimalString(n / 10);
    }
  }

  lemma TwoDigitsValue(s: string)
    requires |s| == 2 && AllDecimalDigits(s)
    ensures AllHexDigits(s)
    ensures DigitsValue(s, 10) == 10 * HexDigitValue(s[0]) + HexDigitValue(s[1])
  {
    var p := s[..1];
    assert s[..|s| - 1] == p && p == [s[0]] && p[..0] == [];
    assert DigitsValue(p, 10) == HexDigitValue(s[0]);
  }

  lemma Pad2Value(n: nat)
    requires n < 100
    ensures AllHexDigits(Pad2(n))
    ensures DigitsValue(Pad2(n), 10) == n
  {
    TwoDigitsValue(Pad2(n));
  }

  /** Two decimal digits are the Pad2 spelling of their own value. */
  lemma Pad2OfDigits(s: string)
    requires |s| == 2 && AllDecimalDigits(s)
    ensures AllHexDigits(s)
    ensures DigitsValue(s, 10) < 100 && Pad2(DigitsValue(s, 10)) == s
  {
    TwoDigitsValue(s);
    var n := DigitsValue(s, 10);
    assert n / 10 == HexDigitValue(s[0]) && n % 10 == HexDigitValue(s[1]);
  }

  // ---------------------------------------------------------------- Number()

  /**
   * `Number(s)` for the strings a time input produces: the empty string is 0,
   * a string of decimal digits is its value (leading zeros allowed), and
   * every other string is treated as NaN.
   */
  function NumberOf(s: string): (r: Num)
    ensures r.Int? <==> AllDecimalDigits(s)
    ensures r.Int? ==> r.value >= 0
    ensures s == [] ==> r == Int(0)
  {
    if AllDecimalDigits(s) then Int(DigitsValue(s, 10)) else NaN
  }

  // ---------------------------------------------------------------- parseInt()

  /** The StrWhiteSpaceChar set of ECMAScript: white space and line terminators. */
  predicate IsJsWhitespace(c: char) {
    c == ' ' || c == '\t' || c == '\n' || c == '\r' || c == '\U{000B}' || c == '\U{000C}'
    || c == '\U{00A0}' || c == '\U{1680}' || ('\U{2000}' <= c <= '\U{200A}')
    || c == '\U{2028}' || c == '\U{2029}' || c == '\U{202F}' || c == '\U{205F}'
    || c == '\U{3000}' || c == '\U{FEFF}'
  }

  function TrimStart(s: string): (r: string)
    ensures |r| <= |s| && r == s[|s| - |r|..]
    ensures r == [] || !IsJsWhitespace(r[0])
    ensures forall i :: 0 <= i < |s| - |r| ==> IsJsWhitespace(s[i])
  {
    if s != [] && IsJsWhitespace(s[0]) then TrimStart(s[1..]) else s
  }

  /** The longest prefix of `s` made of digits of the radix. */
  function DigitPrefix(s: string, radix: nat): (r: string)
    requires radix == 10 || radix == 16
    ensures |r| <= |s| && r == s[..|r|]
    ensures AllHexDigits(r)
    ensures radix == 10 ==> AllDecimalDigits(r)
    ensures |r| < |s| ==> !(if radix == 10 then IsDecimalDigit(s[|r|]) else IsHexDigit(s[|r|]))
  {
    if s != [] && (if radix == 10 then IsDecimalDigit(s[0]) else IsHexDigit(s[0]))
    then [s[0]] + DigitPrefix(s[1..], radix)
    else []
  }

  /**
   * `parseInt(s)` with no radix: skip leading white space, take an optional
   * sign, read hexadecimal after a `0x`/`0X` prefix and decimal otherwise, and
   * stop at the first character that is not a digit; no digit at all is NaN.
   */
  function ParseInt(s: string): (n: Num)
    ensures TrimStart(s) == [] ==> n == NaN
    ensures n.Int? && n.value < 0 ==> TrimStart(s)[0] == '-'
  {
    var t := TrimStart(s);
    if t != [] && t[0] == '-' then Negate(ParseUnsigned(t[1..]))
    else if t != [] && t[0] == '+' then ParseUnsigned(t[1..])
    else ParseUnsigned(t)
  }

  function Negate(n: Num): Num {
    if n.NaN? then NaN else Int(-n.value)
  }

  /** The digits after the sign, in the radix their prefix selects. */
  function ParseUnsigned(u: string): (n: Num)
    ensures u == [] ==> n == NaN
    ensures n.Int? ==> n.value >= 0
  {
    var hex := |u| >= 2 && u[0] == '0' && (u[1] == 'x' || u[1] == 'X');
    var radix := if hex then 16 else 10;
    var digits := DigitPrefix(if hex then u[2..] else u, radix);
    if digits == [] then NaN else Int(DigitsValue(digits, radix))
  }

  lemma {:induction false} DigitPrefixOfDigits(s: string)
    requires AllDecimalDigits(s)
    ensures DigitPrefix(s, 10) == s
  {
    if s != [] {
      DigitPrefixOfDigits(s[1..]);
    }
  }

  /** parseInt of a non-empty digit string is its decimal value. */
  lemma ParseIntOfDigits(s: string)
    requires s != [] && AllDecimalDigits(s)
    ensures AllHexDigits(s)
    ensures ParseInt(s) == Int(DigitsValue(s, 10))
  {
    assert IsDecimalDigit(s[0]);
    assert !IsJsWhitespace(s[0]) && s[0] != '-' && s[0] != '+';
    assert TrimStart(s) == s;
    assert |s| >= 2 ==> IsDecimalDigit(s[1]) && s[1] != 'x' && s[1] != 'X';
    DigitPrefixOfDigits(s);
    assert ParseUnsigned(s) == Int(DigitsValue(s, 10));
  }

  /** parseInt reads back the decimal spelling of every natural number. */
  lemma ParseIntDecimal(n: nat)
    ensures ParseInt(DecimalString(n)) == Int(n)
  {
    var s := DecimalString(n);
    ParseIntOfDigits(s);
    DecimalStringValue(n);
  }

  /** Text with no digit before its first other character leaves parseInt with NaN. */
  lemma ParseIntNoDigits(s: string)
    requires s == [] || !(IsDecimalDigit(s[0]) || IsJsWhitespace(s[0]) || s[0] == '-' || s[0] == '+')
    ensures ParseInt(s) == NaN
  {
    if s != [] {
      assert TrimStart(s) == s;
      assert DigitPrefix(s, 10) == [];
      assert ParseUnsigned(s) == NaN;
    }
  }

  // ---------------------------------------------------------------- split()

  /** `s.split(sep)` for a one-character separator: never empty, pieces free of `sep`. */
  function Split(s: string, sep: char): (parts: seq<string>)
    ensures |parts| >= 1
    ensures forall i :: 0 <= i < |parts| ==> sep !in parts[i]
    ensures Join(parts, sep) == s
  {
    if s == [] then [[]]
    else if s[0] == sep then [[]] + Split(s[1..], sep)
    else
      var rest := Split(s[1..], sep);
      [[s[0]] + rest[0]] + rest[1..]
  }

  /** `parts.join(sep)`: the inverse of Split. */
  function Join(parts: seq<string>, sep: char): (s: string)
    requires |parts| >= 1
    ensures parts[0] <= s
    ensures |parts| > 1 ==> |s| > |parts[0]| && s[|parts[0]|] == sep
    ensures |s| >= |parts[0]| + |parts| - 1
  {
    if |parts| == 1 then parts[0] else parts[0] + [sep] + Join(parts[1..], sep)
  }

  lemma {:induction false} SplitPieceThenSeparator(a: string, sep: char, rest: string)
    requires sep !in a
    ensures Split(a + [sep] + rest, sep) == [a] + Split(rest, sep)
  {
    var x := a + [sep] + rest;
    if a != [] {
      assert x[0] == a[0] != sep;
      assert x[1..] == a[1..] + [sep] + rest;
      SplitPieceThenSeparator(a[1..], sep, rest);
      var r := Split(x[1..], sep);
      assert r[0] == a[1..] && r[1..] == Split(rest, sep);
      assert Split(x, sep) == [[x[0]] + r[0]] + r[1..];
      assert [a[0]] + a[1..] == a;
    } else {
      assert x[0] == sep && x[1..] == rest;
    }
  }

  lemma {:induction false} SplitPiece(a: string, sep: char)
    requires sep !in a
    ensures Split(a, sep) == [a]
  {
    if a != [] {
      SplitPiece(a[1..], sep);
    }
  }

  /** Splitting a joined list of separator-free pieces gives the pieces back. */
  lemma {:induction false} SplitJoin(parts: seq<string>, sep: char)
    requires |parts| >= 1
    requires forall i :: 0 <= i < |parts| ==> sep !in parts[i]
    ensures Split(Join(parts, sep), sep) == parts
  {
    if |parts| == 1 {
      SplitPiece(parts[0], sep);
    } else {
      SplitJoin(parts[1..], sep);
      SplitPieceThenSeparator(parts[0], sep, Join(parts[1..], sep));
    }
  }
}
