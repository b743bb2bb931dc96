/**
 * The JavaScript text conversions the application relies on: `String(n)` for
 * whole numbers, `Number.parseInt(s, 10)`, the `\s` / `\S` character classes of
 * a regular expression, and `toLowerCase` on ASCII letters.
 */
module Text {

  /** A JavaScript number as the model needs it: a whole number or NaN. */
  datatype Num = Int(value: int) | NaN

  /** The characters JavaScript's `\s` matches (white space and line terminators);
      `String.prototype.trim` and `parseInt` skip the same set. */
  predicate IsSpace(c: char) {
    || c == ' ' || c == '\t' || c == '\n' || c == '\r'
    || c == '\U{000B}' || c == '\U{000C}' || c == '\U{00A0}' || c == '\U{1680}'
    || ('\U{2000}' <= c <= '\U{200A}')
    || c == '\U{2028}' || c == '\U{2029}' || c == '\U{202F}' || c == '\U{205F}'
    || c == '\U{3000}' || c == '\U{FEFF}'
  }

  predicate IsDigit(c: char) {
    '0' <= c <= '9'
  }

  predicate AllDigits(s: string) {
    forall i :: 0 <= i < |s| ==> IsDigit(s[i])
  }

  function DigitValue(c: char): (d: nat)
    requires IsDigit(c)
    ensures d < 10
  {
    c as int - '0' as int
  }

  function DigitChar(d: nat): (c: char)
    requires d < 10
    ensures IsDigit(c) && DigitValue(c) == d
  {
    ('0' as int + d) as char
  }

  /** The value of a string of decimal digits, read most significant digit first. */
  function DecimalValue(s: string): nat
    requires AllDigits(s)
  {
    if s == [] then 0 else DecimalValue(s[..|s| - 1]) * 10 + DigitValue(s[|s| - 1])
  }

  /** `String(n)` for a non-negative whole number: its decimal digits. */
  function NatToDecimal(n: nat): (s: string)
    ensures |s| >= 1 && AllDigits(s)
    ensures DecimalValue(s) == n
    ensures n == 0 ==> s == "0"
    ensures n > 0 ==> s[0] != '0'
    decreases n
  {
    var last := [DigitChar(n % 10)];
    if n < 10 then last
    else
      var front := NatToDecimal(n / 10);
      assert (front + last)[..|front + last| - 1] == front;
      front + last
  }

  /** `String(n)` for a whole number: a minus sign before the digits of a negative one. */
  function IntToDecimal(n: int): (s: string)
    ensures |s| >= 1 && (s[0] == '-' <==> n < 0)
    ensures n >= 0 ==> AllDigits(s)
    ensures n < 0 ==> AllDigits(s[1..])
  {
    if n < 0 then "-" + NatToDecimal(-n) else NatToDecimal(n)
  }

  /** What `parseInt` skips before the number: the leading white space. */
  function TrimStart(s: string): (t: string)
    ensures |t| <= |s| && t == s[|s| - |t|..]
    ensures forall i :: 0 <= i < |s| - |t| ==> IsSpace(s[i])
    ensures t == [] || !IsSpace(t[0])
  {
    if s != [] && IsSpace(s[0]) then TrimStart(s[1..]) else s
  }

  /** The longest prefix of `s` made of decimal digits. */
  function DigitPrefix(s: string): (d: string)
    ensures d <= s && AllDigits(d)
    ensures |d| < |s| ==> !IsDigit(s[|d|])
  {
    if s != [] && IsDigit(s[0]) then [s[0]] + DigitPrefix(s[1..]) else []
  }

  /** `Number.parseInt(s, 10)` on whole numbers: leading white space is skipped, one
      optional sign is read, then the longest run of digits; no digit at all is NaN. */
  function ParseInt(s: string): Num {
    var t := TrimStart(s);
    var negative := t != [] && t[0] == '-';
    ParseDigits(if t != [] && (t[0] == '-' || t[0] == '+') then t[1..] else t, negative)
  }

  /** The digits after the sign, and the sign they take. */
  function ParseDigits(body: string, negative: bool): Num {
    var digits := DigitPrefix(body);
    if digits == [] then NaN else Int(Signed(DecimalValue(digits), negative))
  }

  function Signed(magnitude: nat, negative: bool): int {
    if negative then -(magnitude as int) else magnitude
  }

  /** `toLowerCase` on the ASCII letters; every other character is kept. */
  function ToLowerAscii(s: string): (r: string)
    ensures |r| == |s|
    ensures forall i :: 0 <= i < |s| ==>
      r[i] == if 'A' <= s[i] <= 'Z' then (s[i] as int + 32) as char else s[i]
  {
    if s == [] then []
    else
      var c := s[0];
      [if 'A' <= c <= 'Z' then (c as int + 32) as char else c] + ToLowerAscii(s[1..])
  }

  lemma {:induction false} DigitPrefixOfDigits(d: string, rest: string)
    requires AllDigits(d)
    requires rest == [] || !IsDigit(rest[0])
    ensures DigitPrefix(d + rest) == d
  {
    if d == [] {
      assert d + rest == rest;
    } else {
      assert (d + rest)[1..] == d[1..] + rest;
      DigitPrefixOfDigits(d[1..], rest);
    }
  }

  lemma ParseDigitsOfDigits(digits: string, rest: string, negative: bool)
    requires |digits| >= 1 && AllDigits(digits)
    requires rest == [] || !IsDigit(rest[0])
    ensures ParseDigits(digits + rest, negative)
            == Int(Signed(DecimalValue(digits), negative))
  {
    DigitPrefixOfDigits(digits, rest);
  }

  lemma TrimStartKeeps(s: string)
    requires s != [] && !IsSpace(s[0])
    ensures TrimStart(s) == s
  {
  }

  /** After a minus sign, `parseInt` reads the rest as a negative number. */
  lemma ParseIntOfMinus(body: string)
    ensures ParseInt(['-'] + body) == ParseDigits(body, true)
  {
    var s := ['-'] + body;
    TrimStartKeeps(s);
    assert s[1..] == body;
  }

  /** Text that starts with a digit is read as a non-negative number. */
  lemma ParseIntOfDigitFirst(s: string)
    requires s != [] && IsDigit(s[0])
    ensures ParseInt(s) == ParseDigits(s, false)
  {
    TrimStartKeeps(s);
  }

  /** Reading back what `String(n)` wrote: `parseInt` recovers `n`, whatever non-digit
      text follows the number. */
  lemma ParseIntOfDecimal(n: int, rest: string)
    requires rest == [] || !IsDigit(rest[0])
    ensures ParseInt(IntToDecimal(n) + rest) == Int(n)
  {
    if n < 0 {
      var digits := NatToDecimal(-n);
      assert IntToDecimal(n) + rest == ['-'] + (digits + rest);
      ParseIntOfMinus(digits + rest);
      ParseDigitsOfDigits(digits, rest, true);
    } else {
      var digits := NatToDecimal(n);
      assert (digits + rest)[0] == digits[0];
      ParseIntOfDigitFirst(digits + rest);
      ParseDigitsOfDigits(digits, rest, false);
    }
  }
}
