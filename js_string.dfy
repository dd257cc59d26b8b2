/**
  * The parts of JavaScript's String and Number prototypes that recorder.js
  * relies on: `trim`, `endsWith`, `Number.prototype.toString` on integers and
  * `padStart`. Strings are sequences of `char`s, which are Unicode scalar
  * values; the whitespace set below uses only characters of the Basic
  * Multilingual Plane, where these coincide with UTF-16 code units.
  */
module JsString {

  /** The characters `String.prototype.trim` removes: ECMAScript WhiteSpace and LineTerminator. */
  predicate IsWhitespace(c: char) {
    || c == ' ' || c == '\t' || c == '\n' || c == '\U{0B}' || c == '\U{0C}' || c == '\r'
    || c == '\U{A0}' || c == '\U{1680}' || ('\U{2000}' <= c <= '\U{200A}')
    || c == '\U{2028}' || c == '\U{2029}' || c == '\U{202F}' || c == '\U{205F}'
    || c == '\U{3000}' || c == '\U{FEFF}'
  }

  /** A string made only of whitespace (the empty string included). */
  predicate IsBlank(s: string) {
    forall k | 0 <= k < |s| :: IsWhitespace(s[k])
  }

  /** `s.startsWith(prefix)` */
  predicate StartsWith(s: string, prefix: string) {
    |prefix| <= |s| && s[..|prefix|] == prefix
  }

  /** `s.endsWith(suffix)` */
  predicate EndsWith(s: string, suffix: string) {
    |suffix| <= |s| && s[|s| - |suffix|..] == suffix
  }

  /** `s.trimStart()`: the suffix of `s` left after its leading whitespace. */
  function TrimStart(s: string): (r: string)
    ensures |r| <= |s| && r == s[|s| - |r|..]
    ensures forall k | 0 <= k < |s| - |r| :: IsWhitespace(s[k])
    ensures r == [] || !IsWhitespace(r[0])
  {
    if s != [] && IsWhitespace(s[0]) then TrimStart(s[1..]) else s
  }

  /** `s.trimEnd()`: the prefix of `s` left before its trailing whitespace. */
  function TrimEnd(s: string): (r: string)
    ensures |r| <= |s| && r == s[..|r|]
    ensures forall k | |r| <= k < |s| :: IsWhitespace(s[k])
    ensures r == [] || !IsWhitespace(r[|r| - 1])
  {
    if s != [] && IsWhitespace(s[|s| - 1]) then TrimEnd(s[..|s| - 1]) else s
  }

  /** `s.trim()` */
  function Trim(s: string): (r: string)
    ensures r == [] || (!IsWhitespace(r[0]) && !IsWhitespace(r[|r| - 1]))
    ensures r == [] <==> IsBlank(s)
    ensures s == [] || (!IsWhitespace(s[0]) && !IsWhitespace(s[|s| - 1])) ==> r == s
  {
    TrimEnd(TrimStart(s))
  }

  /**
    * `trim` removes whitespace and nothing else: after the leading whitespace
    * of `s` (its first `i` characters) comes the result, and after that only
    * whitespace.
    */
  lemma TrimSlice(s: string)
    ensures var r, i := Trim(s), |s| - |TrimStart(s)|;
      && i + |r| <= |s| && r == s[i..][..|r|] && IsBlank(s[..i]) && IsBlank(s[i + |r|..])
  {
    var t, r := TrimStart(s), Trim(s);
    assert r == TrimEnd(t);
    LeadingBlank(s);
    TrailingBlank(t);
    BlankAfter(s, t, r);
  }

  /** What follows a prefix `r` of a suffix `t` of `s` in `t` is what follows it in `s`. */
  lemma BlankAfter(s: string, t: string, r: string)
    requires |t| <= |s| && t == s[|s| - |t|..] && |r| <= |t| && IsBlank(t[|r|..])
    ensures IsBlank(s[|s| - |t| + |r|..])
  {
    var tail := s[|s| - |t| + |r|..];
    forall k | 0 <= k < |tail|
      ensures IsWhitespace(tail[k])
    {
      assert tail[k] == t[|r|..][k];
    }
  }

  /** What `trimStart` removes is whitespace, and what it keeps is the rest of `s`. */
  lemma LeadingBlank(s: string)
    ensures var t := TrimStart(s); t == s[|s| - |t|..] && IsBlank(s[..|s| - |t|])
  {
    var head := s[..|s| - |TrimStart(s)|];
    forall k | 0 <= k < |head|
      ensures IsWhitespace(head[k])
    {
      assert head[k] == s[k];
    }
  }

  /** What `trimEnd` removes is whitespace, and what it keeps is the start of `t`. */
  lemma TrailingBlank(t: string)
    ensures var r := TrimEnd(t); r == t[..|r|] && IsBlank(t[|r|..])
  {
    var r := TrimEnd(t);
    var tail := t[|r|..];
    forall k | 0 <= k < |tail|
      ensures IsWhitespace(tail[k])
    {
      assert tail[k] == t[|r| + k];
    }
  }

  /** A decimal digit character. */
  predicate IsDigit(c: char) {
    '0' <= c <= '9'
  }

  predicate AllDigits(s: string) {
    forall k | 0 <= k < |s| :: IsDigit(s[k])
  }

  function DigitChar(d: nat): (c: char)
    requires d < 10
    ensures IsDigit(c) && DigitValue(c) == d
  {
    (('0' as int) + d) as char
  }

  function DigitValue(c: char): nat
    requires IsDigit(c)
  {
    (c as int) - ('0' as int)
  }

  /** The number a string of decimal digits denotes (leading zeros allowed). */
  function DecimalValue(s: string): nat
    requires AllDigits(s)
  {
    if s == [] then 0 else DecimalValue(s[..|s| - 1]) * 10 + DigitValue(s[|s| - 1])
  }

  /** `n.toString()` for a non-negative integer: its shortest decimal numeral. */
  function NatToString(n: nat): string {
    if n < 10 then [DigitChar(n)] else NatToString(n / 10) + [DigitChar(n % 10)]
  }

  /**
    * The numeral of `n` is a string of digits that denotes `n`, one digit long
    * exactly below 10, at most two below 100, and without a leading zero.
    */
  lemma {:induction false} Numeral(n: nat)
    ensures var r := NatToString(n);
      && AllDigits(r) && DecimalValue(r) == n
      && |r| >= 1 && (|r| == 1 <==> n < 10) && (n < 100 ==> |r| <= 2)
      && (r[0] == '0' ==> n == 0)
  {
    if n >= 10 {
      Numeral(n / 10);
      var r := NatToString(n);
      assert r[..|r| - 1] == NatToString(n / 10);
    }
  }

  /** `i.toString()` for any integer: a minus sign before the numeral of a negative one. */
  function IntToString(i: int): string {
    if i < 0 then "-" + NatToString(-i) else NatToString(i)
  }

  /** `c` repeated `n` times. */
  function Repeat(c: char, n: nat): (r: string)
    ensures |r| == n
    ensures forall k | 0 <= k < n :: r[k] == c
  {
    if n == 0 then [] else [c] + Repeat(c, n - 1)
  }

  /** `s.padStart(width, [fill])`: `fill` repeated in front of `s` up to `width` characters. */
  function PadStart(s: string, width: nat, fill: char): (r: string)
    ensures |r| == if |s| < width then width else |s|
    ensures r[|r| - |s|..] == s
    ensures forall k | 0 <= k < |r| - |s| :: r[k] == fill
  {
    if |s| < width then Repeat(fill, width - |s|) + s else s
  }
}
