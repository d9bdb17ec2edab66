/**
 * The few JavaScript built-ins the dashboard's logic depends on:
 * `String.prototype.trim`, the `||` fallback on possibly missing strings,
 * the rendering of an integral `number` inside a template string, and
 * `Array.prototype.slice(0, end)`.
 */
module Js {
  import opened Wrappers

  // ---------------------------------------------------------------------
  // String.prototype.trim
  // ---------------------------------------------------------------------

  /** The code points of ECMAScript's WhiteSpace and LineTerminator productions. */
  predicate IsWhiteSpace(c: char) {
    || c == '\t' || c == '\n' || c == '\U{000B}' || c == '\U{000C}' || c == '\r'
    || c == ' ' || c == '\U{00A0}' || c == '\U{1680}'
    || ('\U{2000}' <= c <= '\U{200A}')
    || c == '\U{2028}' || c == '\U{2029}' || c == '\U{202F}' || c == '\U{205F}'
    || c == '\U{3000}' || c == '\U{FEFF}'
  }

  ghost predicate AllWhiteSpace(s: string) {
    forall i :: 0 <= i < |s| ==> IsWhiteSpace(s[i])
  }

  /** The number of white-space code points `s` starts with. */
  function LeadingBlanks(s: string): (n: nat)
    ensures n <= |s|
    ensures forall i :: 0 <= i < n ==> IsWhiteSpace(s[i])
    ensures n < |s| ==> !IsWhiteSpace(s[n])
  {
    if s != [] && IsWhiteSpace(s[0]) then 1 + LeadingBlanks(s[1..]) else 0
  }

  /** The number of white-space code points `s` ends with. */
  function TrailingBlanks(s: string): (n: nat)
    ensures n <= |s|
    ensures forall i :: |s| - n <= i < |s| ==> IsWhiteSpace(s[i])
    ensures n < |s| ==> !IsWhiteSpace(s[|s| - n - 1])
  {
    if s != [] && IsWhiteSpace(s[|s| - 1]) then 1 + TrailingBlanks(s[..|s| - 1]) else 0
  }

  /** `s.trim()`: the text between the leading and the trailing white space. */
  function Trim(s: string): string {
    var rest := s[LeadingBlanks(s)..];
    rest[..|rest| - TrailingBlanks(rest)]
  }

  /** `s.trim()` is the piece of `s` that starts after its leading white space
      and is followed only by white space. */
  lemma TrimIsInfix(s: string)
    ensures var i := LeadingBlanks(s); var t := Trim(s);
      && i + |t| <= |s| && t == s[i..i + |t|]
      && (forall j :: 0 <= j < i ==> IsWhiteSpace(s[j]))
      && (forall j :: i + |t| <= j < |s| ==> IsWhiteSpace(s[j]))
  {
    var i := LeadingBlanks(s);
    var rest := s[i..];
    var t := Trim(s);
    forall j | i + |t| <= j < |s| ensures IsWhiteSpace(s[j]) {
      assert s[j] == rest[j - i];
    }
  }

  /** `s.trim()` has no white space at either end. */
  lemma TrimHasNoBlankEnds(s: string)
    ensures Trim(s) != [] ==> !IsWhiteSpace(Trim(s)[0]) && !IsWhiteSpace(Trim(s)[|Trim(s)| - 1])
  {
    var i := LeadingBlanks(s);
    var rest := s[i..];
    var t := Trim(s);
    if t != [] {
      assert t[0] == rest[0] == s[i];
    }
  }

  /** A trimmed string is empty exactly when the input is blank (`"".trim()` is falsy). */
  lemma TrimEmptyIff(s: string)
    ensures Trim(s) == [] <==> AllWhiteSpace(s)
  {
    var i := LeadingBlanks(s);
    var rest := s[i..];
    if i < |s| {
      assert rest[0] == s[i];
      assert TrailingBlanks(rest) < |rest|;
    }
  }

  /** Trimming twice is trimming once. */
  lemma TrimIdempotent(s: string)
    ensures Trim(Trim(s)) == Trim(s)
  {
    TrimHasNoBlankEnds(s);
    var t := Trim(s);
    assert LeadingBlanks(t) == 0;
    assert t[0..] == t;
  }

  // ---------------------------------------------------------------------
  // `a || b` on a string that may be null, undefined or empty
  // ---------------------------------------------------------------------

  /** A string value is truthy when it is present and not empty. */
  predicate Truthy(o: Option<string>) {
    o.Some? && o.value != ""
  }

  /** `o || fallback`. */
  function OrElse(o: Option<string>, fallback: string): string {
    if Truthy(o) then o.value else fallback
  }

  /** `o || fallback` is the fallback exactly when `o` is falsy or equal to it,
      and is truthy whenever the fallback is. */
  lemma OrElseFallsBack(o: Option<string>, fallback: string)
    ensures OrElse(o, fallback) == fallback <==> !Truthy(o) || o.value == fallback
    ensures fallback != "" ==> OrElse(o, fallback) != ""
  {
  }

  // ---------------------------------------------------------------------
  // Integral numbers in template strings: `${n}`
  // ---------------------------------------------------------------------

  predicate IsDigit(c: char) {
    '0' <= c <= '9'
  }

  predicate AllDigits(s: string) {
    forall i :: 0 <= i < |s| ==> IsDigit(s[i])
  }

  function DigitChar(d: nat): (c: char)
    requires d < 10
    ensures IsDigit(c) && c as int - '0' as int == d
  {
    (48 + d) as char
  }

  /** The decimal digits of `n`, without leading zeros. */
  function NatToString(n: nat): (s: string)
    ensures s != [] && AllDigits(s)
    ensures s[0] == '0' ==> n == 0
  {
    if n < 10 then [DigitChar(n)] else NatToString(n / 10) + [DigitChar(n % 10)]
  }

  /** `String(n)` for an integral number `n`. */
  function IntToString(n: int): string {
    if n < 0 then "-" + NatToString(-n) else NatToString(n)
  }

  /** The value of a string of decimal digits: the reading that inverts NatToString. */
  function DigitsValue(s: string): nat
    requires AllDigits(s)
  {
    if s == [] then 0 else DigitsValue(s[..|s| - 1]) * 10 + (s[|s| - 1] as int - '0' as int)
  }

  /** Reads back an optionally signed decimal integer. */
  function ParseInt(s: string): Option<int> {
    if s != [] && s[0] == '-' then
      if |s| > 1 && AllDigits(s[1..]) then Some(-(DigitsValue(s[1..]) as int)) else None
    else if s != [] && AllDigits(s) then Some(DigitsValue(s))
    else None
  }

  lemma {:induction false} NatToStringRoundTrip(n: nat)
    ensures DigitsValue(NatToString(n)) == n
  {
    if n >= 10 {
      var p := NatToString(n / 10);
      var s := p + [DigitChar(n % 10)];
      assert s[..|s| - 1] == p;
      NatToStringRoundTrip(n / 10);
    }
  }

  /** Rendering an integer loses nothing: it can be read back. */
  lemma IntToStringRoundTrip(n: int)
    ensures ParseInt(IntToString(n)) == Some(n)
  {
    if n < 0 {
      var s := IntToString(n);
      assert s[1..] == NatToString(-n);
      NatToStringRoundTrip(-n);
    } else {
      NatToStringRoundTrip(n);
    }
  }

  /** Distinct integers render as distinct strings. */
  lemma IntToStringInjective(a: int, b: int)
    requires IntToString(a) == IntToString(b)
    ensures a == b
  {
    IntToStringRoundTrip(a);
    IntToStringRoundTrip(b);
  }

  // ---------------------------------------------------------------------
  // Array.prototype.slice(0, end)
  // ---------------------------------------------------------------------

  /** `s.slice(0, end)`: a negative `end` counts back from the length, clamped at zero. */
  function SliceTo<T>(s: seq<T>, end: int): (r: seq<T>)
    ensures |r| <= |s| && r == s[..|r|]
    ensures 0 <= end ==> |r| == if end < |s| then end else |s|
    ensures end < 0 ==> |r| == if |s| + end < 0 then 0 else |s| + end
  {
    var k := if end < 0 then (if |s| + end < 0 then 0 else |s| + end)
             else if end < |s| then end else |s|;
    s[..k]
  }
}
