/**
 * The handful of Python `str` operations the log formatter relies on:
 * padding, justification, whitespace stripping, slicing with Python's
 * negative-index rule, substring search, and `%d` formatting.
 */
module Text {

  /** `" " * n` */
  function Spaces(n: nat): (r: string)
    ensures |r| == n
    ensures forall i :: 0 <= i < n ==> r[i] == ' '
  {
    if n == 0 then "" else Spaces(n - 1) + " "
  }

  /** The characters Python's `str.isspace` accepts (and so `str.strip` removes). */
  predicate IsSpace(c: char) {
    c == ' ' || ('\t' <= c <= '\r') || ('\U{1C}' <= c <= '\U{1F}')
    || c == '\U{85}' || c == '\U{A0}' || c == '\U{1680}'
    || ('\U{2000}' <= c <= '\U{200A}') || c == '\U{2028}' || c == '\U{2029}'
    || c == '\U{202F}' || c == '\U{205F}' || c == '\U{3000}'
  }

  /** `s.lstrip()` */
  function LStrip(s: string): string {
    if |s| > 0 && IsSpace(s[0]) then LStrip(s[1..]) else s
  }

  /** `s.rstrip()` */
  function RStrip(s: string): string {
    if |s| > 0 && IsSpace(s[|s| - 1]) then RStrip(s[..|s| - 1]) else s
  }

  /** `lstrip` removes the longest run of whitespace at the front, and nothing else. */
  lemma {:induction false} LStripShape(s: string)
    ensures var r := LStrip(s);
      |r| <= |s| && r == s[|s| - |r|..]
      && (r == [] || !IsSpace(r[0]))
      && forall i :: 0 <= i < |s| - |r| ==> IsSpace(s[i])
    decreases |s|
  {
    if |s| > 0 && IsSpace(s[0]) {
      LStripShape(s[1..]);
    }
  }

  /** `rstrip` removes the longest run of whitespace at the end, and nothing else. */
  lemma {:induction false} RStripShape(s: string)
    ensures var r := RStrip(s);
      |r| <= |s| && r == s[..|r|]
      && (r == [] || !IsSpace(r[|r| - 1]))
      && forall i :: |r| <= i < |s| ==> IsSpace(s[i])
    decreases |s|
  {
    if |s| > 0 && IsSpace(s[|s| - 1]) {
      RStripShape(s[..|s| - 1]);
    }
  }

  /** `s.strip()` */
  function Strip(s: string): string {
    RStrip(LStrip(s))
  }

  /** `s.ljust(w)`: pad on the right with spaces up to `w` characters. */
  function LJust(s: string, w: int): (r: string)
    ensures |s| >= w ==> r == s
    ensures |s| < w ==> r == s + Spaces(w - |s|) && |r| == w
  {
    if |s| >= w then s else s + Spaces(w - |s|)
  }

  /** `s.rjust(w)`: pad on the left with spaces up to `w` characters. */
  function RJust(s: string, w: int): (r: string)
    ensures |s| >= w ==> r == s
    ensures |s| < w ==> r == Spaces(w - |s|) + s && |r| == w
  {
    if |s| >= w then s else Spaces(w - |s|) + s
  }

  /** `s[:k]` with Python's slicing rules: a negative `k` counts from the end. */
  function PyPrefix(s: string, k: int): (r: string)
    ensures 0 <= k <= |s| ==> r == s[..k]
    ensures k > |s| ==> r == s
    ensures k < 0 ==> r == s[..if |s| + k < 0 then 0 else |s| + k]
  {
    if k >= 0 then (if k <= |s| then s[..k] else s)
    else s[..if |s| + k < 0 then 0 else |s| + k]
  }

  /** `sub` occurs in `s` at index `i`. */
  predicate OccursAt(s: string, sub: string, i: int) {
    0 <= i <= |s| - |sub| && s[i..i + |sub|] == sub
  }

  /** Python's `sub in s`. */
  predicate Contains(s: string, sub: string) {
    exists i | 0 <= i <= |s| - |sub| :: OccursAt(s, sub, i)
  }

  /** Python's `s.find(c)` for a one-character needle: the first index of `c`, or -1. */
  function Find(s: string, c: char): (r: int)
    ensures -1 <= r < |s|
    ensures r == -1 <==> c !in s
    ensures r >= 0 ==> s[r] == c && c !in s[..r]
  {
    if |s| == 0 then -1
    else if s[0] == c then 0
    else
      var k := Find(s[1..], c);
      assert s[1..][..if k < 0 then 0 else k] == s[1..if k < 0 then 1 else k + 1];
      if k == -1 then -1 else k + 1
  }

  predicate IsDigit(c: char) {
    '0' <= c <= '9'
  }

  /** The decimal digit for `d`. */
  function DigitChar(d: nat): (c: char)
    requires d < 10
    ensures IsDigit(c) && c as int - '0' as int == d
  {
    (d + '0' as int) as char
  }

  /** The value a string of decimal digits denotes. */
  function DigitsValue(s: string): nat
    requires forall i :: 0 <= i < |s| ==> IsDigit(s[i])
  {
    if |s| == 0 then 0
    else
      assert IsDigit(s[|s| - 1]);
      10 * DigitsValue(s[..|s| - 1]) + (s[|s| - 1] as int - '0' as int)
  }

  /** `"%d" % n` for a natural number: its decimal digits, most significant first. */
  function NatString(n: nat): (r: string)
    ensures |r| > 0 && forall i :: 0 <= i < |r| ==> IsDigit(r[i])
    ensures DigitsValue(r) == n
    ensures |r| > 1 ==> r[0] != '0'
  {
    if n < 10 then [DigitChar(n)]
    else
      var r := NatString(n / 10) + [DigitChar(n % 10)];
      assert r[..|r| - 1] == NatString(n / 10);
      r
  }

  /** `"%d" % n`: an optional minus sign followed by the digits of `|n|`. */
  function IntString(n: int): (r: string)
    ensures |r| > 0 && forall i :: 0 <= i < |r| ==> IsDigit(r[i]) || r[i] == '-'
    ensures n >= 0 ==> r == NatString(n)
    ensures n < 0 ==> r == "-" + NatString(-n)
  {
    if n < 0 then "-" + NatString(-n) else NatString(n)
  }

  /** `sep.join(parts)` */
  function Join(parts: seq<string>, sep: string): string {
    if |parts| == 0 then ""
    else if |parts| == 1 then parts[0]
    else parts[0] + sep + Join(parts[1..], sep)
  }
}
