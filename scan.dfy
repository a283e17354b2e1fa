/**
 * Building blocks for the hand-written recognisers that stand in for the
 * fixed regular expressions of the log formatter. Each one follows Python's
 * `re` semantics: `.` does not match a newline, and `$` matches at the end of
 * the text or just before a final newline.
 */
module Scan {
  import opened Wrappers
  import opened Text

  /** The character classes the patterns use (`\d`, a blank, `\s`, `[a-zA-Z0-9._:]`, ...). */
  datatype CharClass =
    | Digit        // \d (ASCII digits)
    | Blank        // a literal space
    | Whitespace   // \s
    | PackageChar  // [a-zA-Z0-9._:]
    | LowerAlnum   // [a-z0-9]
    | Lower        // [a-z]
    | NotColon     // [^:]

  predicate InClass(c: char, k: CharClass) {
    match k
    case Digit => IsDigit(c)
    case Blank => c == ' '
    case Whitespace => IsSpace(c)
    case PackageChar => ('a' <= c <= 'z') || ('A' <= c <= 'Z') || IsDigit(c) || c == '.' || c == '_' || c == ':'
    case LowerAlnum => ('a' <= c <= 'z') || IsDigit(c)
    case Lower => 'a' <= c <= 'z'
    case NotColon => c != ':'
  }

  predicate AllIn(s: string, k: CharClass) {
    forall i :: 0 <= i < |s| ==> InClass(s[i], k)
  }

  /**
   * The longest prefix of `s` made of class `k`, and what follows it. Every
   * `[...]+` or `\d*` in the patterns is followed by a character outside its
   * class, so backtracking never gives a shorter run: the run is maximal.
   */
  function Span(s: string, k: CharClass): (r: (string, string))
    ensures r.0 + r.1 == s
    ensures AllIn(r.0, k)
    ensures r.1 == [] || !InClass(r.1[0], k)
  {
    if |s| > 0 && InClass(s[0], k) then
      var (a, b) := Span(s[1..], k);
      RunCons(s, a, b, k);
      ([s[0]] + a, b)
    else ([], s)
  }

  /** One more class character in front of a run: the inductive step of `Span`. */
  lemma RunCons(s: string, a: string, b: string, k: CharClass)
    requires |s| > 0 && InClass(s[0], k) && AllIn(a, k) && a + b == s[1..]
    ensures ([s[0]] + a) + b == s && AllIn([s[0]] + a, k)
  {
    assert s == [s[0]] + s[1..];
    assert forall i :: 1 <= i < |a| + 1 ==> ([s[0]] + a)[i] == a[i - 1];
  }

  /** A run of class `k`, followed by text that does not start with class `k`, is split back exactly. */
  lemma {:induction false} SpanOf(a: string, b: string, k: CharClass)
    requires AllIn(a, k)
    requires b == [] || !InClass(b[0], k)
    ensures Span(a + b, k) == (a, b)
    decreases |a|
  {
    if |a| > 0 {
      var s := a + b;
      assert s[0] == a[0] && s[1..] == a[1..] + b;
      SpanOf(a[1..], b, k);
      assert a == [a[0]] + a[1..];
    } else {
      assert a + b == b;
    }
  }

  /** A string of blanks is `" " * n`. */
  lemma BlanksAreSpaces(s: string)
    requires AllIn(s, Blank)
    ensures s == Spaces(|s|)
  {
  }

  predicate StartsWith(s: string, lit: string) {
    |lit| <= |s| && s[..|lit|] == lit
  }

  /** `(.*)$`: the capture, when the rest of the text is one line with an optional final newline. */
  function LineRest(s: string): (r: Option<string>)
    ensures r.Some? ==> '\n' !in r.value && (s == r.value || s == r.value + "\n")
    ensures '\n' !in s ==> r == Some(s)
  {
    if '\n' !in s then Some(s)
    else if s[|s| - 1] == '\n' && '\n' !in s[..|s| - 1] then
      assert s == s[..|s| - 1] + "\n";
      Some(s[..|s| - 1])
    else None
  }

  /** A line, with or without its final newline, is captured whole by `(.*)$`. */
  lemma LineRestOf(m: string)
    requires '\n' !in m
    ensures LineRest(m) == Some(m)
    ensures LineRest(m + "\n") == Some(m)
  {
    var s := m + "\n";
    assert s[|s| - 1] == '\n';
    assert s[..|s| - 1] == m;
  }

  /** The index of the first newline, or the length: how far `.*` can reach. */
  function FirstLineEnd(s: string): (r: nat)
    ensures r <= |s| && '\n' !in s[..r]
    ensures r < |s| ==> s[r] == '\n'
  {
    if '\n' in s then Find(s, '\n') else |s|
  }

  /** `^.*` reaches at least over a prefix without newline. */
  lemma FirstLineCovers(prefix: string, rest: string)
    requires '\n' !in prefix
    ensures FirstLineEnd(prefix + rest) >= |prefix|
  {
    var s := prefix + rest;
    assert s[..|prefix|] == prefix;
  }
}
