/**
 * `IndentWrap`: long messages are cut into pieces of `width - headerSize`
 * characters, the pieces after the first indented by `headerSize` spaces so
 * that they line up under the message column.
 */
module Wrap {
  import opened Text

  /** `message.replace("\t", "    ")` */
  function ExpandTabs(s: string): (r: string)
    ensures '\t' !in r
    ensures '\t' !in s ==> r == s
    ensures |r| >= |s| && (r == "" <==> s == "")
  {
    if |s| == 0 then ""
    else
      assert '\t' !in s ==> s[0] != '\t' && '\t' !in s[1..];
      (if s[0] == '\t' then "    " else [s[0]]) + ExpandTabs(s[1..])
  }

  /** All pieces glued back together. */
  function Concat(parts: seq<string>): string {
    if |parts| == 0 then "" else parts[0] + Concat(parts[1..])
  }

  /**
   * `s` cut into consecutive pieces of `n` characters, the last one possibly
   * shorter: the pieces the wrapping loop appends.
   */
  function Chunks(s: string, n: nat): seq<string>
    requires n > 0
    decreases |s|
  {
    if |s| == 0 then []
    else if |s| <= n then [s]
    else [s[..n]] + Chunks(s[n..], n)
  }

  /**
   * The pieces are what the source promises: none for an empty message, all
   * but the last exactly `n` long, the last 1 to `n` long, and together
   * exactly the message.
   */
  lemma {:induction false} ChunksShape(s: string, n: nat)
    requires n > 0
    ensures var cs := Chunks(s, n);
      && (|cs| == 0 <==> |s| == 0)
      && (forall k :: 0 <= k < |cs| - 1 ==> |cs[k]| == n)
      && (|cs| > 0 ==> 1 <= |cs[|cs| - 1]| <= n)
      && Concat(cs) == s
    decreases |s|
  {
    if |s| == 0 {
    } else if |s| <= n {
      assert Concat([s]) == s + Concat([]);
    } else {
      ChunksShape(s[n..], n);
      var rest := Chunks(s[n..], n);
      var cs := [s[..n]] + rest;
      assert cs[1..] == rest;
      assert forall k :: 1 <= k < |cs| ==> cs[k] == rest[k - 1];
      assert s == s[..n] + s[n..];
    }
  }

  /** The text between two pieces: a newline and `headerSize` spaces of indentation. */
  function Separator(headerSize: nat): string {
    "\n" + Spaces(headerSize)
  }

  /**
   * What `IndentWrap` returns, by definition: the message untouched for the
   * unknown width -1; otherwise the tab-expanded message cut into
   * `width - headerSize`-character pieces joined by separators.
   */
  function Wrapped(message: string, width: int, headerSize: nat): string
    requires width == -1 || width - headerSize > 0 || message == ""
  {
    if width == -1 then message
    else if message == "" then ""
    else Join(Chunks(ExpandTabs(message), width - headerSize), Separator(headerSize))
  }

  /** One round of the loop: the next piece, then a separator only if more text follows. */
  lemma WrapStep(m: string, current: nat, n: nat, sep: string)
    requires n > 0 && current < |m|
    ensures var next := if current + n < |m| then current + n else |m|;
      Join(Chunks(m[current..], n), sep)
      == m[current..next] + (if next < |m| then sep else "") + Join(Chunks(m[next..], n), sep)
  {
    var t := m[current..];
    if current + n < |m| {
      var rest := Chunks(t[n..], n);
      assert Chunks(t, n) == [t[..n]] + rest;
      assert ([t[..n]] + rest)[1..] == rest;
      assert t[..n] == m[current..current + n];
      assert t[n..] == m[current + n..];
    } else {
      assert Chunks(t, n) == [t];
      assert t == m[current..|m|];
      assert m[|m|..] == [];
    }
  }

  /** Moving a piece and its gap from the unwritten rest to the buffer keeps their concatenation. */
  lemma AppendPiece(before: string, piece: string, gap: string, restNext: string, restNow: string)
    requires restNow == piece + gap + restNext
    ensures before + piece + gap + restNext == before + restNow
  {
  }

  /** `IndentWrap(message, width, headerSize)` */
  method IndentWrap(message: string, width: int, headerSize: nat) returns (r: string)
    requires width == -1 || width - headerSize > 0 || message == ""
    ensures r == Wrapped(message, width, headerSize)
    ensures width == -1 ==> r == message
  {
    if width == -1 {
      return message;
    }
    var m := ExpandTabs(message);
    var wrapArea := width - headerSize;
    var sep := Separator(headerSize);
    var buffer := "";
    var current := 0;
    assert m[0..] == m;
    while current < |m|
      invariant 0 <= current <= |m|
      invariant |m| > 0 ==> wrapArea > 0
      invariant wrapArea > 0 ==>
        buffer + Join(Chunks(m[current..], wrapArea), sep) == Join(Chunks(m, wrapArea), sep)
      invariant current == 0 ==> buffer == ""
      decreases |m| - current
    {
      var nextIndex := if current + wrapArea < |m| then current + wrapArea else |m|;
      WrapStep(m, current, wrapArea, sep);
      ghost var before := buffer;
      ghost var piece := m[current..nextIndex];
      ghost var gap := if nextIndex < |m| then sep else "";
      ghost var restNow := Join(Chunks(m[current..], wrapArea), sep);
      ghost var restNext := Join(Chunks(m[nextIndex..], wrapArea), sep);
      assert restNow == piece + gap + restNext;
      buffer := buffer + m[current..nextIndex];
      if nextIndex < |m| {
        buffer := buffer + sep;
      }
      assert buffer == before + piece + gap;
      AppendPiece(before, piece, gap, restNext, restNow);
      current := nextIndex;
    }
    if |m| > 0 {
      assert m[current..] == [];
      assert buffer + "" == buffer;
    }
    r := buffer;
  }

  /** With a known width the result never holds a tab: each one became four spaces. */
  lemma {:induction false} JoinHasNoTab(parts: seq<string>, sep: string)
    requires '\t' !in sep
    requires forall k :: 0 <= k < |parts| ==> '\t' !in parts[k]
    ensures '\t' !in Join(parts, sep)
  {
    if |parts| > 1 {
      JoinHasNoTab(parts[1..], sep);
      assert Join(parts, sep) == parts[0] + sep + Join(parts[1..], sep);
    }
  }

  lemma {:induction false} ChunksOfTabFree(s: string, n: nat)
    requires n > 0 && '\t' !in s
    ensures forall k :: 0 <= k < |Chunks(s, n)| ==> '\t' !in Chunks(s, n)[k]
    decreases |s|
  {
    if |s| > n {
      ChunksOfTabFree(s[n..], n);
      var cs := Chunks(s, n);
      assert cs == [s[..n]] + Chunks(s[n..], n);
      assert '\t' !in s[..n] by {
        forall i | 0 <= i < n ensures s[..n][i] != '\t' { assert s[i] in s; }
      }
    }
  }

  lemma WrappedHasNoTab(message: string, width: int, headerSize: nat)
    requires width - headerSize > 0
    ensures '\t' !in Wrapped(message, width, headerSize)
  {
    if width != -1 && message != "" {
      ChunksOfTabFree(ExpandTabs(message), width - headerSize);
      JoinHasNoTab(Chunks(ExpandTabs(message), width - headerSize), Separator(headerSize));
    }
  }

  /** A message that fits in the wrap area comes back only tab-expanded. */
  lemma WrapFits(message: string, width: int, headerSize: nat)
    requires width != -1 && width - headerSize > 0
    requires |ExpandTabs(message)| <= width - headerSize
    ensures Wrapped(message, width, headerSize) == ExpandTabs(message)
  {
  }

  /** The number of pieces is the length divided by the wrap area, rounded up. */
  lemma {:induction false} ChunksCount(s: string, n: nat)
    requires n > 0
    ensures |Chunks(s, n)| == (|s| + n - 1) / n
    decreases |s|
  {
    if |s| == 0 {
      assert (n - 1) / n == 0;
    } else if |s| <= n {
      assert (|s| + n - 1) / n == 1;
    } else {
      ChunksCount(s[n..], n);
      assert |Chunks(s, n)| == 1 + (|s| - n + n - 1) / n;
      assert (|s| + n - 1) == (|s| - n + n - 1) + n;
      DivPlusDivisor(|s| - n + n - 1, n);
    }
  }

  lemma DivPlusDivisor(a: nat, n: nat)
    requires n > 0
    ensures (a + n) / n == a / n + 1
  {
    var q, r := a / n, a % n;
    assert a == q * n + r && 0 <= r < n;
    assert (q + 1) * n == q * n + n;
    assert a + n == (q + 1) * n + r;
    DivUnique(a + n, n, q + 1, r);
  }

  lemma DivUnique(x: int, n: int, q: int, r: int)
    requires n > 0 && x == q * n + r && 0 <= r < n
    ensures x / n == q
  {
    var q', r' := x / n, x % n;
    assert x == q' * n + r' && 0 <= r' < n;
    assert (q - q') * n == r' - r;
    if q > q' {
      MulMono(q - q', n);
      assert false;
    } else if q < q' {
      MulMono(q' - q, n);
      assert false;
    }
  }

  lemma MulMono(a: int, n: int)
    requires a >= 1 && n > 0
    ensures a * n >= n
  {
    assert a * n == (a - 1) * n + n;
    if a > 1 {
      MulMono(a - 1, n);
    }
  }

  /** The text length: every character of the expanded message plus one separator between pieces. */
  lemma {:induction false} JoinLength(parts: seq<string>, sep: string)
    requires |parts| > 0
    ensures |Join(parts, sep)| == |Concat(parts)| + (|parts| - 1) * |sep|
  {
    if |parts| > 1 {
      JoinLength(parts[1..], sep);
    }
  }

  /**
   * A 100-character message under a 10-column header on a 50-column terminal
   * becomes pieces of 40, 40 and 20 characters, each following piece on a new
   * line indented by 10 spaces.
   */
  lemma WrapHundredInForty(message: string)
    requires |message| == 100 && '\t' !in message
    ensures Wrapped(message, 50, 10)
      == message[..40] + Separator(10) + message[40..80] + Separator(10) + message[80..]
  {
    var e := ExpandTabs(message);
    assert e == message;
    assert Chunks(message[80..], 40) == [message[80..]];
    assert message[40..][40..] == message[80..];
    assert message[40..][..40] == message[40..80];
    assert |message[40..]| == 60;
    assert Chunks(message[40..], 40) == [message[40..80], message[80..]];
    var a, b, c := message[..40], message[40..80], message[80..];
    assert Chunks(message, 40) == [a, b, c];
    assert [a, b, c][1..] == [b, c] && [b, c][1..] == [c];
    assert Join([c], Separator(10)) == c;
    assert Join([b, c], Separator(10)) == b + Separator(10) + c;
    assert Join([a, b, c], Separator(10)) == a + Separator(10) + (b + Separator(10) + c);
  }

  /** Where the loop's cursor stands after `k` rounds on a message of `len` characters. */
  function CursorAfter(k: nat, wrapArea: int, len: nat): int {
    if k == 0 then 0
    else
      var c := CursorAfter(k - 1, wrapArea, len);
      if c < len then (if c + wrapArea < len then c + wrapArea else len) else c
  }

  /**
   * With no room for text (`width - headerSize <= 0`) and a non-empty message
   * the cursor never advances, so the loop condition holds forever: the
   * source does not terminate.
   */
  lemma {:induction false} NoWrapAreaNeverEnds(k: nat, wrapArea: int, len: nat)
    requires wrapArea <= 0 && len > 0
    ensures CursorAfter(k, wrapArea, len) <= 0 < len
  {
    if k > 0 {
      NoWrapAreaNeverEnds(k - 1, wrapArea, len);
    }
  }
}
