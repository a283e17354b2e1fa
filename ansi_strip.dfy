/**
 * The colour-stripping rule of `WriteOutput`: `NO_COLOR.sub("", line)` with
 * `NO_COLOR = \033\[.*?m`, i.e. remove every ESC `[` ... `m` where the run up to
 * the first `m` contains no newline (Python's `.` does not match `\n`), scanning
 * left to right without overlap.
 */
module AnsiStrip {
  import opened Wrappers
  import opened TerminalColors

  /** Where `.*?m` started at `i` ends: the first `m` from `i`, unless a newline comes first. */
  function SgrEnd(s: string, i: nat): (r: Option<nat>)
    decreases |s| - i
    ensures r.Some? ==> (i <= r.value < |s| && s[r.value] == 'm'
                         && forall k :: i <= k < r.value ==> s[k] != 'm' && s[k] != '\n')
    ensures r.None? ==> forall k :: i <= k < |s| && s[k] == 'm' ==> exists j :: i <= j < k && s[j] == '\n'
  {
    if i >= |s| then None
    else if s[i] == 'm' then Some(i)
    else if s[i] == '\n' then None
    else SgrEnd(s, i + 1)
  }

  /** `NO_COLOR.sub("", s)` */
  function StripAnsi(s: string): string
    decreases |s|
  {
    if |s| == 0 then ""
    else if |s| >= 2 && s[0] == ESC && s[1] == '[' && SgrEnd(s, 2).Some? then
      StripAnsi(s[SgrEnd(s, 2).value + 1..])
    else [s[0]] + StripAnsi(s[1..])
  }

  /** Stripping only ever removes characters. */
  lemma {:induction false} StripAnsiShrinks(s: string)
    ensures |StripAnsi(s)| <= |s|
    decreases |s|
  {
    if |s| > 0 {
      if |s| >= 2 && s[0] == ESC && s[1] == '[' && SgrEnd(s, 2).Some? {
        StripAnsiShrinks(s[SgrEnd(s, 2).value + 1..]);
      } else {
        StripAnsiShrinks(s[1..]);
      }
    }
  }

  /** Text without an ESC character passes through unchanged, followed by whatever the rest strips to. */
  lemma {:induction false} StripAnsiPlainPrefix(m: string, rest: string)
    requires ESC !in m
    ensures StripAnsi(m + rest) == m + StripAnsi(rest)
    decreases |m|
  {
    if |m| > 0 {
      var s := m + rest;
      assert s[0] == m[0] && s[1..] == m[1..] + rest;
      assert m[0] in m;
      assert StripAnsi(s) == [m[0]] + StripAnsi(m[1..] + rest);
      StripAnsiPlainPrefix(m[1..], rest);
      assert m == [m[0]] + m[1..];
      assert [m[0]] + (m[1..] + StripAnsi(rest)) == m + StripAnsi(rest);
    } else {
      assert m + rest == rest;
    }
  }

  /** A line with no ESC character is written to a colourless sink unchanged. */
  lemma StripAnsiOfPlain(m: string)
    requires ESC !in m
    ensures StripAnsi(m) == m
  {
    StripAnsiPlainPrefix(m, "");
    assert m + "" == m;
  }

  /** A complete escape sequence whose parameters contain no `m` and no newline is removed whole. */
  lemma StripAnsiDropsSequence(t: string, rest: string)
    requires |t| >= 3 && t[0] == ESC && t[1] == '[' && t[|t| - 1] == 'm'
    requires forall i :: 2 <= i < |t| - 1 ==> t[i] != 'm' && t[i] != '\n'
    ensures StripAnsi(t + rest) == StripAnsi(rest)
  {
    var s := t + rest;
    SgrEndAt(s, 2, |t| - 1);
    assert s[|t|..] == rest;
  }

  lemma {:induction false} SgrEndAt(s: string, i: nat, j: nat)
    requires i <= j < |s| && s[j] == 'm'
    requires forall k :: i <= k < j ==> s[k] != 'm' && s[k] != '\n'
    ensures SgrEnd(s, i) == Some(j)
    decreases j - i
  {
    if i < j {
      SgrEndAt(s, i + 1, j);
    }
  }

  /** `termColor` output disappears under stripping, whatever follows it. */
  lemma StripAnsiDropsTermColor(fg: Option<int>, bg: Option<int>, rest: string)
    ensures StripAnsi(TermColor(fg, bg) + rest) == StripAnsi(rest)
  {
    var t := TermColor(fg, bg);
    TermColorIsOneSequence(fg, bg);
    if t == "" {
      assert t + rest == rest;
    } else {
      forall i | 2 <= i < |t| - 1 ensures t[i] != 'm' && t[i] != '\n' {
        assert IsParamChar(t[i]);
      }
      StripAnsiDropsSequence(t, rest);
    }
  }

  /**
   * Stripping a `colorize` result whose message holds no ESC character gives
   * back the message, followed by what the rest strips to.
   */
  lemma StripAnsiColorize(message: string, fg: Option<int>, bg: Option<int>, rest: string)
    requires ESC !in message
    ensures StripAnsi(Colorize(message, fg, bg) + rest) == message + StripAnsi(rest)
    ensures StripAnsi(Colorize(message, fg, bg)) == message
  {
    var t := TermColor(fg, bg);
    forall r: string ensures StripAnsi(Colorize(message, fg, bg) + r) == message + StripAnsi(r) {
      assert Colorize(message, fg, bg) + r == t + (message + (RESET + r));
      StripAnsiDropsTermColor(fg, bg, message + (RESET + r));
      StripAnsiPlainPrefix(message, RESET + r);
      StripAnsiDropsSequence(RESET, r);
    }
    assert Colorize(message, fg, bg) + "" == Colorize(message, fg, bg);
    assert StripAnsi("") == "";
  }

  /**
   * Stripping is not idempotent: a stray ESC in front of a sequence survives
   * the first pass and forms a new sequence with the text behind it.
   */
  lemma StripAnsiNotIdempotent()
    ensures var s := [ESC, ESC, '[', 'm', '[', 'm'];
      StripAnsi(s) == [ESC, '[', 'm'] && StripAnsi(StripAnsi(s)) == ""
  {
    var s := [ESC, ESC, '[', 'm', '[', 'm'];
    assert SgrEnd(s, 2).Some?;
    assert s[1..] == [ESC, '[', 'm', '[', 'm'];
    SgrEndAt(s[1..], 2, 2);
    assert s[1..][3..] == ['[', 'm'];
    StripAnsiOfPlain(['[', 'm']);
    var t := [ESC, '[', 'm'];
    SgrEndAt(t, 2, 2);
    assert t[3..] == [];
  }
}
