/**
 * The recognisers for a logcat line in "brief" format (`LOG_LINE`,
 * pidcat.py:48), for a native backtrace frame (`BACKTRACE_LINE`) and for the
 * `nativeGetEnabledTags` noise line (`NATIVE_TAGS_LINE`).
 */
module LogLine {
  import opened Wrappers
  import opened Text
  import opened Scan

  /** The four groups of `LOG_LINE`: level, raw tag, owner pid and message. */
  datatype LogRecord = LogRecord(level: char, tag: string, owner: string, message: string)

  predicate IsUpper(c: char) {
    'A' <= c <= 'Z'
  }

  /** A line as logcat prints it: `L/Tag(  pid): message`. */
  function BriefLine(level: char, tag: string, pad: nat, pid: string, message: string): string {
    [level] + "/" + tag + "(" + Spaces(pad) + pid + "): " + message
  }

  /** What `\( *(\d+)\): (.*?)$` captures from the text behind a candidate tag. */
  function AfterTag(t: string): Option<(string, string)> {
    if |t| > 0 && t[0] == '(' then PidMessage(Span(t[1..], Blank).1) else None
  }

  /** `(\d+)\): (.*?)$`, behind the blanks. */
  function PidMessage(t: string): Option<(string, string)> {
    var (pid, t2) := Span(t, Digit);
    if |pid| > 0 && StartsWith(t2, "): ") then
      match LineRest(t2[3..])
      case Some(m) => Some((pid, m))
      case None => None
    else None
  }

  /**
   * `(.+?)`: the shortest tag, of at least `k` characters and without a
   * newline, behind which the rest of the pattern matches. `s` is the text
   * after `L/`.
   */
  function TagSearch(s: string, k: nat): Option<LogRecord>
    requires k >= 1
  {
    match ShortestPrefix(s, k, AfterTag)
    case Some((tag, p)) => Some(LogRecord(' ', tag, p.0, p.1))
    case None => None
  }

  /**
   * A lazy `(.+?)` followed by the sub-pattern `rest`: the shortest prefix of
   * `s`, of at least `k` characters and without a newline, behind which `rest`
   * matches, with what `rest` captures.
   */
  function ShortestPrefix<T>(s: string, k: nat, rest: string -> Option<T>): Option<(string, T)>
    requires k >= 1
    decreases |s| + 1 - k
  {
    if k > |s| || s[k - 1] == '\n' then None
    else
      match rest(s[k..])
      case Some(p) => Some((s[..k], p))
      case None => ShortestPrefix(s, k + 1, rest)
  }

  /** `LOG_LINE.match(line)` */
  function ParseLogLine(line: string): Option<LogRecord> {
    if |line| >= 2 && IsUpper(line[0]) && line[1] == '/' then
      match TagSearch(line[2..], 1)
      case Some(r) => Some(r.(level := line[0]))
      case None => None
    else None
  }

  /** The pid and message behind a tag are read back exactly. */
  lemma AfterTagOf(pad: nat, pid: string, rest: string)
    requires |pid| > 0 && AllIn(pid, Digit)
    requires LineRest(rest).Some?
    ensures AfterTag("(" + Spaces(pad) + pid + "): " + rest) == Some((pid, LineRest(rest).value))
  {
    var t := "(" + Spaces(pad) + pid + "): " + rest;
    assert t[1..] == Spaces(pad) + (pid + ("): " + rest));
    SpanOf(Spaces(pad), pid + ("): " + rest), Blank);
    PidMessageOf(pid, rest);
  }

  lemma PidMessageOf(pid: string, rest: string)
    requires |pid| > 0 && AllIn(pid, Digit)
    requires LineRest(rest).Some?
    ensures PidMessage(pid + ("): " + rest)) == Some((pid, LineRest(rest).value))
  {
    SpanOf(pid, "): " + rest, Digit);
    assert ("): " + rest)[3..] == rest;
  }

  /** Prefix lengths at which the sub-pattern fails are skipped. */
  lemma {:induction false} ShortestPrefixSkips<T>(s: string, k: nat, n: nat, rest: string -> Option<T>)
    requires 1 <= k <= n <= |s|
    requires forall j :: k <= j < n ==> s[j - 1] != '\n' && rest(s[j..]).None?
    ensures ShortestPrefix(s, k, rest) == ShortestPrefix(s, n, rest)
    decreases n - k
  {
    if k < n {
      ShortestPrefixSkips(s, k + 1, n, rest);
    }
  }

  /** What `ShortestPrefix` returns: a prefix without newline, no shorter one working, then a match of `rest`. */
  lemma {:induction false} ShortestPrefixShape<T>(s: string, k: nat, rest: string -> Option<T>)
    requires 1 <= k <= |s| + 1 && '\n' !in s[..k - 1] && ShortestPrefix(s, k, rest).Some?
    ensures var (p, m) := ShortestPrefix(s, k, rest).value;
      && k <= |p| <= |s| && p == s[..|p|] && '\n' !in p
      && rest(s[|p|..]) == Some(m)
      && forall j :: k <= j < |p| ==> rest(s[j..]).None?
    decreases |s| + 1 - k
  {
    assert s[..k] == s[..k - 1] + [s[k - 1]];
    if rest(s[k..]).None? {
      ShortestPrefixShape(s, k + 1, rest);
    }
  }

  /**
   * Round trip: a brief-format line whose tag holds no `(` and no newline,
   * and whose message holds no newline, parses back to its parts, with or
   * without a final newline.
   */
  lemma ParseBriefLine(level: char, tag: string, pad: nat, pid: string, message: string)
    requires IsUpper(level)
    requires |tag| > 0 && '(' !in tag && '\n' !in tag
    requires |pid| > 0 && AllIn(pid, Digit)
    requires '\n' !in message
    ensures ParseLogLine(BriefLine(level, tag, pad, pid, message)) == Some(LogRecord(level, tag, pid, message))
    ensures ParseLogLine(BriefLine(level, tag, pad, pid, message) + "\n") == Some(LogRecord(level, tag, pid, message))
  {
    LineRestOf(message);
    ParseBriefRest(level, tag, pad, pid, message);
    ParseBriefRest(level, tag, pad, pid, message + "\n");
    assert BriefLine(level, tag, pad, pid, message) + "\n" == BriefLine(level, tag, pad, pid, message + "\n");
  }

  /** One case of ParseBriefLine: the rest of the line behind the pid, as `(.*?)$` reads it. */
  lemma ParseBriefRest(level: char, tag: string, pad: nat, pid: string, rest: string)
    requires IsUpper(level)
    requires |tag| > 0 && '(' !in tag && '\n' !in tag
    requires |pid| > 0 && AllIn(pid, Digit)
    requires LineRest(rest).Some?
    ensures ParseLogLine(BriefLine(level, tag, pad, pid, rest)) == Some(LogRecord(level, tag, pid, LineRest(rest).value))
  {
    var tail := "(" + Spaces(pad) + pid + "): " + rest;
    var line := BriefLine(level, tag, pad, pid, rest);
    assert line[2..] == tag + tail;
    AfterTagOf(pad, pid, rest);
    TagSearchOfTag(tag, tail);
  }

  /** A tag without `(` and newline is found whole when the rest of the pattern matches behind it. */
  lemma TagSearchOfTag(tag: string, tail: string)
    requires |tag| > 0 && '(' !in tag && '\n' !in tag
    requires AfterTag(tail).Some?
    ensures TagSearch(tag + tail, 1) == Some(LogRecord(' ', tag, AfterTag(tail).value.0, AfterTag(tail).value.1))
  {
    var s := tag + tail;
    forall j | 1 <= j < |tag| ensures s[j - 1] != '\n' && AfterTag(s[j..]).None? {
      assert s[j - 1] == tag[j - 1];
      assert s[j..][0] == tag[j];
    }
    ShortestPrefixSkips(s, 1, |tag|, AfterTag);
    assert s[|tag| - 1] == tag[|tag| - 1];
    assert s[|tag|..] == tail && s[..|tag|] == tag;
  }

  /** What `PidMessage` accepts: a non-empty pid, `): ` and one line of message. */
  lemma PidMessageShape(t: string)
    requires PidMessage(t).Some?
    ensures var (pid, m) := PidMessage(t).value;
      && |pid| > 0 && AllIn(pid, Digit) && '\n' !in m
      && (t == pid + "): " + m || t == pid + "): " + m + "\n")
  {
    var (pid, t2) := Span(t, Digit);
    var m := LineRest(t2[3..]).value;
    assert t2 == "): " + t2[3..];
    assert t2[3..] == m || t2[3..] == m + "\n";
  }

  /** What `AfterTag` accepts: blanks, a non-empty pid, `): ` and one line of message. */
  lemma AfterTagShape(t: string)
    requires AfterTag(t).Some?
    ensures var (pid, m) := AfterTag(t).value;
      && |pid| > 0 && AllIn(pid, Digit) && '\n' !in m
      && exists pad: nat :: t == "(" + Spaces(pad) + pid + "): " + m || t == "(" + Spaces(pad) + pid + "): " + m + "\n"
  {
    var (pad, t1) := Span(t[1..], Blank);
    assert AfterTag(t) == PidMessage(t1);
    PidMessageShape(t1);
    var (pid, m) := PidMessage(t1).value;
    BlanksAreSpaces(pad);
    assert t == "(" + (pad + t1);
    ParenthesisedRest(t, Spaces(|pad|), t1, pid, m);
  }

  lemma ParenthesisedRest(t: string, blanks: string, t1: string, pid: string, m: string)
    requires t == "(" + (blanks + t1)
    requires t1 == pid + "): " + m || t1 == pid + "): " + m + "\n"
    ensures t == "(" + blanks + pid + "): " + m || t == "(" + blanks + pid + "): " + m + "\n"
  {
  }

  /** What `TagSearch` returns: a tag without newline, no shorter one working, then a valid rest. */
  lemma TagSearchShape(s: string)
    requires TagSearch(s, 1).Some?
    ensures var r := TagSearch(s, 1).value;
      && 1 <= |r.tag| <= |s| && r.tag == s[..|r.tag|] && '\n' !in r.tag
      && AfterTag(s[|r.tag|..]) == Some((r.owner, r.message))
      && forall j :: 1 <= j < |r.tag| ==> AfterTag(s[j..]).None?
  {
    assert s[..0] == [];
    ShortestPrefixShape(s, 1, AfterTag);
  }

  /** A brief-format line is the level, a slash, the tag and what follows the tag. */
  lemma BriefLineParts(level: char, tag: string, pad: nat, pid: string, message: string)
    ensures BriefLine(level, tag, pad, pid, message) == [level, '/'] + (tag + ("(" + Spaces(pad) + pid + "): " + message))
    ensures BriefLine(level, tag, pad, pid, message) + "\n" == [level, '/'] + (tag + ("(" + Spaces(pad) + pid + "): " + message + "\n"))
  {
  }

  /** A line made of a level, a slash, a tag and an accepted rest has the brief-format shape. */
  lemma LineOfParts(line: string, r: LogRecord, tail: string)
    requires line == [r.level, '/'] + (r.tag + tail)
    requires AfterTag(tail) == Some((r.owner, r.message))
    ensures |r.owner| > 0 && AllIn(r.owner, Digit) && '\n' !in r.message
    ensures exists pad: nat :: line == BriefLine(r.level, r.tag, pad, r.owner, r.message)
                         || line == BriefLine(r.level, r.tag, pad, r.owner, r.message) + "\n"
  {
    AfterTagShape(tail);
    var pad: nat :| tail == "(" + Spaces(pad) + r.owner + "): " + r.message
                 || tail == "(" + Spaces(pad) + r.owner + "): " + r.message + "\n";
    BriefLineParts(r.level, r.tag, pad, r.owner, r.message);
  }

  /**
   * Soundness: a parsed line is a brief-format line (possibly with a final
   * newline) built from the captured parts, and no shorter tag would have
   * matched.
   */
  lemma ParsedLogLineShape(line: string)
    requires ParseLogLine(line).Some?
    ensures var r := ParseLogLine(line).value;
      && IsUpper(r.level) && |r.tag| > 0 && '\n' !in r.tag
      && |r.owner| > 0 && AllIn(r.owner, Digit) && '\n' !in r.message
      && (exists pad: nat :: line == BriefLine(r.level, r.tag, pad, r.owner, r.message)
                         || line == BriefLine(r.level, r.tag, pad, r.owner, r.message) + "\n")
      && var s := line[2..]; forall j :: 1 <= j < |r.tag| ==> AfterTag(s[j..]).None?
  {
    var r := ParseLogLine(line).value;
    ParsedLogLineParts(line);
    LineOfParts(line, r, line[2..][|r.tag|..]);
  }

  /** A parsed line splits into level, slash, the captured tag and a text the rest of the pattern accepts. */
  lemma ParsedLogLineParts(line: string)
    requires ParseLogLine(line).Some?
    ensures var r := ParseLogLine(line).value; var s := line[2..];
      && IsUpper(r.level) && 1 <= |r.tag| <= |s| && '\n' !in r.tag
      && line == [r.level, '/'] + (r.tag + s[|r.tag|..])
      && AfterTag(s[|r.tag|..]) == Some((r.owner, r.message))
      && forall j :: 1 <= j < |r.tag| ==> AfterTag(s[j..]).None?
  {
    var s := line[2..];
    TagSearchShape(s);
    var r0 := TagSearch(s, 1).value;
    assert ParseLogLine(line).value == r0.(level := line[0]);
    assert s == r0.tag + s[|r0.tag|..];
  }

  /** `#(.*?)pc\s(.*?)$` can match with `pc` at index `i`. */
  predicate BacktraceAt(s: string, i: nat) {
    && OccursAt(s, "pc", i) && i >= 1 && i + 2 < |s|
    && '\n' !in s[1..i] && IsSpace(s[i + 2]) && LineRest(s[i + 3..]).Some?
  }

  /** `BACKTRACE_LINE.match(s)` succeeds: `#`, then some `pc` followed by whitespace and the rest of one line. */
  predicate BacktraceMatches(s: string) {
    |s| > 0 && s[0] == '#' && exists i | 1 <= i < |s| :: BacktraceAt(s, i)
  }

  /** A native backtrace frame as the debuggerd tool prints it is recognised. */
  lemma BacktraceFrameMatches(frame: string, rest: string)
    requires '\n' !in frame && '\n' !in rest
    ensures BacktraceMatches("#" + frame + "pc " + rest)
  {
    var s := "#" + frame + "pc " + rest;
    var i := 1 + |frame|;
    assert s[i..i + 2] == "pc";
    assert s[1..i] == frame;
    assert s[i + 3..] == rest;
    assert BacktraceAt(s, i);
  }

  /** A backtrace frame starts with `#` and contains `pc` followed by whitespace. */
  lemma BacktraceNeedsHashAndPc(s: string)
    requires BacktraceMatches(s)
    ensures s[0] == '#' && exists i :: 1 <= i < |s| - 2 && OccursAt(s, "pc", i) && IsSpace(s[i + 2])
  {
    var i :| 1 <= i < |s| && BacktraceAt(s, i);
    assert OccursAt(s, "pc", i) && IsSpace(s[i + 2]);
  }

  const NATIVE_TAGS := "nativeGetEnabledTags"

  /** `NATIVE_TAGS_LINE.match(s)`: the marker occurs within the first line. */
  predicate NativeTagsMatches(s: string) {
    Contains(s[..FirstLineEnd(s)], NATIVE_TAGS)
  }

  /** The marker on the first line is recognised, whatever surrounds it. */
  lemma NativeTagsLineMatches(a: string, b: string)
    requires '\n' !in a
    ensures NativeTagsMatches(a + NATIVE_TAGS + b)
  {
    var p := a + NATIVE_TAGS;
    var s := p + b;
    var e := FirstLineEnd(s);
    assert '\n' !in p;
    FirstLineCovers(p, b);
    assert s[|a|..|a| + |NATIVE_TAGS|] == NATIVE_TAGS;
    assert s[..e][|a|..|a| + |NATIVE_TAGS|] == NATIVE_TAGS;
    assert OccursAt(s[..e], NATIVE_TAGS, |a|);
  }

  /** A line that does not contain the marker is not a native-tags line. */
  lemma NativeTagsNeedsMarker(s: string)
    requires NativeTagsMatches(s)
    ensures Contains(s, NATIVE_TAGS)
  {
    var e := FirstLineEnd(s);
    var i :| 0 <= i <= e - |NATIVE_TAGS| && OccursAt(s[..e], NATIVE_TAGS, i);
    assert s[i..i + |NATIVE_TAGS|] == s[..e][i..i + |NATIVE_TAGS|];
    assert OccursAt(s, NATIVE_TAGS, i);
  }
}
