/**
 * One step of the log loop, `ProcessLogLine` (pidcat.py:511-711): recognise
 * the line, apply process start and end events to the pid map, drop the line
 * if a filter rejects it, otherwise render the package, tag and level columns
 * and the wrapped message, and write the result to the console and the file.
 *
 * `Step` states the whole transition on values; the class `LogState` and the
 * method `ProcessLogLine` do it in place and are proved equal to `Step`.
 */
module LineProcessor {
  import opened Wrappers
  import opened Text
  import opened TerminalColors
  import opened AnsiStrip
  import opened Wrap
  import opened ColorAllocation
  import opened PackageFilter
  import opened LogLine
  import opened StartEvents
  import opened DeathEvents
  import opened Rendering

  /** The parsed command-line options the step reads. */
  datatype Args = Args(all: bool, showPackage: bool, alwaysTags: bool, colorGc: bool,
                       packageWidth: nat, tagWidth: nat,
                       ignoredTags: seq<string>, tags: seq<string>)

  /** `colorConfig`: the console width (-1 when unknown), whether escapes reach the console, whether a file is open. */
  datatype ColorConfig = ColorConfig(width: int, showColors: bool, hasOutputFile: bool)

  /**
   * What is left to Python's `re` engine: `re.match(pattern, tag)` for a tag
   * pattern with special characters, and the StrictMode / GC message rules.
   */
  datatype Externals = Externals(regexMatch: (string, string) -> bool, decorate: (string, bool) -> string)

  /** The entries of `state` a line never changes. */
  datatype Config = Config(minLevel: int, named: seq<string>, catchall: seq<string>)

  /** The entries of `state` a line may change. */
  datatype LineState = LineState(pidsMap: map<string, string>, lastTag: Option<string>, appPid: Option<string>)

  // ---------------------------------------------------------------- tag filters

  const REGEX_SPECIALS: string := ".*+?[]{}()|\\^$"

  /** A character of `REGEX_SPECIALS`. */
  predicate IsRegexSpecial(c: char) {
    c in REGEX_SPECIALS
  }

  /** `any(c in t for c in REGEX_SPECIALS)` */
  predicate HasRegexSpecial(t: string) {
    exists i | 0 <= i < |t| :: IsRegexSpecial(t[i])
  }

  /** One pattern of `TagInTagsRegex`, stripped: a regex match or a substring test. */
  predicate PatternMatches(ext: Externals, tag: string, pattern: string) {
    var t := Strip(pattern);
    if HasRegexSpecial(t) then ext.regexMatch(t, tag) else Contains(tag, t)
  }

  predicate TagInTags(ext: Externals, tag: string, tags: seq<string>) {
    exists i | 0 <= i < |tags| :: PatternMatches(ext, tag, tags[i])
  }

  /** The body of the loop of `TagInTagsRegex`: one stripped pattern against the tag. */
  method MatchPattern(tag: string, pattern: string, ext: Externals) returns (matched: bool)
    ensures matched <==> PatternMatches(ext, tag, pattern)
  {
    var t := Strip(pattern);
    if HasRegexSpecial(t) {
      matched := ext.regexMatch(t, tag);
    } else {
      matched := Contains(tag, t);
    }
  }

  /** `TagInTagsRegex(tag, tags)`: the patterns in order, stopping at the first that matches. */
  method TagInTagsRegex(tag: string, tags: seq<string>, ext: Externals) returns (found: bool)
    ensures found <==> TagInTags(ext, tag, tags)
  {
    for i := 0 to |tags|
      invariant forall j :: 0 <= j < i ==> !PatternMatches(ext, tag, tags[j])
    {
      var matched := MatchPattern(tag, tags[i], ext);
      if matched {
        assert PatternMatches(ext, tag, tags[i]);
        return true;
      }
      assert !PatternMatches(ext, tag, tags[i]);
    }
    return false;
  }

  /** A blank pattern is the empty substring and selects every tag. */
  lemma BlankPatternMatchesEverything(ext: Externals, tag: string, tags: seq<string>, i: nat)
    requires i < |tags| && Strip(tags[i]) == ""
    ensures TagInTags(ext, tag, tags)
  {
    assert !HasRegexSpecial("");
    assert OccursAt(tag, "", 0);
  }

  /** A plain pattern selects exactly the tags that contain it. */
  lemma PlainPatternMatches(ext: Externals, tag: string, pattern: string, i: nat)
    requires !HasRegexSpecial(pattern) && Strip(pattern) == pattern
    requires 0 <= i <= |tag| - |pattern| && tag[i..i + |pattern|] == pattern
    ensures TagInTags(ext, tag, [pattern])
  {
    assert OccursAt(tag, pattern, i);
    assert PatternMatches(ext, tag, [pattern][0]);
  }

  /** No pattern, no match: an empty list selects nothing. */
  lemma NoPatternNoMatch(ext: Externals, tag: string)
    ensures !TagInTags(ext, tag, [])
  {
  }

  // ---------------------------------------------------------------- events

  /** A start or end event, then the buffer of banners written so far. */
  datatype Phase = Phase(pids: map<string, string>, lastTag: Option<string>, appPid: Option<string>, written: seq<string>)

  /** The banner header: package column, tag column and level cell, even for a zero tag width. */
  function Header(args: Args): nat {
    BannerHeader(args.showPackage, args.packageWidth, args.tagWidth)
  }

  /** The widest header a line of output can have. */
  function HeaderBound(args: Args): nat {
    (if args.showPackage then args.packageWidth + 2 else 0) + (if args.tagWidth > 0 then args.tagWidth + 1 else 0) + 4
  }

  /** A console width with room for at least one message character after any header. */
  predicate WideEnough(width: int, args: Args) {
    width == -1 || width > HeaderBound(args)
  }

  /** The start event of the line, if there is one and its package passes the filter. */
  function AcceptedStart(line: string, c: Config): (r: Option<StartEvent>)
    ensures r.Some? ==> ParseStartProc(line) == r && MatchPackages(r.value.package, c.named, c.catchall)
    ensures r.None? ==> ParseStartProc(line).None? || !MatchPackages(ParseStartProc(line).value.package, c.named, c.catchall)
  {
    match ParseStartProc(line)
    case Some(e) => if MatchPackages(e.package, c.named, c.catchall) then Some(e) else None
    case None => None
  }

  /** Lines 555-580: record the new process and announce it. */
  function StartPhase(line: string, s: LineState, c: Config, args: Args, width: int): Phase
    requires WideEnough(width, args)
  {
    match AcceptedStart(line, c)
    case Some(e) => Phase(s.pidsMap[e.pid := e.package], None, Some(e.pid), [StartBanner(e, Header(args), width)])
    case None => Phase(s.pidsMap, s.lastTag, s.appPid, [])
  }

  /** Lines 582-601: forget the dead process and announce it. */
  function DeathPhase(tag: string, message: string, p: Phase, c: Config, args: Args): Phase {
    match ParseDeath(tag, message, p.pids.Keys, c.named, c.catchall)
    case Some(d) => Phase(p.pids - {d.pid}, None, p.appPid, p.written + [DeathBanner(d, Header(args))])
    case None => p
  }

  /** Both events of a parsed line, start first. */
  function Events(line: string, rec: LogRecord, s: LineState, c: Config, args: Args, width: int): Phase
    requires WideEnough(width, args)
  {
    DeathPhase(Strip(rec.tag), rec.message, StartPhase(line, s, c, args, width), c, args)
  }

  // ---------------------------------------------------------------- filters

  /** The four filters of lines 604-614, on the pid map as the events left it. */
  predicate Shown(rec: LogRecord, pids: map<string, string>, c: Config, args: Args, ext: Externals) {
    var tag := Strip(rec.tag);
    && (args.all || rec.owner in pids)
    && !(LevelIndex(rec.level).Some? && LevelIndex(rec.level).value < c.minLevel)
    && !(|args.ignoredTags| > 0 && TagInTags(ext, tag, args.ignoredTags))
    && !(|args.tags| > 0 && !TagInTags(ext, tag, args.tags))
  }

  /** A line from a process not being followed is dropped unless every process is shown. */
  lemma ShownNeedsWatchedOwner(rec: LogRecord, pids: map<string, string>, c: Config, args: Args, ext: Externals)
    requires Shown(rec, pids, c, args, ext) && !args.all
    ensures rec.owner in pids
  {
  }

  /** A known level below the minimum is dropped; an unknown level letter never is. */
  lemma ShownRespectsLevel(rec: LogRecord, pids: map<string, string>, c: Config, args: Args, ext: Externals)
    requires Shown(rec, pids, c, args, ext)
    ensures rec.level in LOG_LEVELS ==> LevelIndex(rec.level).value >= c.minLevel
  {
  }

  /** With no filters at all and every process shown, every parsed line is shown. */
  lemma UnfilteredShowsAll(rec: LogRecord, pids: map<string, string>, args: Args, ext: Externals, named: seq<string>, catchall: seq<string>)
    requires args.all && args.ignoredTags == [] && args.tags == []
    ensures Shown(rec, pids, Config(0, named, catchall), args, ext)
  {
  }

  // ---------------------------------------------------------------- rendering

  /** Lines 617-621: a native backtrace frame is left-stripped and belongs to the app's pid. */
  function Backtrace(tag: string, message: string, owner: string, appPid: Option<string>): (string, Option<string>) {
    if tag == "DEBUG" && BacktraceMatches(LStrip(message)) then (LStrip(message), appPid)
    else (message, Some(owner))
  }

  /** The package column, the colour table after it, and its width in the header. */
  datatype PackageOutcome = PackageOutcome(text: string, table: ColorTable, size: nat)

  /** The tag column, the colour table after it, the new `lastTag`, and its width in the header. */
  datatype TagOutcome = TagOutcome(text: string, table: ColorTable, lastTag: Option<string>, size: nat)

  /** `pidsMap.get(owner, "UNKNOWN")` */
  function OwnerName(pids: map<string, string>, owner: string): string {
    if owner in pids then pids[owner] else "UNKNOWN"
  }

  /** A package name in its column and colour, then the two-blank separator. */
  function PackageText(name: string, color: int, w: nat): string {
    Colorize(PackageColumn(name, w), Some(color), None) + "  "
  }

  /** Lines 627-637: the package column, when asked for and the owner is non-empty. */
  function PackageCell(owner: Option<string>, pids: map<string, string>, t: ColorTable, args: Args): (r: PackageOutcome)
    requires |t.lastUsed| > 0
    ensures r.size == if args.showPackage && owner.Some? && owner.value != "" then args.packageWidth + 2 else 0
    ensures |r.table.lastUsed| == |t.lastUsed|
  {
    if args.showPackage && owner.Some? && owner.value != "" then
      var name := OwnerName(pids, owner.value);
      var a := Allocate(t, name);
      PackageOutcome(PackageText(name, a.color, args.packageWidth), a.table, args.packageWidth + 2)
    else PackageOutcome("", t, 0)
  }

  /** A tag in its column and colour, then the one-blank separator. */
  function TagText(tag: string, color: int, w: nat, rightAligned: bool): string {
    Colorize(TagColumn(tag, w, rightAligned), Some(color), None) + " "
  }

  /** Lines 641-655: the tag column, shown only when the tag changes or always. */
  function TagCell(tag: string, lastTag: Option<string>, t: ColorTable, args: Args): (r: TagOutcome)
    requires |t.lastUsed| > 0
    ensures r.size == if args.tagWidth > 0 then args.tagWidth + 1 else 0
    ensures |r.table.lastUsed| == |t.lastUsed|
  {
    if args.tagWidth > 0 then
      if Some(tag) != lastTag || args.alwaysTags then
        var a := Allocate(t, tag);
        TagOutcome(TagText(tag, a.color, args.tagWidth, args.showPackage), a.table, Some(tag), args.tagWidth + 1)
      else TagOutcome(Spaces(args.tagWidth) + " ", t, lastTag, args.tagWidth + 1)
    else TagOutcome("", t, lastTag, 0)
  }

  /** The three columns of an emitted line, the header width they take, and what they leave behind. */
  datatype Columns = Columns(text: string, header: nat, table: ColorTable, lastTag: Option<string>)

  /** Lines 623-684: package column, tag column, level cell, each followed by its separator. */
  function LineColumns(tag: string, level: char, owner: Option<string>, pids: map<string, string>,
                       lastTag: Option<string>, t: ColorTable, args: Args, showColors: bool): (r: Columns)
    requires |t.lastUsed| > 0
    ensures r.header == (if args.showPackage && owner.Some? && owner.value != "" then args.packageWidth + 2 else 0)
                        + (if args.tagWidth > 0 then args.tagWidth + 1 else 0) + 4
    ensures r.header <= HeaderBound(args)
    ensures |r.table.lastUsed| == |t.lastUsed|
  {
    var pc := PackageCell(owner, pids, t, args);
    var tc := TagCell(tag, lastTag, pc.table, args);
    Columns(pc.text + tc.text + LevelCell(level, showColors) + " ", pc.size + tc.size + 4, tc.table, tc.lastTag)
  }

  /** What a step leaves behind: the new state, the colour table, and the texts in the order written. */
  datatype StepResult = StepResult(state: LineState, table: ColorTable, written: seq<string>)

  /** Lines 617-711 for a line that passed the filters: the columns, then the decorated message wrapped under them. */
  function RenderLine(rec: LogRecord, p: Phase, t: ColorTable, args: Args, cfg: ColorConfig, ext: Externals): StepResult
    requires |t.lastUsed| > 0 && WideEnough(cfg.width, args)
  {
    var tag := Strip(rec.tag);
    var bt := Backtrace(tag, rec.message, rec.owner, p.appPid);
    var cols := LineColumns(tag, rec.level, bt.1, p.pids, p.lastTag, t, args, cfg.showColors);
    var text := cols.text + Wrapped(ext.decorate(bt.0, args.colorGc), cfg.width, cols.header);
    StepResult(LineState(p.pids, cols.lastTag, p.appPid), cols.table, p.written + [text])
  }

  /**
   * `ProcessLogLine` on values. The pid map keeps the events' edits on every
   * path; `lastTag` and `appPid` are written back only with an emitted line.
   */
  function Step(line: string, s: LineState, t: ColorTable, c: Config, args: Args, cfg: ColorConfig, ext: Externals): StepResult
    requires |t.lastUsed| > 0 && WideEnough(cfg.width, args)
  {
    if NativeTagsMatches(line) then StepResult(s, t, [])
    else match ParseLogLine(line)
      case None => StepResult(s, t, [])
      case Some(rec) => Finish(rec, Events(line, rec, s, c, args, cfg.width), s, t, c, args, cfg, ext)
  }

  /** After the events: the filters decide between rendering the line and keeping the remembered values. */
  function Finish(rec: LogRecord, p: Phase, s: LineState, t: ColorTable, c: Config, args: Args, cfg: ColorConfig, ext: Externals): StepResult
    requires |t.lastUsed| > 0 && WideEnough(cfg.width, args)
  {
    if Shown(rec, p.pids, c, args, ext) then RenderLine(rec, p, t, args, cfg, ext)
    else StepResult(LineState(p.pids, s.lastTag, s.appPid), t, p.written)
  }

  // ---------------------------------------------------------------- properties of a step

  /**
   * A followed start event records its pid and prints the start banner
   * first; `appPid` takes the new pid only if the line itself is shown.
   */
  lemma StepRecordsStart(line: string, rec: LogRecord, e: StartEvent, s: LineState, t: ColorTable,
                         c: Config, args: Args, cfg: ColorConfig, ext: Externals)
    requires |t.lastUsed| > 0 && WideEnough(cfg.width, args)
    requires !NativeTagsMatches(line) && ParseLogLine(line) == Some(rec)
    requires ParseStartProc(line) == Some(e) && MatchPackages(e.package, c.named, c.catchall)
    requires ParseDeath(Strip(rec.tag), rec.message, s.pidsMap[e.pid := e.package].Keys, c.named, c.catchall).None?
    ensures var r := Step(line, s, t, c, args, cfg, ext);
      && r.state.pidsMap == s.pidsMap[e.pid := e.package]
      && |r.written| >= 1 && r.written[0] == StartBanner(e, Header(args), cfg.width)
      && (Shown(rec, s.pidsMap[e.pid := e.package], c, args, ext) ==> r.state.appPid == Some(e.pid) && |r.written| == 2)
      && (!Shown(rec, s.pidsMap[e.pid := e.package], c, args, ext) ==>
            r.state.appPid == s.appPid && r.state.lastTag == s.lastTag && r.written == [StartBanner(e, Header(args), cfg.width)])
  {
    StepOfRecord(line, rec, s, t, c, args, cfg, ext);
  }

  /**
   * An end event of a followed process removes its pid, which was in the
   * map, and prints the end banner first.
   */
  lemma StepRecordsDeath(line: string, rec: LogRecord, d: Death, s: LineState, t: ColorTable,
                         c: Config, args: Args, cfg: ColorConfig, ext: Externals)
    requires |t.lastUsed| > 0 && WideEnough(cfg.width, args)
    requires !NativeTagsMatches(line) && ParseLogLine(line) == Some(rec)
    requires AcceptedStart(line, c).None?
    requires ParseDeath(Strip(rec.tag), rec.message, s.pidsMap.Keys, c.named, c.catchall) == Some(d)
    ensures var r := Step(line, s, t, c, args, cfg, ext);
      && d.pid in s.pidsMap && d.pid !in r.state.pidsMap
      && r.state.pidsMap == s.pidsMap - {d.pid}
      && |r.written| >= 1 && r.written[0] == DeathBanner(d, Header(args))
      && (!Shown(rec, s.pidsMap - {d.pid}, c, args, ext) ==> r.state.lastTag == s.lastTag && r.written == [DeathBanner(d, Header(args))])
  {
    StepOfRecord(line, rec, s, t, c, args, cfg, ext);
  }

  /** The pid map after the events depends on the line and the map alone. */
  lemma EventPids(line: string, rec: LogRecord, s1: LineState, s2: LineState, c: Config,
                  args1: Args, args2: Args, width1: int, width2: int)
    requires WideEnough(width1, args1) && WideEnough(width2, args2) && s1.pidsMap == s2.pidsMap
    ensures Events(line, rec, s1, c, args1, width1).pids == Events(line, rec, s2, c, args2, width2).pids
  {
    var p1 := StartPhase(line, s1, c, args1, width1);
    var p2 := StartPhase(line, s2, c, args2, width2);
    assert p1.pids == p2.pids;
  }

  /**
   * The pid map's edits persist whatever the filters, the display options,
   * the colour table or the remembered tag and pid: they do not change it.
   */
  lemma StepPidsIgnoreDisplay(line: string, s1: LineState, s2: LineState, t1: ColorTable, t2: ColorTable, c: Config,
                              args1: Args, args2: Args, cfg1: ColorConfig, cfg2: ColorConfig, ext1: Externals, ext2: Externals)
    requires |t1.lastUsed| > 0 && WideEnough(cfg1.width, args1)
    requires |t2.lastUsed| > 0 && WideEnough(cfg2.width, args2)
    requires s1.pidsMap == s2.pidsMap
    ensures Step(line, s1, t1, c, args1, cfg1, ext1).state.pidsMap == Step(line, s2, t2, c, args2, cfg2, ext2).state.pidsMap
  {
    if !NativeTagsMatches(line) && ParseLogLine(line).Some? {
      var rec := ParseLogLine(line).value;
      StepOfRecord(line, rec, s1, t1, c, args1, cfg1, ext1);
      StepOfRecord(line, rec, s2, t2, c, args2, cfg2, ext2);
      EventPids(line, rec, s1, s2, c, args1, args2, cfg1.width, cfg2.width);
    }
  }

  /**
   * A line the filters drop leaves `lastTag`, `appPid` and the colour table
   * as they were before the line, even when an event on it printed a banner.
   */
  lemma StepDroppedLine(line: string, rec: LogRecord, s: LineState, t: ColorTable,
                        c: Config, args: Args, cfg: ColorConfig, ext: Externals)
    requires |t.lastUsed| > 0 && WideEnough(cfg.width, args)
    requires !NativeTagsMatches(line) && ParseLogLine(line) == Some(rec)
    requires !Shown(rec, Events(line, rec, s, c, args, cfg.width).pids, c, args, ext)
    ensures var r := Step(line, s, t, c, args, cfg, ext);
      && r.state.lastTag == s.lastTag && r.state.appPid == s.appPid && r.table == t
      && r.written == Events(line, rec, s, c, args, cfg.width).written && |r.written| <= 2
  {
    StepOfRecord(line, rec, s, t, c, args, cfg, ext);
  }

  /**
   * A shown line is printed after the banners of its events; with a tag
   * column its tag becomes `lastTag`, and `appPid` is the events' pid.
   */
  lemma StepShownLine(line: string, rec: LogRecord, s: LineState, t: ColorTable,
                      c: Config, args: Args, cfg: ColorConfig, ext: Externals)
    requires |t.lastUsed| > 0 && WideEnough(cfg.width, args)
    requires !NativeTagsMatches(line) && ParseLogLine(line) == Some(rec)
    requires Shown(rec, Events(line, rec, s, c, args, cfg.width).pids, c, args, ext)
    ensures var p := Events(line, rec, s, c, args, cfg.width);
      var r := Step(line, s, t, c, args, cfg, ext);
      && |r.written| == |p.written| + 1 && r.written[..|p.written|] == p.written
      && r.state.appPid == p.appPid
      && (args.tagWidth > 0 ==> r.state.lastTag == Some(Strip(rec.tag)))
      && (args.tagWidth == 0 ==> r.state.lastTag == p.lastTag)
  {
    StepOfRecord(line, rec, s, t, c, args, cfg, ext);
    var p := Events(line, rec, s, c, args, cfg.width);
    var r := RenderLine(rec, p, t, args, cfg, ext);
    assert r.written[..|p.written|] == p.written;
  }

  /** An event writes at most one banner each, and only the events do. */
  lemma EventsWriteBanners(line: string, rec: LogRecord, s: LineState, c: Config, args: Args, width: int)
    requires WideEnough(width, args)
    ensures var p := Events(line, rec, s, c, args, width);
      |p.written| == (if AcceptedStart(line, c).Some? then 1 else 0)
                     + (if ParseDeath(Strip(rec.tag), rec.message, StartPhase(line, s, c, args, width).pids.Keys, c.named, c.catchall).Some? then 1 else 0)
  {
  }

  /** Rendering the columns keeps `LAST_USED` a permutation of the six rotating colours. */
  lemma LineColumnsKeepRecencyList(tag: string, level: char, owner: Option<string>, pids: map<string, string>,
                                   lastTag: Option<string>, t: ColorTable, args: Args, showColors: bool)
    requires IsRecencyList(t.lastUsed)
    ensures IsRecencyList(LineColumns(tag, level, owner, pids, lastTag, t, args, showColors).table.lastUsed)
  {
    var pc := PackageCell(owner, pids, t, args);
    if args.showPackage && owner.Some? && owner.value != "" {
      AllocateKeepsRecencyList(t, OwnerName(pids, owner.value));
    }
    if args.tagWidth > 0 && (Some(tag) != lastTag || args.alwaysTags) {
      AllocateKeepsRecencyList(pc.table, tag);
    }
  }

  /** No step breaks the recency list: every colour stays in `LAST_USED`, exactly once. */
  lemma StepKeepsRecencyList(line: string, s: LineState, t: ColorTable, c: Config, args: Args, cfg: ColorConfig, ext: Externals)
    requires IsRecencyList(t.lastUsed) && WideEnough(cfg.width, args)
    ensures IsRecencyList(Step(line, s, t, c, args, cfg, ext).table.lastUsed)
  {
    if !NativeTagsMatches(line) && ParseLogLine(line).Some? {
      var rec := ParseLogLine(line).value;
      StepOfRecord(line, rec, s, t, c, args, cfg, ext);
      var p := Events(line, rec, s, c, args, cfg.width);
      if Shown(rec, p.pids, c, args, ext) {
        var tag := Strip(rec.tag);
        var bt := Backtrace(tag, rec.message, rec.owner, p.appPid);
        LineColumnsKeepRecencyList(tag, rec.level, bt.1, p.pids, p.lastTag, t, args, cfg.showColors);
      }
    }
  }

  // ---------------------------------------------------------------- column alignment

  /** What a package cell shows once its escapes are gone. */
  function PackageVisible(owner: Option<string>, pids: map<string, string>, args: Args): string {
    if args.showPackage && owner.Some? && owner.value != "" then PackageColumn(OwnerName(pids, owner.value), args.packageWidth) + "  "
    else ""
  }

  /** What a tag cell shows once its escapes are gone: the tag column, or blanks of the same width. */
  function TagVisible(tag: string, lastTag: Option<string>, args: Args): string {
    if args.tagWidth == 0 then ""
    else if Some(tag) != lastTag || args.alwaysTags then TagColumn(tag, args.tagWidth, args.showPackage) + " "
    else Spaces(args.tagWidth) + " "
  }

  /** A coloured column followed by its separator strips to the column and the separator. */
  lemma ColoredColumnVisible(col: string, color: int, sep: string, rest: string)
    requires ESC !in col && ESC !in sep
    ensures StripAnsi(Colorize(col, Some(color), None) + sep + rest) == col + sep + StripAnsi(rest)
  {
    StripAnsiColorize(col, Some(color), None, sep + rest);
    StripAnsiPlainPrefix(sep, rest);
    StripRegrouped(Colorize(col, Some(color), None), sep, rest, col + (sep + StripAnsi(rest)));
  }

  lemma StripRegrouped(a: string, b: string, c: string, v: string)
    requires StripAnsi(a + (b + c)) == v
    ensures StripAnsi(a + b + c) == v
  {
    assert a + b + c == a + (b + c);
  }

  lemma PackageCellVisible(owner: Option<string>, pids: map<string, string>, t: ColorTable, args: Args, rest: string)
    requires |t.lastUsed| > 0
    requires owner.Some? ==> ESC !in OwnerName(pids, owner.value)
    ensures StripAnsi(PackageCell(owner, pids, t, args).text + rest) == PackageVisible(owner, pids, args) + StripAnsi(rest)
  {
    if args.showPackage && owner.Some? && owner.value != "" {
      var name := OwnerName(pids, owner.value);
      ColumnPlain(name, args.packageWidth, false);
      ColoredColumnVisible(PackageColumn(name, args.packageWidth), Allocate(t, name).color, "  ", rest);
    } else {
      assert PackageCell(owner, pids, t, args).text + rest == rest;
    }
  }

  lemma TagCellVisible(tag: string, lastTag: Option<string>, t: ColorTable, args: Args, rest: string)
    requires |t.lastUsed| > 0 && ESC !in tag
    ensures StripAnsi(TagCell(tag, lastTag, t, args).text + rest) == TagVisible(tag, lastTag, args) + StripAnsi(rest)
  {
    if args.tagWidth == 0 {
      assert TagCell(tag, lastTag, t, args).text + rest == rest;
    } else if Some(tag) != lastTag || args.alwaysTags {
      ColumnPlain(tag, args.tagWidth, args.showPackage);
      ColoredColumnVisible(TagColumn(tag, args.tagWidth, args.showPackage), Allocate(t, tag).color, " ", rest);
    } else {
      var blank := Spaces(args.tagWidth) + " ";
      assert ESC !in blank;
      StripAnsiPlainPrefix(blank, rest);
    }
  }

  lemma LevelCellThen(level: char, showColors: bool)
    requires level != ESC
    ensures StripAnsi(LevelCell(level, showColors) + " ") == [' ', level, ' ', ' ']
  {
    var text := LevelText(level);
    assert ESC !in text;
    if showColors {
      StripAnsiColorize(text, Some(Lookup(LEVEL_FOREGROUND, level, WHITE)), Some(Lookup(LEVEL_BACKGROUND, level, BLACK)), " ");
    } else {
      StripAnsiPlainPrefix(text, " ");
    }
    StripAnsiOfPlain(" ");
  }

  /** Without its escapes the column part of a line is the package column, the tag column (or blanks) and the level cell. */
  lemma ColumnsVisible(tag: string, level: char, owner: Option<string>, pids: map<string, string>,
                       lastTag: Option<string>, t: ColorTable, args: Args, showColors: bool)
    requires |t.lastUsed| > 0
    requires ESC !in tag && level != ESC
    requires owner.Some? ==> ESC !in OwnerName(pids, owner.value)
    ensures StripAnsi(LineColumns(tag, level, owner, pids, lastTag, t, args, showColors).text)
            == PackageVisible(owner, pids, args) + TagVisible(tag, lastTag, args) + [' ', level, ' ', ' ']
  {
    var pc := PackageCell(owner, pids, t, args);
    var tc := TagCell(tag, lastTag, pc.table, args);
    var lc := LevelCell(level, showColors) + " ";
    assert LineColumns(tag, level, owner, pids, lastTag, t, args, showColors).text == pc.text + tc.text + lc;
    PackageCellVisible(owner, pids, t, args, tc.text + lc);
    TagCellVisible(tag, lastTag, pc.table, args, lc);
    LevelCellThen(level, showColors);
    StripThreeParts(pc.text, tc.text, lc, PackageVisible(owner, pids, args), TagVisible(tag, lastTag, args), [' ', level, ' ', ' ']);
  }

  /** Stripping three pieces in turn, each of which strips to a known text in front of the rest. */
  lemma StripThreeParts(a: string, b: string, l: string, va: string, vb: string, vl: string)
    requires StripAnsi(a + (b + l)) == va + StripAnsi(b + l)
    requires StripAnsi(b + l) == vb + StripAnsi(l)
    requires StripAnsi(l) == vl
    ensures StripAnsi(a + b + l) == va + vb + vl
  {
    assert a + b + l == a + (b + l);
    assert va + (vb + vl) == va + vb + vl;
  }

  /** Each visible column is as wide as the header space it is counted for, given room for the ellipsis. */
  lemma VisibleWidths(tag: string, owner: Option<string>, pids: map<string, string>, lastTag: Option<string>, args: Args)
    requires args.packageWidth >= 3 && (args.tagWidth == 0 || args.tagWidth >= 3)
    ensures |PackageVisible(owner, pids, args)| == if args.showPackage && owner.Some? && owner.value != "" then args.packageWidth + 2 else 0
    ensures |TagVisible(tag, lastTag, args)| == if args.tagWidth > 0 then args.tagWidth + 1 else 0
  {
    if args.showPackage && owner.Some? && owner.value != "" {
      ColumnShape(OwnerName(pids, owner.value), args.packageWidth, false);
    }
    if args.tagWidth > 0 {
      ColumnShape(tag, args.tagWidth, args.showPackage);
    }
  }

  /**
   * The columns are exactly as wide on screen as the header the message is
   * wrapped under, so continuation lines start under the message.
   */
  lemma ColumnsMatchHeader(tag: string, level: char, owner: Option<string>, pids: map<string, string>,
                           lastTag: Option<string>, t: ColorTable, args: Args, showColors: bool)
    requires |t.lastUsed| > 0
    requires ESC !in tag && level != ESC
    requires owner.Some? ==> ESC !in OwnerName(pids, owner.value)
    requires args.packageWidth >= 3 && (args.tagWidth == 0 || args.tagWidth >= 3)
    ensures var cols := LineColumns(tag, level, owner, pids, lastTag, t, args, showColors);
      |StripAnsi(cols.text)| == cols.header
  {
    ColumnsVisible(tag, level, owner, pids, lastTag, t, args, showColors);
    VisibleWidths(tag, owner, pids, lastTag, args);
  }

  /** A repeated tag is blanked out and takes no colour; `always_tags` shows it again. */
  lemma RepeatedTagBlank(tag: string, t: ColorTable, args: Args)
    requires |t.lastUsed| > 0 && args.tagWidth > 0
    ensures !args.alwaysTags ==> TagCell(tag, Some(tag), t, args) == TagOutcome(Spaces(args.tagWidth) + " ", t, Some(tag), args.tagWidth + 1)
    ensures args.alwaysTags ==> TagCell(tag, Some(tag), t, args).table == Allocate(t, tag).table
  {
  }

  // ---------------------------------------------------------------- output

  /** What `WriteOutput` prints for one text: with or without its escapes, ended by `print`'s newline. */
  function Emitted(text: string, colors: bool): string {
    (if colors then text else StripAnsi(text)) + "\n"
  }

  /** `Emitted` for each text in turn. */
  function EmittedAll(written: seq<string>, colors: bool): (r: seq<string>)
    ensures |r| == |written|
  {
    if |written| == 0 then [] else EmittedAll(written[..|written| - 1], colors) + [Emitted(written[|written| - 1], colors)]
  }

  lemma EmittedAllAppend(written: seq<string>, text: string, colors: bool)
    ensures EmittedAll(written + [text], colors) == EmittedAll(written, colors) + [Emitted(text, colors)]
  {
    assert (written + [text])[..|written|] == written;
  }

  /** The console and the file: what has been printed, and what has been written to the file. */
  class Sinks {
    var console: seq<string>
    var file: seq<string>

    constructor ()
      ensures console == [] && file == []
    {
      console := [];
      file := [];
    }

    /** `WriteOutput(outputLine)`: the console gets the line as coloured as allowed, the file always gets it stripped. */
    method WriteOutput(outputLine: string, cfg: ColorConfig)
      modifies this
      ensures console == old(console) + [Emitted(outputLine, cfg.showColors)]
      ensures file == if cfg.hasOutputFile then old(file) + [Emitted(outputLine, false)] else old(file)
    {
      var lineNoColor := StripAnsi(outputLine);
      console := console + [(if cfg.showColors then outputLine else lineNoColor) + "\n"];
      if cfg.hasOutputFile {
        file := file + [lineNoColor + "\n"];
      }
    }
  }

  /** The `state` dictionary: the pid map and the two remembered values change, the rest is fixed. */
  class LogState {
    var pidsMap: map<string, string>
    var lastTag: Option<string>
    var appPid: Option<string>
    const minLevel: int
    const namedProcesses: seq<string>
    const catchallPackage: seq<string>

    /** pidcat.py:786-793: nothing remembered yet. */
    constructor (initialPids: map<string, string>, minLevel: int, namedProcesses: seq<string>, catchallPackage: seq<string>)
      ensures Snapshot() == LineState(initialPids, None, None)
      ensures Settings() == Config(minLevel, namedProcesses, catchallPackage)
    {
      pidsMap := initialPids;
      lastTag := None;
      appPid := None;
      this.minLevel := minLevel;
      this.namedProcesses := namedProcesses;
      this.catchallPackage := catchallPackage;
    }

    function Snapshot(): LineState
      reads this
    {
      LineState(pidsMap, lastTag, appPid)
    }

    function Settings(): Config {
      Config(minLevel, namedProcesses, catchallPackage)
    }
  }

  /** Appending texts appends their emitted forms. */
  lemma {:induction false} EmittedAllConcat(a: seq<string>, b: seq<string>, colors: bool)
    ensures EmittedAll(a + b, colors) == EmittedAll(a, colors) + EmittedAll(b, colors)
    decreases |b|
  {
    if |b| == 0 {
      assert a + b == a;
    } else {
      var b0 := b[..|b| - 1];
      assert a + b == (a + b0) + [b[|b| - 1]];
      EmittedAllAppend(a + b0, b[|b| - 1], colors);
      EmittedAllConcat(a, b0, colors);
      EmittedAllAppend(b0, b[|b| - 1], colors);
      assert b0 + [b[|b| - 1]] == b;
    }
  }

  /** The sinks received exactly `added`, as `WriteOutput` sends it. */
  ghost predicate Received(sinks: Sinks, console0: seq<string>, file0: seq<string>, added: seq<string>, cfg: ColorConfig)
    reads sinks
  {
    && sinks.console == console0 + EmittedAll(added, cfg.showColors)
    && sinks.file == file0 + (if cfg.hasOutputFile then EmittedAll(added, false) else [])
  }

  /** Writing more texts to sinks that already received some. */
  lemma ReceivedMore(sinks: Sinks, console0: seq<string>, file0: seq<string>, a: seq<string>, b: seq<string>,
                     console1: seq<string>, file1: seq<string>, cfg: ColorConfig)
    requires console1 == console0 + EmittedAll(a, cfg.showColors)
    requires file1 == file0 + (if cfg.hasOutputFile then EmittedAll(a, false) else [])
    requires Received(sinks, console1, file1, b, cfg)
    ensures Received(sinks, console0, file0, a + b, cfg)
  {
    EmittedAllConcat(a, b, cfg.showColors);
    EmittedAllConcat(a, b, false);
  }

  /** Sinks that received no text. */
  lemma ReceivedNothing(sinks: Sinks, cfg: ColorConfig)
    ensures Received(sinks, sinks.console, sinks.file, [], cfg)
  {
    assert sinks.console + [] == sinks.console && sinks.file + [] == sinks.file;
  }

  /** One text sent through `WriteOutput`. */
  lemma ReceivedOne(sinks: Sinks, console0: seq<string>, file0: seq<string>, text: string, cfg: ColorConfig)
    requires sinks.console == console0 + [Emitted(text, cfg.showColors)]
    requires sinks.file == if cfg.hasOutputFile then file0 + [Emitted(text, false)] else file0
    ensures Received(sinks, console0, file0, [text], cfg)
  {
    assert EmittedAll([text], cfg.showColors) == [Emitted(text, cfg.showColors)];
    assert EmittedAll([text], false) == [Emitted(text, false)];
  }

  /** Lines 562-578: the start banner, its announcement wrapped under the header. */
  method BuildStartBanner(e: StartEvent, h: nat, width: int) returns (banner: string)
    requires h >= 1 && (width == -1 || width > h)
    ensures banner == StartBanner(e, h, width)
  {
    var created := IndentWrap(CreatedText(e), width, h);
    banner := "\n" + Colorize(Spaces(h - 1), None, Some(WHITE)) + created
              + Colorize(Spaces(h - 1), None, Some(WHITE))
              + " PID: " + e.pid + "   UID: " + e.uid + "   GIDs: " + e.gids + "\n";
  }

  /** Lines 555-580: a start event of a followed package is recorded and announced. */
  method ApplyStart(line: string, state: LogState, sinks: Sinks, args: Args, cfg: ColorConfig,
                    lastTag0: Option<string>, appPid0: Option<string>)
    returns (lastTag: Option<string>, appPid: Option<string>, ghost added: seq<string>)
    requires WideEnough(cfg.width, args)
    modifies state`pidsMap, sinks
    ensures var p := StartPhase(line, LineState(old(state.pidsMap), lastTag0, appPid0), state.Settings(), args, cfg.width);
      && state.pidsMap == p.pids && lastTag == p.lastTag && appPid == p.appPid && added == p.written
    ensures Received(sinks, old(sinks.console), old(sinks.file), added, cfg)
  {
    lastTag, appPid, added := lastTag0, appPid0, [];
    var start := ParseStartProc(line);
    if start.Some? {
      var e := start.value;
      if MatchPackages(e.package, state.namedProcesses, state.catchallPackage) {
        assert AcceptedStart(line, state.Settings()) == Some(e);
        lastTag, appPid, added := RecordStart(e, state, sinks, args, cfg);
      }
    }
  }

  /** Lines 558-580: the pid of an accepted start is recorded, the banner written and the tag column reset. */
  method RecordStart(e: StartEvent, state: LogState, sinks: Sinks, args: Args, cfg: ColorConfig)
    returns (lastTag: Option<string>, appPid: Option<string>, ghost added: seq<string>)
    requires WideEnough(cfg.width, args)
    modifies state`pidsMap, sinks
    ensures state.pidsMap == old(state.pidsMap)[e.pid := e.package]
    ensures lastTag == None && appPid == Some(e.pid) && added == [StartBanner(e, Header(args), cfg.width)]
    ensures Received(sinks, old(sinks.console), old(sinks.file), added, cfg)
  {
    state.pidsMap := state.pidsMap[e.pid := e.package];
    appPid := Some(e.pid);
    var banner := BuildStartBanner(e, Header(args), cfg.width);
    ghost var console0, file0 := sinks.console, sinks.file;
    sinks.WriteOutput(banner, cfg);
    ReceivedOne(sinks, console0, file0, banner, cfg);
    added := [banner];
    lastTag := None;
  }

  /** Lines 582-601: the end of a followed process is announced and its pid forgotten. */
  method ApplyDeath(tag: string, message: string, state: LogState, sinks: Sinks, args: Args, cfg: ColorConfig,
                    ghost p0: Phase, lastTag0: Option<string>)
    returns (lastTag: Option<string>, ghost added: seq<string>)
    requires state.pidsMap == p0.pids && lastTag0 == p0.lastTag
    modifies state`pidsMap, sinks
    ensures var p := DeathPhase(tag, message, p0, state.Settings(), args);
      && state.pidsMap == p.pids && lastTag == p.lastTag && p.written == p0.written + added
    ensures Received(sinks, old(sinks.console), old(sinks.file), added, cfg)
  {
    lastTag, added := lastTag0, [];
    var dead := ParseDeath(tag, message, state.pidsMap.Keys, state.namedProcesses, state.catchallPackage);
    if dead.Some? {
      lastTag, added := RecordDeath(dead.value, state, sinks, args, cfg);
    } else {
      assert p0.written + [] == p0.written;
    }
  }

  /** Lines 585-601: the pid of a dead process is dropped, the banner written and the tag column reset. */
  method RecordDeath(d: Death, state: LogState, sinks: Sinks, args: Args, cfg: ColorConfig)
    returns (lastTag: Option<string>, ghost added: seq<string>)
    modifies state`pidsMap, sinks
    ensures state.pidsMap == old(state.pidsMap) - {d.pid}
    ensures lastTag == None && added == [DeathBanner(d, Header(args))]
    ensures Received(sinks, old(sinks.console), old(sinks.file), added, cfg)
  {
    if d.pid in state.pidsMap {
      state.pidsMap := state.pidsMap - {d.pid};
    } else {
      assert state.pidsMap - {d.pid} == state.pidsMap;
    }
    var h := Header(args);
    var banner := "\n" + (Colorize(Spaces(h - 1), None, Some(RED)) + EndedText(d));
    ghost var console0, file0 := sinks.console, sinks.file;
    sinks.WriteOutput(banner, cfg);
    ReceivedOne(sinks, console0, file0, banner, cfg);
    added := [banner];
    lastTag := None;
  }

  /** Lines 604-614: each filter that rejects the line ends the step. */
  method PassesFilters(rec: LogRecord, tag: string, pids: map<string, string>, c: Config, args: Args, ext: Externals)
    returns (shown: bool)
    requires tag == Strip(rec.tag)
    ensures shown == Shown(rec, pids, c, args, ext)
  {
    if !args.all && rec.owner !in pids {
      return false;
    }
    var level := LevelIndex(rec.level);
    if level.Some? && level.value < c.minLevel {
      return false;
    }
    if |args.ignoredTags| > 0 {
      var ignored := TagInTagsRegex(tag, args.ignoredTags, ext);
      if ignored {
        return false;
      }
    }
    if |args.tags| > 0 {
      var selected := TagInTagsRegex(tag, args.tags, ext);
      if !selected {
        return false;
      }
    }
    return true;
  }

  /** Lines 627-637: the package column, with the package's colour looked up by its full name. */
  method AppendPackage(owner: Option<string>, pids: map<string, string>, alloc: ColorAllocator, args: Args)
    returns (lineBuffer: string, headerSize: nat)
    requires alloc.Ready()
    modifies alloc
    ensures alloc.Ready()
    ensures var pc := PackageCell(owner, pids, old(alloc.Table()), args);
      lineBuffer == pc.text && headerSize == pc.size && alloc.Table() == pc.table
  {
    if args.showPackage && owner.Some? && owner.value != "" {
      var packageName := OwnerName(pids, owner.value);
      var pkgColor := alloc.AllocateColor(packageName);
      lineBuffer := PackageText(packageName, pkgColor, args.packageWidth);
      headerSize := args.packageWidth + 2;
    } else {
      lineBuffer, headerSize := "", 0;
    }
  }

  /** Lines 641-655: the tag column, or blanks when the tag repeats. */
  method AppendTag(tag: string, lastTag0: Option<string>, alloc: ColorAllocator, args: Args, lineBuffer0: string, headerSize0: nat)
    returns (lineBuffer: string, headerSize: nat, lastTag: Option<string>)
    requires alloc.Ready()
    modifies alloc
    ensures alloc.Ready()
    ensures var tc := TagCell(tag, lastTag0, old(alloc.Table()), args);
      && lineBuffer == lineBuffer0 + tc.text && headerSize == headerSize0 + tc.size
      && alloc.Table() == tc.table && lastTag == tc.lastTag
  {
    lineBuffer, headerSize, lastTag := lineBuffer0, headerSize0, lastTag0;
    if args.tagWidth > 0 {
      if Some(tag) != lastTag || args.alwaysTags {
        lastTag := Some(tag);
        var color := alloc.AllocateColor(tag);
        lineBuffer := lineBuffer + TagText(tag, color, args.tagWidth, args.showPackage);
      } else {
        lineBuffer := lineBuffer + (Spaces(args.tagWidth) + " ");
      }
      headerSize := headerSize + args.tagWidth + 1;
    } else {
      assert lineBuffer0 + "" == lineBuffer0;
    }
  }

  /** Lines 659-684: the level cell, coloured by level when colours are on. */
  method AppendLevel(level: char, showColors: bool, lineBuffer0: string, headerSize0: nat)
    returns (lineBuffer: string, headerSize: nat)
    ensures lineBuffer == lineBuffer0 + LevelCell(level, showColors) + " " && headerSize == headerSize0 + 4
  {
    lineBuffer := lineBuffer0;
    var levelStr := LevelText(level);
    if showColors {
      var foreground := Lookup(LEVEL_FOREGROUND, level, WHITE);
      var background := Lookup(LEVEL_BACKGROUND, level, BLACK);
      lineBuffer := lineBuffer + Colorize(levelStr, Some(foreground), Some(background));
    } else {
      lineBuffer := lineBuffer + levelStr;
    }
    lineBuffer := lineBuffer + " ";
    headerSize := headerSize0 + 4;
  }

  /** Lines 623-684: the package, tag and level cells in front of the message, and the width they take. */
  method AppendColumns(tag: string, level: char, owner: Option<string>, pids: map<string, string>,
                       lastTag0: Option<string>, alloc: ColorAllocator, args: Args, showColors: bool)
    returns (lineBuffer: string, headerSize: nat, lastTag: Option<string>)
    requires alloc.Ready()
    modifies alloc
    ensures alloc.Ready()
    ensures var cols := LineColumns(tag, level, owner, pids, lastTag0, old(alloc.Table()), args, showColors);
      && lineBuffer == cols.text && headerSize == cols.header && headerSize <= HeaderBound(args)
      && alloc.Table() == cols.table && lastTag == cols.lastTag
  {
    ghost var t0 := alloc.Table();
    lineBuffer, headerSize := AppendPackage(owner, pids, alloc, args);
    ghost var pc := PackageCell(owner, pids, t0, args);
    lineBuffer, headerSize, lastTag := AppendTag(tag, lastTag0, alloc, args, lineBuffer, headerSize);
    ghost var tc := TagCell(tag, lastTag0, pc.table, args);
    lineBuffer, headerSize := AppendLevel(level, showColors, lineBuffer, headerSize);
    assert lineBuffer == pc.text + tc.text + LevelCell(level, showColors) + " ";
    assert headerSize == pc.size + tc.size + 4 <= HeaderBound(args);
  }

  /** Lines 623-706 for a line that passed the filters: build the columns, wrap the message under them, write the line. */
  method EmitLine(tag: string, level: char, message: string, owner: Option<string>, pids: map<string, string>,
                  lastTag0: Option<string>, alloc: ColorAllocator, sinks: Sinks, args: Args, cfg: ColorConfig, ext: Externals)
    returns (lineBuffer: string, lastTag: Option<string>)
    requires alloc.Ready() && WideEnough(cfg.width, args)
    modifies alloc, sinks
    ensures alloc.Ready()
    ensures var cols := LineColumns(tag, level, owner, pids, lastTag0, old(alloc.Table()), args, cfg.showColors);
      && lineBuffer == cols.text + Wrapped(ext.decorate(message, args.colorGc), cfg.width, cols.header)
      && alloc.Table() == cols.table && lastTag == cols.lastTag
    ensures Received(sinks, old(sinks.console), old(sinks.file), [lineBuffer], cfg)
  {
    var headerSize;
    lineBuffer, headerSize, lastTag := AppendColumns(tag, level, owner, pids, lastTag0, alloc, args, cfg.showColors);
    var decorated := ext.decorate(message, args.colorGc);
    var wrapped := IndentWrap(decorated, cfg.width, headerSize);
    lineBuffer := lineBuffer + wrapped;
    ghost var console0, file0 := sinks.console, sinks.file;
    sinks.WriteOutput(lineBuffer, cfg);
    ReceivedOne(sinks, console0, file0, lineBuffer, cfg);
  }

  /** Lines 617-621: a native backtrace frame is left-stripped and attributed to the app's pid. */
  method ApplyBacktrace(tag: string, message0: string, owner0: string, appPid: Option<string>)
    returns (message: string, owner: Option<string>)
    ensures (message, owner) == Backtrace(tag, message0, owner0, appPid)
  {
    message, owner := message0, Some(owner0);
    if tag == "DEBUG" && BacktraceMatches(LStrip(message)) {
      message := LStrip(message);
      owner := appPid;
    }
  }

  /** pidcat.py:539-545: a native-tags line or a line that is not a log line changes nothing and prints nothing. */
  lemma StepIgnoresNoise(line: string, s: LineState, t: ColorTable, c: Config, args: Args, cfg: ColorConfig, ext: Externals)
    requires |t.lastUsed| > 0 && WideEnough(cfg.width, args)
    requires NativeTagsMatches(line) || ParseLogLine(line).None?
    ensures Step(line, s, t, c, args, cfg, ext) == StepResult(s, t, [])
  {
  }

  /** `Step` of a line that is neither a native-tags line nor unparsed. */
  lemma StepOfRecord(line: string, rec: LogRecord, s: LineState, t: ColorTable, c: Config, args: Args, cfg: ColorConfig, ext: Externals)
    requires |t.lastUsed| > 0 && WideEnough(cfg.width, args)
    requires !NativeTagsMatches(line) && ParseLogLine(line) == Some(rec)
    ensures Step(line, s, t, c, args, cfg, ext) == Finish(rec, Events(line, rec, s, c, args, cfg.width), s, t, c, args, cfg, ext)
  {
  }

  /** `Finish` of a line the filters let through: its columns, then its wrapped message. */
  lemma FinishShown(rec: LogRecord, p: Phase, s: LineState, t: ColorTable, c: Config, args: Args, cfg: ColorConfig, ext: Externals,
                    message: string, owner: Option<string>)
    requires |t.lastUsed| > 0 && WideEnough(cfg.width, args)
    requires Shown(rec, p.pids, c, args, ext)
    requires (message, owner) == Backtrace(Strip(rec.tag), rec.message, rec.owner, p.appPid)
    ensures var cols := LineColumns(Strip(rec.tag), rec.level, owner, p.pids, p.lastTag, t, args, cfg.showColors);
      Finish(rec, p, s, t, c, args, cfg, ext)
      == StepResult(LineState(p.pids, cols.lastTag, p.appPid), cols.table,
                    p.written + [cols.text + Wrapped(ext.decorate(message, args.colorGc), cfg.width, cols.header)])
  {
  }

  /** `Finish` of a line the filters reject: only the events' pid edits and banners remain. */
  lemma FinishHidden(rec: LogRecord, p: Phase, s: LineState, t: ColorTable, c: Config, args: Args, cfg: ColorConfig, ext: Externals)
    requires |t.lastUsed| > 0 && WideEnough(cfg.width, args)
    requires !Shown(rec, p.pids, c, args, ext)
    ensures Finish(rec, p, s, t, c, args, cfg, ext) == StepResult(LineState(p.pids, s.lastTag, s.appPid), t, p.written)
  {
  }

  /** Lines 604-711: filter the line, and if it stays, render it and write back the remembered values. */
  method FinishLine(rec: LogRecord, tag: string, ghost p: Phase, ghost s0: LineState, state: LogState, alloc: ColorAllocator, sinks: Sinks,
                    lastTag0: Option<string>, appPid: Option<string>, args: Args, cfg: ColorConfig, ext: Externals)
    returns (ghost added: seq<string>)
    requires alloc.Ready() && WideEnough(cfg.width, args)
    requires tag == Strip(rec.tag)
    requires state.pidsMap == p.pids && lastTag0 == p.lastTag && appPid == p.appPid
    requires state.lastTag == s0.lastTag && state.appPid == s0.appPid
    modifies state`lastTag, state`appPid, alloc, sinks
    ensures alloc.Ready()
    ensures var r := Finish(rec, p, s0, old(alloc.Table()), state.Settings(), args, cfg, ext);
      && state.Snapshot() == r.state && alloc.Table() == r.table && r.written == p.written + added
    ensures Received(sinks, old(sinks.console), old(sinks.file), added, cfg)
  {
    added := [];
    ReceivedNothing(sinks, cfg);
    assert p.written + [] == p.written;
    var shown := PassesFilters(rec, tag, state.pidsMap, state.Settings(), args, ext);
    if !shown {
      FinishHidden(rec, p, s0, alloc.Table(), state.Settings(), args, cfg, ext);
      return;
    }

    var message, owner := ApplyBacktrace(tag, rec.message, rec.owner, appPid);
    FinishShown(rec, p, s0, alloc.Table(), state.Settings(), args, cfg, ext, message, owner);
    added := RenderShown(tag, rec.level, message, owner, state, alloc, sinks, lastTag0, appPid, args, cfg, ext);
  }

  /** Lines 623-711 once the line is shown: the line is written and the remembered values are set. */
  method RenderShown(tag: string, level: char, message: string, owner: Option<string>, state: LogState, alloc: ColorAllocator,
                     sinks: Sinks, lastTag0: Option<string>, appPid: Option<string>, args: Args, cfg: ColorConfig, ext: Externals)
    returns (ghost added: seq<string>)
    requires alloc.Ready() && WideEnough(cfg.width, args)
    modifies state`lastTag, state`appPid, alloc, sinks
    ensures alloc.Ready()
    ensures var cols := LineColumns(tag, level, owner, state.pidsMap, lastTag0, old(alloc.Table()), args, cfg.showColors);
      && state.Snapshot() == LineState(state.pidsMap, cols.lastTag, appPid) && alloc.Table() == cols.table
      && added == [cols.text + Wrapped(ext.decorate(message, args.colorGc), cfg.width, cols.header)]
    ensures Received(sinks, old(sinks.console), old(sinks.file), added, cfg)
  {
    var pids := state.pidsMap;
    ghost var t0 := alloc.Table();
    ghost var cols := LineColumns(tag, level, owner, pids, lastTag0, t0, args, cfg.showColors);
    var lineBuffer, lastTag := EmitLine(tag, level, message, owner, pids, lastTag0, alloc, sinks, args, cfg, ext);
    assert lastTag == cols.lastTag && alloc.Table() == cols.table;
    added := [lineBuffer];
    state.lastTag := lastTag;
    state.appPid := appPid;
    assert state.pidsMap == pids;
  }

  /** Lines 547-711 for a parsed log line: the events, then the filters and the rendering. */
  method ProcessRecord(line: string, rec: LogRecord, state: LogState, alloc: ColorAllocator, sinks: Sinks,
                       args: Args, cfg: ColorConfig, ext: Externals)
    requires alloc.Ready() && WideEnough(cfg.width, args)
    modifies state, alloc, sinks
    ensures alloc.Ready()
    ensures var r := Finish(rec, Events(line, rec, old(state.Snapshot()), state.Settings(), args, cfg.width),
                            old(state.Snapshot()), old(alloc.Table()), state.Settings(), args, cfg, ext);
      && state.Snapshot() == r.state && alloc.Table() == r.table
      && Received(sinks, old(sinks.console), old(sinks.file), r.written, cfg)
  {
    ghost var s0 := state.Snapshot();
    ghost var console0, file0 := sinks.console, sinks.file;
    var tag := Strip(rec.tag);
    var lastTag, appPid;
    ghost var p;
    lastTag, appPid, p := ApplyEvents(line, rec, tag, state, sinks, args, cfg);
    ghost var console1, file1 := sinks.console, sinks.file;
    ghost var rest := FinishLine(rec, tag, p, s0, state, alloc, sinks, lastTag, appPid, args, cfg, ext);
    ReceivedMore(sinks, console0, file0, p.written, rest, console1, file1, cfg);
  }

  /** Lines 555-601: the start event, then the death event of a parsed line. */
  method ApplyEvents(line: string, rec: LogRecord, tag: string, state: LogState, sinks: Sinks, args: Args, cfg: ColorConfig)
    returns (lastTag: Option<string>, appPid: Option<string>, ghost p: Phase)
    requires tag == Strip(rec.tag) && WideEnough(cfg.width, args)
    modifies state`pidsMap, sinks
    ensures p == Events(line, rec, old(state.Snapshot()), state.Settings(), args, cfg.width)
    ensures state.pidsMap == p.pids && lastTag == p.lastTag && appPid == p.appPid
    ensures Received(sinks, old(sinks.console), old(sinks.file), p.written, cfg)
  {
    ghost var s0 := state.Snapshot();
    ghost var c := state.Settings();
    ghost var console0, file0 := sinks.console, sinks.file;
    ghost var started;
    lastTag, appPid, started := ApplyStart(line, state, sinks, args, cfg, state.lastTag, state.appPid);
    ghost var p1 := StartPhase(line, s0, c, args, cfg.width);
    ghost var console1, file1 := sinks.console, sinks.file;
    ghost var ended;
    lastTag, ended := ApplyDeath(tag, rec.message, state, sinks, args, cfg, p1, lastTag);
    p := Events(line, rec, s0, c, args, cfg.width);
    ReceivedMore(sinks, console0, file0, started, ended, console1, file1, cfg);
  }

  /**
   * `ProcessLogLine(line, state, args, colorConfig)`: the state, the colour
   * allocator and both sinks end up exactly as `Step` says.
   */
  method ProcessLogLine(line: string, state: LogState, alloc: ColorAllocator, sinks: Sinks,
                        args: Args, cfg: ColorConfig, ext: Externals)
    requires alloc.Ready() && WideEnough(cfg.width, args)
    modifies state, alloc, sinks
    ensures alloc.Ready() && (old(alloc.Valid()) ==> alloc.Valid())
    ensures var r := Step(line, old(state.Snapshot()), old(alloc.Table()), state.Settings(), args, cfg, ext);
      && state.Snapshot() == r.state && alloc.Table() == r.table
      && Received(sinks, old(sinks.console), old(sinks.file), r.written, cfg)
  {
    ghost var s0 := state.Snapshot();
    ghost var t0 := alloc.Table();
    ghost var c := state.Settings();
    ghost var console0, file0 := sinks.console, sinks.file;
    ReceivedNothing(sinks, cfg);

    if NativeTagsMatches(line) {
      StepIgnoresNoise(line, s0, t0, c, args, cfg, ext);
      return;
    }
    var logLine := ParseLogLine(line);
    if logLine.None? {
      StepIgnoresNoise(line, s0, t0, c, args, cfg, ext);
      return;
    }
    ProcessRecord(line, logLine.value, state, alloc, sinks, args, cfg, ext);
    StepOfRecord(line, logLine.value, s0, t0, c, args, cfg, ext);
    if IsRecencyList(t0.lastUsed) {
      StepKeepsRecencyList(line, s0, t0, c, args, cfg, ext);
    }
  }
}
