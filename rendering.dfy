/**
 * The cells of an output line (pidcat.py:36-43, 627-684): the truncated and
 * padded package and tag columns, the three-character level cell with its
 * colours, and the process start and end banners (pidcat.py:555-601).
 */
module Rendering {
  import opened Wrappers
  import opened Text
  import opened TerminalColors
  import opened AnsiStrip
  import opened Wrap
  import opened StartEvents
  import opened DeathEvents

  /** `LOG_LEVELS`, lowest to highest. */
  const LOG_LEVELS: string := "VDIWEF"

  /** `LOG_LEVELS_MAP.get(level)` */
  function LevelIndex(level: char): (r: Option<nat>)
    ensures r.Some? ==> r.value < |LOG_LEVELS| && LOG_LEVELS[r.value] == level
    ensures r.None? <==> level !in LOG_LEVELS
  {
    if level == 'V' then Some(0)
    else if level == 'D' then Some(1)
    else if level == 'I' then Some(2)
    else if level == 'W' then Some(3)
    else if level == 'E' then Some(4)
    else if level == 'F' then Some(5)
    else None
  }

  const TAGTYPES: map<char, string> := map['V' := " V ", 'D' := " D ", 'I' := " I ", 'W' := " W ", 'E' := " E ", 'F' := " F "]

  /** `TAGTYPES.get(level, " " + level + " ")`: every level, known or not, is shown as one letter between blanks. */
  function LevelText(level: char): (r: string)
    ensures r == [' ', level, ' ']
  {
    if level in TAGTYPES then TAGTYPES[level] else [' ', level, ' ']
  }

  const LEVEL_FOREGROUND: map<char, int> := map['V' := WHITE, 'D' := BLACK, 'I' := BLACK, 'W' := BLACK, 'E' := BLACK, 'F' := BLACK]
  const LEVEL_BACKGROUND: map<char, int> := map['V' := BLACK, 'D' := BLUE, 'I' := GREEN, 'W' := YELLOW, 'E' := RED, 'F' := RED]

  /** `d.get(k, default)` */
  function Lookup(m: map<char, int>, k: char, default: int): (r: int)
    ensures k in m ==> r == m[k]
    ensures k !in m ==> r == default
  {
    if k in m then m[k] else default
  }

  /** The level cell: coloured white on black for unknown levels, plain when colours are off. */
  function LevelCell(level: char, showColors: bool): string {
    if showColors then
      Colorize(LevelText(level), Some(Lookup(LEVEL_FOREGROUND, level, WHITE)), Some(Lookup(LEVEL_BACKGROUND, level, BLACK)))
    else LevelText(level)
  }

  /** The level cell always shows exactly its three characters, with or without colour. */
  lemma LevelCellVisible(level: char, showColors: bool)
    requires level != ESC
    ensures StripAnsi(LevelCell(level, showColors)) == [' ', level, ' ']
  {
    var text := LevelText(level);
    assert ESC !in text;
    StripAnsiOfPlain(text);
    if showColors {
      StripAnsiColorize(text, Some(Lookup(LEVEL_FOREGROUND, level, WHITE)), Some(Lookup(LEVEL_BACKGROUND, level, BLACK)), "");
    }
  }

  /** `name[:w - 3] + "..."` when `name` is longer than `w`, else `name`. */
  function Truncate(name: string, w: nat): string {
    if |name| > w then PyPrefix(name, w - 3) + "..." else name
  }

  /** With room for the ellipsis, a long name keeps its first `w - 3` characters and fits exactly. */
  lemma TruncateFits(name: string, w: nat)
    requires w >= 3
    ensures |name| > w ==> Truncate(name, w) == name[..w - 3] + "..." && |Truncate(name, w)| == w
    ensures |name| <= w ==> Truncate(name, w) == name
  {
  }

  /**
   * Below three columns the slice bound `w - 3` is negative and counts from
   * the end, so the "truncated" name is longer than the column.
   */
  lemma TruncateNarrowColumn(name: string, w: nat)
    requires w < 3 && |name| > w
    ensures Truncate(name, w) == name[..if |name| + w < 3 then 0 else |name| + w - 3] + "..."
    ensures |Truncate(name, w)| > w
  {
  }

  /** `packageName.ljust(packageWidth)` after truncation. */
  function PackageColumn(name: string, w: nat): string {
    LJust(Truncate(name, w), w)
  }

  /** `tag.rjust(tagWidth)` beside a package column, else `tag.ljust(tagWidth)`, after truncation. */
  function TagColumn(tag: string, w: nat, rightAligned: bool): string {
    if rightAligned then RJust(Truncate(tag, w), w) else LJust(Truncate(tag, w), w)
  }

  /**
   * A column is exactly `w` wide, made of the (possibly truncated) name and
   * blanks: blanks on the right for a left-aligned column and on the left for
   * a right-aligned one.
   */
  lemma ColumnShape(name: string, w: nat, rightAligned: bool)
    requires w >= 3 || |name| <= w
    ensures |PackageColumn(name, w)| == w && |TagColumn(name, w, rightAligned)| == w
    ensures PackageColumn(name, w) == Truncate(name, w) + Spaces(w - |Truncate(name, w)|)
    ensures !rightAligned ==> TagColumn(name, w, rightAligned) == Truncate(name, w) + Spaces(w - |Truncate(name, w)|)
    ensures rightAligned ==> TagColumn(name, w, rightAligned) == Spaces(w - |Truncate(name, w)|) + Truncate(name, w)
  {
    if w >= 3 {
      TruncateFits(name, w);
    }
    var t := Truncate(name, w);
    if |t| == w {
      assert Spaces(0) == "";
      assert t + "" == t && "" + t == t;
    }
  }

  /** A column holds an ESC only where its name does: padding and ellipsis add none. */
  lemma ColumnPlain(name: string, w: nat, rightAligned: bool)
    requires ESC !in name
    ensures ESC !in PackageColumn(name, w) && ESC !in TagColumn(name, w, rightAligned)
  {
    var t := Truncate(name, w);
    assert ESC !in t by {
      if |name| > w {
        var p := PyPrefix(name, w - 3);
        assert forall i :: 0 <= i < |p| ==> p[i] == name[i];
        assert ESC !in p;
      }
    }
    var n := if |t| < w then w - |t| else 0;
    assert ESC !in Spaces(n);
  }

  /** The header of a start or end banner: package column, tag column and level cell. */
  function BannerHeader(packageShown: bool, packageWidth: nat, tagWidth: nat): nat {
    (if packageShown then packageWidth + 2 else 0) + tagWidth + 4
  }

  /** `" Process %s created for %s\n"` */
  function CreatedText(e: StartEvent): string {
    " Process " + e.package + " created for " + e.target + "\n"
  }

  /** The start banner: a white bar, the wrapped announcement, a second bar and the ids. */
  function StartBanner(e: StartEvent, h: nat, width: int): string
    requires h >= 1 && (width == -1 || width > h)
  {
    "\n" + Colorize(Spaces(h - 1), None, Some(WHITE)) + Wrapped(CreatedText(e), width, h)
    + Colorize(Spaces(h - 1), None, Some(WHITE))
    + " PID: " + e.pid + "   UID: " + e.uid + "   GIDs: " + e.gids + "\n"
  }

  /** `" Process %s (PID: %s) ended"` with its newline. */
  function EndedText(d: Death): string {
    " Process " + d.package + " (PID: " + d.pid + ") ended" + "\n"
  }

  /** The end banner: a red bar and the announcement. */
  function DeathBanner(d: Death, h: nat): string
    requires h >= 1
  {
    "\n" + (Colorize(Spaces(h - 1), None, Some(RED)) + EndedText(d))
  }

  /** Without colours an end banner reads as a line of blanks the width of the header, then the announcement. */
  lemma DeathBannerVisible(d: Death, h: nat)
    requires h >= 1 && ESC !in d.package && ESC !in d.pid
    ensures StripAnsi(DeathBanner(d, h)) == "\n" + Spaces(h - 1) + EndedText(d)
  {
    var bar := Spaces(h - 1);
    var tail := EndedText(d);
    assert ESC !in bar;
    EndedTextPlain(d);
    var x := Colorize(bar, None, Some(RED)) + tail;
    StripAnsiPlainPrefix("\n", x);
    StripAnsiColorize(bar, None, Some(RED), tail);
    StripAnsiOfPlain(tail);
    assert "\n" + (bar + tail) == "\n" + bar + tail;
  }

  lemma EndedTextPlain(d: Death)
    requires ESC !in d.package && ESC !in d.pid
    ensures ESC !in EndedText(d)
  {
    var a := " Process " + d.package;
    var b := a + " (PID: " + d.pid;
    assert ESC !in a;
    assert ESC !in b;
  }
}
