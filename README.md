# pidcat line processing, modelled in Dafny

pidcat reads `adb logcat` output in the brief format (`L/Tag(  pid): message`).
It keeps only the lines of the processes that belong to the packages it was
asked to follow. It shows each kept line as coloured columns: package, tag,
level, then the message, wrapped under the columns.

While it reads, it follows processes as they start and die:

- an ActivityManager "Start proc" line adds the new pid to its pid map and
  prints a white banner;
- a "Killing", "No longer want" or "has died" message removes the pid and
  prints a red banner.

Tags get colours from a small least-recently-used palette. Escape sequences
are stripped from whatever goes to a file, or to a console without colours.

The model covers:

- the colour escape helpers (`termColor`, `colorize`);
- message wrapping (`IndentWrap`);
- the tag colour allocator (`AllocateColor` over `KNOWN_TAGS` and `LAST_USED`);
- the package filter (`MatchPackages`) and the package split in `main`;
- every fixed regular expression of the line processor, written as a
  recogniser with Python `re` semantics. `.` does not cross a newline and `$`
  also matches before a final newline. The greedy `^.*` in front of
  `: Start proc ` picks the last marker that works, and the lazy tag of
  `LOG_LINE` picks the shortest tag that works;
- `ParseStartProc` and `ParseDeath`;
- the literal branch of `TagInTagsRegex`;
- the whole of `ProcessLogLine`.

Code that changes things in place is modelled in place:

- `IndentWrap` is a method with a loop.
- `AllocateColor` is a method of the class `ColorAllocator`, whose fields are
  the `KNOWN_TAGS` map and the `LAST_USED` list.
- `ProcessLogLine` is a method over the classes `LogState` (the `state`
  dictionary), `ColorAllocator` and `Sinks`. `Sinks` holds the console and
  file outputs as sequences of lines.

Each of these methods is proved equal to a function on values:

- `Wrapped` for `IndentWrap`;
- `Allocate` for `AllocateColor`;
- `Step` for `ProcessLogLine`.

The lemmas state their properties on those functions: chunk shape, the
recency-list permutation, how the pid map evolves, what the filters let
through, and the visible width of the columns.

Details of the code that the model keeps as written:

- `last_tag` and `app_pid` are written back only when the line itself is
  printed (pidcat.py:710-711). A start banner printed for a line that the
  filters then drop does not set `app_pid`. The pid map edits persist on
  every path.
- Stripping escapes is not idempotent, which `AnsiStrip.StripAnsiNotIdempotent`
  shows.
- A tag's colour is never reassigned. Once a tag is bound in `KNOWN_TAGS`
  (pidcat.py:177-178) it keeps that colour (`ColorAllocation.BindingsPersist`).
  When the colour comes round to the front of `LAST_USED` again, the next new
  tag is bound to it as well, so the two tags share it
  (`ColorAllocation.SixFreshTagsShareEveryColor`).
- The banner header counts `tag_width` without the tag's separator blank
  (pidcat.py:562-566 and pidcat.py:589-593). Line headers count `tag_width + 1`.
- `packageName[: w - 3]` with `w < 3` slices from the end. The "truncated"
  name is then longer than its column (`Rendering.TruncateNarrowColumn`).
- pidcat.py:70-91 defines `Termcolor` and `Colorize` with the same behaviour
  as `termColor` and `colorize` of terminalColors.py:7-24, so the model
  defines `TermColor` and `Colorize` once.

Modules, one per file: `Wrappers`, `Text` (the Python string operations
used), `Scan` (recogniser building blocks), `TerminalColors`, `AnsiStrip`,
`Wrap`, `ColorAllocation`, `PackageFilter`, `LogLine`, `StartEvents`,
`DeathEvents`, `Rendering` and `LineProcessor`.

## Model

| member | source | states |
|---|---|---|
| TerminalColors.ESC | terminalColors.py:3 | the escape character `\033` that starts every SGR sequence |
| TerminalColors.BLACK | terminalColors.py:4 | colour number 0 of `BLACK, RED, GREEN, YELLOW, BLUE, MAGENTA, CYAN, WHITE = range(8)` |
| TerminalColors.RED | terminalColors.py:4 | colour number 1 of `BLACK, RED, GREEN, YELLOW, BLUE, MAGENTA, CYAN, WHITE = range(8)` |
| TerminalColors.GREEN | terminalColors.py:4 | colour number 2 of `BLACK, RED, GREEN, YELLOW, BLUE, MAGENTA, CYAN, WHITE = range(8)` |
| TerminalColors.YELLOW | terminalColors.py:4 | colour number 3 of `BLACK, RED, GREEN, YELLOW, BLUE, MAGENTA, CYAN, WHITE = range(8)` |
| TerminalColors.BLUE | terminalColors.py:4 | colour number 4 of `BLACK, RED, GREEN, YELLOW, BLUE, MAGENTA, CYAN, WHITE = range(8)` |
| TerminalColors.MAGENTA | terminalColors.py:4 | colour number 5 of `BLACK, RED, GREEN, YELLOW, BLUE, MAGENTA, CYAN, WHITE = range(8)` |
| TerminalColors.CYAN | terminalColors.py:4 | colour number 6 of `BLACK, RED, GREEN, YELLOW, BLUE, MAGENTA, CYAN, WHITE = range(8)` |
| TerminalColors.WHITE | terminalColors.py:4 | colour number 7 of `BLACK, RED, GREEN, YELLOW, BLUE, MAGENTA, CYAN, WHITE = range(8)` |
| TerminalColors.RESET | terminalColors.py:3 | the reset sequence ESC `[0m` |
| TerminalColors.ColorCodes | terminalColors.py:10-16 | defines the `codes` list: `"3%d" % foreground` when a foreground is given, then `"10%d" % background` when a background is given |
| TerminalColors.TermColor | terminalColors.py:7-18 | defines `termColor`: the SGR parameters `3fg` and `10bg`, each only when given, joined by `;` inside `ESC[`...`m`, or `""` when neither is given; its shape is stated by `TermColorShapes` and `TermColorIsOneSequence` |
| TerminalColors.Colorize | terminalColors.py:21-24 | defines `colorize` as `termColor(fg, bg) + message + RESET`; `ColorizeShape` and `AnsiStrip.StripAnsiColorize` state its properties |
| TerminalColors.TermColorShapes | terminalColors.py:7-18 | no colour gives `""`; a foreground alone gives `ESC[3fgm`; a background alone gives `ESC[10bgm`; both give `ESC[3fg;10bgm` |
| TerminalColors.TermColorIsOneSequence | terminalColors.py:7-18 | a non-empty `termColor` result is one escape sequence: ESC, `[`, parameter characters only (digits, `-`, `;`), then `m` |
| TerminalColors.JoinParamChars | terminalColors.py:18 | joining parameter strings with `;` yields only parameter characters |
| TerminalColors.ColorizeShape | terminalColors.py:21-24 | `colorize` is `termColor(fg, bg) + message + RESET`, so it always ends in `ESC[0m`; with no colours it is `message + ESC[0m` |
| Text.Spaces | pidcat.py:166 | `" " * n` has length n and holds only blanks |
| Text.LStrip | pidcat.py:618 | defines `lstrip` by dropping leading `str.isspace` characters one at a time; `LStripShape` states what it removes |
| Text.RStrip | pidcat.py:548 | defines `rstrip` by dropping trailing `str.isspace` characters one at a time; `RStripShape` states what it removes |
| Text.Strip | pidcat.py:548 | defines `strip` as `rstrip` after `lstrip`, so `LStripShape` and `RStripShape` together give its shape |
| Text.LStripShape | pidcat.py:618 | `lstrip` removes exactly the longest leading run of Python whitespace |
| Text.RStripShape | pidcat.py:548 | `rstrip` removes exactly the longest trailing run of Python whitespace |
| Text.LJust | pidcat.py:633 | `ljust(w)` leaves a name of at least w characters alone, else pads it on the right to exactly w |
| Text.RJust | pidcat.py:648 | `rjust(w)` leaves a name of at least w characters alone, else pads it on the left to exactly w |
| Text.PyPrefix | pidcat.py:632 | `s[:k]` follows Python slicing: a plain prefix, the whole string past the end, and counting from the end for negative k |
| Text.Find | pidcat.py:304 | `find` returns -1 exactly when the character is absent, otherwise the index of its first occurrence |
| Text.IsDigit | pidcat.py:48 | defines `\d` as the ASCII digits `0`-`9` (see "Left out" for the non-ASCII digits Python also accepts) |
| Text.IsSpace | pidcat.py:548 | defines the characters `str.isspace` accepts, which `strip`, `lstrip` and `rstrip` remove |
| Text.Contains | pidcat.py:199 | defines Python's substring test `t in tag`: `t` occurs at some index of `tag`, the empty string at index 0 of every tag |
| Text.Join | terminalColors.py:18 | defines `";".join(codes)`: the parts with the separator between each pair, `""` for no parts |
| Text.NatString | terminalColors.py:13 | `%d` of a natural is a non-empty digit string without a leading zero that denotes the number |
| Text.IntString | terminalColors.py:13-16 | `%d` of an integer is the digits of its magnitude, with `-` in front for a negative number |
| Scan.InClass | pidcat.py:49-64 | defines membership in each character class of the patterns, the cases of the datatype `CharClass`: `\d` (ASCII digits), a blank, `\s` (`str.isspace`), `[a-zA-Z0-9._:]`, `[a-z0-9]`, `[a-z]`, and `[^:]`, which includes the newline |
| Scan.AllIn | pidcat.py:49-64 | defines a string made only of characters of one class, as a `+` or `*` run of it matches |
| Scan.Span | pidcat.py:49-67 | a maximal run of one character class: the run and the rest rebuild the input, and the rest does not start with the class |
| Scan.SpanOf | pidcat.py:49-67 | a class run followed by a character outside the class splits back into exactly that run and rest |
| Scan.LineRest | pidcat.py:49-67 | `(.*)$` captures the rest of the text when it is one line, with or without a final newline |
| Scan.LineRestOf | pidcat.py:49-67 | a line, with or without its final newline, is captured whole by `(.*)$` |
| Scan.FirstLineEnd | pidcat.py:59-64 | the reach of `^.*`: no newline before it, and a newline at it when it is short of the end |
| Scan.FirstLineCovers | pidcat.py:47-67 | `^.*` reaches over any newline-free prefix |
| AnsiStrip.StripAnsi | pidcat.py:45 | defines `NO_COLOR.sub("", s)`: scanning left to right, each ESC `[` that has a later `m` before any newline is removed up to that first `m`; the lemmas below state what it keeps and drops |
| AnsiStrip.SgrEnd | pidcat.py:45 | `.*?m` finds the first `m` with no newline before it, and fails only when every `m` has a newline in front of it |
| AnsiStrip.StripAnsiShrinks | pidcat.py:532 | stripping never lengthens a line |
| AnsiStrip.StripAnsiPlainPrefix | pidcat.py:532 | text without ESC passes through stripping unchanged, followed by what the rest strips to |
| AnsiStrip.StripAnsiOfPlain | pidcat.py:532 | a line without ESC is written unchanged to a file or a colourless console |
| AnsiStrip.StripAnsiDropsSequence | pidcat.py:45 | an ESC `[` ... `m` sequence with no `m` or newline inside is removed whole |
| AnsiStrip.SgrEndAt | pidcat.py:45 | the lazy `.*?m` ends at the first `m` |
| AnsiStrip.StripAnsiDropsTermColor | pidcat.py:532 | a `termColor` result disappears under stripping, whatever follows it |
| AnsiStrip.StripAnsiColorize | pidcat.py:531-537 | stripping `colorize(m, fg, bg)` gives back m when m holds no ESC, also in front of any further text |
| AnsiStrip.StripAnsiNotIdempotent | pidcat.py:45 | a stray ESC before a sequence survives one pass and forms a new sequence, so a second pass strips more |
| Wrap.ExpandTabs | pidcat.py:155 | the result holds no tab, is unchanged when the input has none, and is empty only for empty input |
| Wrap.Chunks | pidcat.py:160-168 | defines the pieces `message[current:next]` the loop cuts, wrapArea characters at a time; `ChunksShape` and `ChunksCount` state their shape and number |
| Wrap.Separator | pidcat.py:165-166 | defines what the loop appends between two pieces: `"\n"` then headerSize blanks |
| Wrap.Wrapped | pidcat.py:149-169 | defines `IndentWrap` on values: the message for width -1, else the tab-expanded chunks joined by a newline and headerSize blanks; `IndentWrap`, `WrappedHasNoTab` and `WrapFits` state its properties |
| Wrap.ChunksShape | pidcat.py:160-168 | no chunks for an empty message; every chunk but the last has exactly wrapArea characters and the last 1..wrapArea; together they are the message |
| Wrap.WrapStep | pidcat.py:160-168 | one loop round appends `message[current:next]`, then a separator only if text remains |
| Wrap.IndentWrap | pidcat.py:149-169 | the loop returns `Wrapped`: the message itself for width -1, otherwise the tab-expanded chunks joined by `"\n"` plus headerSize blanks |
| Wrap.JoinHasNoTab | pidcat.py:155 | joining tab-free pieces with a tab-free separator leaves no tab |
| Wrap.ChunksOfTabFree | pidcat.py:155-162 | the chunks of a tab-free message are tab-free |
| Wrap.WrappedHasNoTab | pidcat.py:155-169 | with a known width the wrapped message holds no tab |
| Wrap.WrapFits | pidcat.py:160-168 | a message that fits the wrap area comes back only tab-expanded |
| Wrap.ChunksCount | pidcat.py:160-168 | the number of chunks is the length divided by wrapArea, rounded up |
| Wrap.JoinLength | pidcat.py:160-168 | the output length is the message length plus one separator between each pair of chunks |
| Wrap.WrapHundredInForty | pidcat.py:149-169 | 100 characters under a 10-column header on 50 columns become 40, 40 and 20 characters, each later piece indented by 10 |
| Wrap.NoWrapAreaNeverEnds | pidcat.py:156-168 | with `width - headerSize <= 0` and a non-empty message the cursor never advances, so the loop never ends |
| ColorAllocation.RemoveFirst | pidcat.py:183 | `list.remove(x)` drops one occurrence of x when present, leaving the other elements as a multiset, and changes nothing otherwise |
| ColorAllocation.RemoveFirstAt | pidcat.py:183 | the occurrence dropped is the first: with x at i and not before i, the result is `s[..i] + s[i+1..]` |
| ColorAllocation.Allocate | pidcat.py:172-186 | one lookup on values keeps `LAST_USED` at its length |
| ColorAllocation.AllocateAll | pidcat.py:172-186 | a series of lookups keeps `LAST_USED` at its length |
| ColorAllocation.AllocateKeepsRecencyList | pidcat.py:182-184 | a lookup keeps `LAST_USED` a permutation of RED..CYAN |
| ColorAllocation.AllocateBinding | pidcat.py:177-180 | a known tag gets its colour and the map is unchanged; an unknown tag is bound to `LAST_USED[0]` and only that entry is added |
| ColorAllocation.AllocateMovesColorLast | pidcat.py:182-184 | a returned colour that is in `LAST_USED` moves to its end, the rest keeping their order; any other colour, WHITE included, leaves the list alone |
| ColorAllocation.BindingsPersist | pidcat.py:177-178 | a binding is never overwritten, so repeated lookups of a tag return the same colour whatever came between |
| ColorAllocation.AllocateAllKeys | pidcat.py:177-178 | lookups add only the tags looked up |
| ColorAllocation.FreshTagRotates | pidcat.py:177-184 | an unknown tag takes the front colour, which moves to the back |
| ColorAllocation.FreshTagsStep | pidcat.py:177-184 | one more distinct new tag continues the rotation |
| ColorAllocation.FreshTagsTakeColorsInOrder | pidcat.py:172-186 | distinct new tags receive `LAST_USED` in order, the list rotating once per tag, and old bindings stay |
| ColorAllocation.SixFreshTagsShareEveryColor | pidcat.py:172-186 | after six distinct new tags the list is back in place, and the colour of any tag holding a rotating colour has also gone to one of them |
| ColorAllocation.ColorAllocator.constructor | pidcat.py:22-34 | the allocator starts from `KNOWN_TAGS` with its system tags and `LAST_USED = [RED..CYAN]` |
| ColorAllocation.PALETTE | pidcat.py:23 | the initial `LAST_USED`: RED, GREEN, YELLOW, BLUE, MAGENTA, CYAN |
| ColorAllocation.INITIAL_KNOWN_TAGS | pidcat.py:25-34 | the initial `KNOWN_TAGS`: eight system tags (dalvikvm, Process, ActivityManager, ActivityThread, AndroidRuntime, jdwp, StrictMode, DEBUG) bound to WHITE, CYAN or YELLOW |
| ColorAllocation.ColorAllocator.AllocateColor | pidcat.py:172-186 | the in-place lookup returns the existing or new binding, adds at most that entry, and moves the colour to the end of `LAST_USED`; it equals `Allocate` |
| PackageFilter.MatchPackages | pidcat.py:293-310 | defines `MatchPackages` branch for branch, with `token.find(":")` as `Text.Find`; `MatchPackagesMeaning` states what it accepts |
| PackageFilter.BeforeColon | pidcat.py:304-309 | the part of a name before its first colon, or all of it |
| PackageFilter.FindColonPrefix | pidcat.py:304-309 | `token[:token.find(":")]` is the part before the first colon |
| PackageFilter.BeforeColonOf | pidcat.py:304-309 | the part before the colon of `a:rest`, with a colon-free a, is a |
| PackageFilter.DropTrailingColon | pidcat.py:748 | defines `p[:-1] if p.endswith(":") else p`; `NamedProcesses` states its effect on the named list |
| PackageFilter.MatchPackagesMeaning | pidcat.py:293-310 | true when both lists are empty or the name is a named process; otherwise true iff the part before the first colon (the whole name if it has none) is a catch-all package |
| PackageFilter.CatchallPackages | pidcat.py:746 | the catch-all list holds exactly the colon-free terms |
| PackageFilter.NamedProcesses | pidcat.py:747-750 | the named list holds exactly the terms with a colon, one trailing colon dropped |
| PackageFilter.SplitPackages | pidcat.py:745-752 | `all` ends up set when it was given or when no packages were given |
| PackageFilter.SplitTermsSelectTheirProcesses | pidcat.py:745-752 | a bare package selects its processes; `pkg:proc` and `proc:` select the named process |
| PackageFilter.SplitMatchesOnlyTerms | pidcat.py:745-752 | with at least one term, every match is explained by some term |
| PackageFilter.NoPackagesShowAll | pidcat.py:751-752 | no terms forces `all`, and every process name matches |
| PackageFilter.CatchallMatchesSecondaryProcess | pidcat.py:304-309 | for any colon-free catch-all package `pkg`, any process `pkg:proc` matches, whatever the named processes |
| PackageFilter.CatchallRejectsOtherPackage | pidcat.py:298-310 | once either list is non-empty, a name that is not a named process and whose part before the first colon is not a catch-all package does not match |
| LogLine.ParseLogLine | pidcat.py:543-547 | defines `LOG_LINE.match(line)`: an upper-case level, `/`, then the shortest tag behind which `\( *(\d+)\): (.*?)$` matches; `ParseBriefLine` and `ParsedLogLineShape` state both directions |
| LogLine.IsUpper | pidcat.py:48 | defines the class `[A-Z]` of the level |
| LogLine.TagSearch | pidcat.py:48 | defines the lazy search for the tag of `LOG_LINE`, one length at a time; `TagSearchShape` states what it finds |
| LogLine.AfterTag | pidcat.py:48 | defines what `\( *(\d+)\): (.*?)$` captures behind a candidate tag; `AfterTagShape` and `AfterTagOf` state it |
| LogLine.PidMessage | pidcat.py:48 | defines what `(\d+)\): (.*?)$` captures behind the blanks; `PidMessageShape` and `PidMessageOf` state both directions |
| LogLine.ShortestPrefix | pidcat.py:48 | defines a lazy `(.+?)` followed by a sub-pattern: the shortest newline-free prefix behind which the sub-pattern matches; `ShortestPrefixShape` and `ShortestPrefixSkips` state it |
| LogLine.BacktraceMatches | pidcat.py:46 | defines `BACKTRACE_LINE.match(s)`: `#`, then some `pc` and a whitespace character on the first line; `BacktraceFrameMatches` and `BacktraceNeedsHashAndPc` state both directions |
| LogLine.BacktraceAt | pidcat.py:46 | defines one way `^#(.*?)pc\s(.*?)$` can match: `pc` at a given index, no newline before it, then whitespace and one line |
| LogLine.NativeTagsMatches | pidcat.py:47 | defines `NATIVE_TAGS_LINE.match(s)`: the marker occurs within the first line; `NativeTagsLineMatches` and `NativeTagsNeedsMarker` state both directions |
| LogLine.NATIVE_TAGS | pidcat.py:47 | the marker `nativeGetEnabledTags` of `NATIVE_TAGS_LINE` |
| LogLine.AfterTagOf | pidcat.py:48 | `\( *(\d+)\): (.*?)$` reads back the pid and the message behind any padding |
| LogLine.PidMessageOf | pidcat.py:48 | the pid and message part is read back exactly |
| LogLine.ShortestPrefixSkips | pidcat.py:48 | the lazy `(.+?)` passes over every length at which the rest of the pattern fails |
| LogLine.ShortestPrefixShape | pidcat.py:48 | a lazy `(.+?)` match is a newline-free prefix behind which the rest matches, and no shorter one works |
| LogLine.TagSearchShape | pidcat.py:48 | the tag found is newline-free, the rest of the pattern accepts what follows it, and no shorter tag would |
| LogLine.TagSearchOfTag | pidcat.py:48 | a tag without `(` and newline is found whole when a valid rest follows it |
| LogLine.PidMessageShape | pidcat.py:48 | an accepted pid part is digits, `): `, then one line of message |
| LogLine.AfterTagShape | pidcat.py:48 | an accepted tag rest is `(`, blanks, digits, `): `, then one line of message |
| LogLine.ParseBriefLine | pidcat.py:543-548 | round trip: a brief line whose tag has no `(` or newline and whose message has no newline parses back to level, tag, pid and message, with or without a final newline |
| LogLine.ParseBriefRest | pidcat.py:48 | the same round trip for any rest of line that `(.*?)$` reads |
| LogLine.BriefLineParts | pidcat.py:48 | a brief line is level, `/`, tag and the parenthesised rest |
| LogLine.LineOfParts | pidcat.py:48 | level, `/`, a tag and an accepted rest form a brief line |
| LogLine.ParsedLogLineParts | pidcat.py:48 | a parsed line's level is upper case and its tag a newline-free prefix of the text after `L/`, with an accepted rest behind it |
| LogLine.ParsedLogLineShape | pidcat.py:543-548 | soundness: every parsed line is a brief line built from its captured parts, and no shorter tag would have matched |
| LogLine.BacktraceFrameMatches | pidcat.py:617-620 | a native frame `#... pc ...` on one line matches `BACKTRACE_LINE` |
| LogLine.BacktraceNeedsHashAndPc | pidcat.py:46 | a match starts with `#` and has `pc` followed by whitespace |
| LogLine.NativeTagsLineMatches | pidcat.py:539-541 | the `nativeGetEnabledTags` marker on the first line is recognised, whatever surrounds it |
| LogLine.NativeTagsNeedsMarker | pidcat.py:47 | a recognised native-tags line contains the marker |
| StartEvents.Start51Tail | pidcat.py:59-61 | a 5.1 tail yields a digit pid, a package of `[a-zA-Z0-9._:]`, and empty uid and gids |
| StartEvents.Start51Package | pidcat.py:59-61 | the package stage keeps the pid and yields a valid package |
| StartEvents.Start51User | pidcat.py:59-61 | the user stage keeps package and pid, with empty uid and gids |
| StartEvents.StartFullTail | pidcat.py:62-64 | an older-style tail yields a valid pid and package and a digit uid |
| StartEvents.FullTarget | pidcat.py:62-64 | the target stage keeps the package |
| StartEvents.FullWhat | pidcat.py:62-64 | the rest-of-target stage keeps the package |
| StartEvents.FullIds | pidcat.py:62-64 | the ids stage keeps package and target and yields a digit uid |
| StartEvents.FullUid | pidcat.py:62-64 | the uid stage keeps package, target and pid |
| StartEvents.MarkerSearch | pidcat.py:59-64 | the `^.*` search yields only well-formed events, with empty uid and gids for the 5.1 form |
| StartEvents.MatchDalvik | pidcat.py:65-67 | a Dalvik match yields a valid pid and package, a digit uid, and empty target and gids |
| StartEvents.DalvikPackage | pidcat.py:65-67 | the package stage keeps the pid |
| StartEvents.START_PROC | pidcat.py:59-64 | the marker `: Start proc ` of the first two start patterns |
| StartEvents.MarkerTail | pidcat.py:59-64 | defines which tail pattern follows the marker: the 5.1 tail or the older-style tail |
| StartEvents.START_FORMS | pidcat.py:352 | the start patterns in the order `ParseStartProc` tries them: 5.1, older style, Dalvik |
| StartEvents.MatchStart | pidcat.py:352-353 | defines `regex.match(line)` for each of the three start patterns; `MarkerSearch`, `MatchDalvik` and the round trips below state what each returns |
| StartEvents.FirstStart | pidcat.py:352-372 | the first pattern that matches wins; no result means none matched |
| StartEvents.ParseStartProc | pidcat.py:349-372 | every event returned has a digit pid and a valid package |
| StartEvents.Start51UserOf | pidcat.py:59-61 | user, ` for ` and a target line read back as that target |
| StartEvents.Start51PackageOf | pidcat.py:59-61 | package then `/` passes on to the user stage |
| StartEvents.Start51TailOf | pidcat.py:59-61 | a 5.1 tail reads back pid, package and target |
| StartEvents.FullIdsOf | pidcat.py:62-64 | `pid= uid= gids=` read back |
| StartEvents.FullUidOf | pidcat.py:62-64 | `uid= gids=` read back |
| StartEvents.FullTargetOf | pidcat.py:62-64 | `kind what: pid=` passes on target `kind what` |
| StartEvents.FullWhatOf | pidcat.py:62-64 | the colon-free rest of the target ends at `: pid=` |
| StartEvents.StartFullTailStep | pidcat.py:62-64 | package then ` for ` passes on to the target stage |
| StartEvents.StartFullTailOf | pidcat.py:62-64 | an older-style tail reads back all five parts |
| StartEvents.DalvikPackageOf | pidcat.py:65-67 | the Dalvik package and appId part reads back |
| StartEvents.DalvikTextOf | pidcat.py:65-67 | a Dalvik text reads back package, pid and uid |
| StartEvents.DalvikLineOf | pidcat.py:65-67 | round trip: a Dalvik start line, with or without a final newline, reads back |
| StartEvents.MarkerSearchFinds | pidcat.py:59-64 | the greedy `^.*` stops at the last marker, below the first newline, whose tail matches |
| StartEvents.MarkerSearchMisses | pidcat.py:59-64 | when the tail fails at every marker the pattern does not match |
| StartEvents.MarkerAfterPrefix | pidcat.py:59-64 | the marker sits right behind the prefix, with the tail after it |
| StartEvents.Start51TailPackageRun | pidcat.py:59-61 | a 5.1 tail needs `/` behind its package run |
| StartEvents.Start51RejectsFull | pidcat.py:59-64 | an older-style tail is never a 5.1 tail |
| StartEvents.Start51LineMatches | pidcat.py:59-61 | the 5.1 pattern reads back a 5.1 line that has no later marker |
| StartEvents.ParseStartFirstForm | pidcat.py:352-362 | when the 5.1 pattern matches, its result is returned |
| StartEvents.ParseStartSecondForm | pidcat.py:352-366 | when only the second pattern matches, its result is returned |
| StartEvents.ParseStart51Line | pidcat.py:349-372 | round trip: a 5.1 start line reads back package, target and pid, with empty uid and gids |
| StartEvents.StartFullLineRejects51 | pidcat.py:59-64 | the 5.1 pattern fails on an older-style line with a single marker |
| StartEvents.StartFullLineMatches | pidcat.py:62-64 | the second pattern reads back all five parts of an older-style line |
| StartEvents.ParseStartFullLine | pidcat.py:349-372 | round trip: an older-style start line reads back package, target, pid, uid and gids |
| StartEvents.MarkerChars | pidcat.py:59-64 | the marker begins with `: S` |
| StartEvents.OutsideClass | pidcat.py:59-67 | a one-class string holds no character outside the class |
| StartEvents.NoMarkerAroundPackage | pidcat.py:65-67 | no marker in `S`-free text around a package run |
| StartEvents.DalvikLineHasNoMarker | pidcat.py:65-67 | a Dalvik line carries no `: Start proc ` marker |
| StartEvents.ParseDalvikLine | pidcat.py:349-372 | round trip: both marker patterns fail on a Dalvik line, and the third reads back package, pid and uid, with empty target and gids |
| StartEvents.ParseStartProcNone | pidcat.py:349-372 | no pattern matches, no event |
| DeathEvents.MatchKill | pidcat.py:49 | a kill match starts with `Killing ` and yields a digit pid and a valid package |
| DeathEvents.KillPackage | pidcat.py:49 | the package stage keeps the pid |
| DeathEvents.MatchLeave | pidcat.py:50-52 | a leave match starts with `No longer want ` and yields a valid pair |
| DeathEvents.LeavePid | pidcat.py:50-52 | the pid stage keeps the package |
| DeathEvents.MatchDied | pidcat.py:53-55 | a died match starts with `Process ` and yields a valid pair |
| DeathEvents.DiedPid | pidcat.py:53-55 | the pid stage keeps the package |
| DeathEvents.AtMostOneMore | pidcat.py:54 | defines the tail `.?$`: at most one character, then the end of the text or a final newline |
| DeathEvents.DEATH_FORMS | pidcat.py:325 | the death patterns in the order `ParseDeath` tries them: kill, leave, died |
| DeathEvents.Accepted | pidcat.py:340-343 | defines the check a matched death has to pass: `MatchPackages(packageLine, ...) and pid in pidsSet` |
| DeathEvents.MatchDeath | pidcat.py:325-338 | defines `regex.match(message)` for each death pattern, with the pid and package taken from the groups that pattern uses; `ParseDeathOfMatch` states the result |
| DeathEvents.FirstDeath | pidcat.py:325-346 | defines the loop of `ParseDeath`: a pattern that matches but fails the check falls through to the next; `FirstDeathSpec` states this |
| DeathEvents.FirstDeathSpec | pidcat.py:325-346 | the first form whose match passes the check wins; forms that match but fail fall through; no result means none passed |
| DeathEvents.ParseDeath | pidcat.py:313-346 | a death is reported only from ActivityManager, for a known pid of a watched package |
| DeathEvents.KillPackageOf | pidcat.py:49 | the package, component and reason part reads back |
| DeathEvents.MatchKillOf | pidcat.py:49 | round trip: a kill message reads back pid (group 1) and package |
| DeathEvents.LeavePidOf | pidcat.py:50-52 | the pid part reads back |
| DeathEvents.MatchLeaveOf | pidcat.py:50-52 | round trip: a leave message reads back pid (group 2) and package |
| DeathEvents.DiedPidOf | pidcat.py:53-55 | `.?$` accepts at most one more character behind `has died` |
| DeathEvents.DiedMessageParts | pidcat.py:53-55 | a died message splits into prefix, package and pid part |
| DeathEvents.MatchDiedOf | pidcat.py:53-55 | round trip: a died message with at most one trailing character reads back |
| DeathEvents.MatchDiedRejectsLongTail | pidcat.py:53-55 | two or more trailing characters are rejected |
| DeathEvents.FirstCharOf | pidcat.py:49-55 | each form fixes the message's first letter |
| DeathEvents.DeathFormsDisjoint | pidcat.py:49-55 | a message matches at most one death form |
| DeathEvents.ParseDeathOfMatch | pidcat.py:313-346 | from ActivityManager, a message matching a form yields that form's pid and package exactly when they pass the check, and nothing otherwise |
| DeathEvents.ParseDeathNeedsActivityManager | pidcat.py:322-323 | any other tag yields no death |
| DeathEvents.DiedWatchedProcess | pidcat.py:313-346 | a catch-all package's died message ends its pid while the pid is known, and is ignored otherwise |
| Rendering.LOG_LEVELS | pidcat.py:16 | the level letters `VDIWEF`, lowest to highest; `LevelIndex` is `LOG_LEVELS_MAP` over it |
| Rendering.LevelIndex | pidcat.py:16-19 | `LOG_LEVELS_MAP.get` gives the level's index in `LOG_LEVELS`, or nothing for an unknown letter |
| Rendering.TAGTYPES | pidcat.py:36-43 | each of the six levels shown as its letter between two blanks |
| Rendering.LevelText | pidcat.py:36-43 | every level, known or not, is shown as its letter between two blanks |
| Rendering.Lookup | pidcat.py:661-677 | `dict.get(k, default)` |
| Rendering.LevelCellVisible | pidcat.py:659-681 | the level cell strips to its three characters, with or without colours |
| Rendering.Truncate | pidcat.py:631-632 | defines `name[:w - 3] + "..."` for a long name, with Python slicing; `TruncateFits` and `TruncateNarrowColumn` state its length |
| Rendering.TruncateFits | pidcat.py:631-632 | with w >= 3 a longer name keeps its first w-3 characters plus `...` and is exactly w long; a shorter one is kept |
| Rendering.TruncateNarrowColumn | pidcat.py:631-632 | for every w below 3 and every longer name, the slice bound counts from the end, so the cut name is `name[..|name| + w - 3]` plus `...` and is longer than the column |
| Rendering.PackageColumn | pidcat.py:631-633 | defines the package column: truncate, then `ljust`; `ColumnShape` states its width |
| Rendering.TagColumn | pidcat.py:646-648 | defines the tag column: truncate, then `rjust` beside a package column or `ljust` otherwise; `ColumnShape` states its width |
| Rendering.LEVEL_FOREGROUND | pidcat.py:661-668 | the level foregrounds: WHITE for V, BLACK for the others; unknown levels fall back to WHITE in `LevelCell` |
| Rendering.LEVEL_BACKGROUND | pidcat.py:670-677 | the level backgrounds: BLACK, BLUE, GREEN, YELLOW, RED, RED; unknown levels fall back to BLACK in `LevelCell` |
| Rendering.LevelCell | pidcat.py:659-681 | defines the level cell: `TAGTYPES` text, coloured by the two level tables when colours are on; `LevelCellVisible` states what remains without escapes |
| Rendering.BannerHeader | pidcat.py:562-566 | defines the banner header: package part, `tag_width` without a separator blank, and 4; it is one less than a line header when `tag_width > 0` |
| Rendering.CreatedText | pidcat.py:571 | defines `" Process %s created for %s\n" % (linePackage, target)` |
| Rendering.StartBanner | pidcat.py:568-577 | defines the start banner; `LineProcessor.BuildStartBanner` and `LineProcessor.StepRecordsStart` state when and how it is written |
| Rendering.EndedText | pidcat.py:597-598 | defines `" Process %s (PID: %s) ended" % (deadPname, deadPid)` and the newline appended after it; `EndedTextPlain` states it holds no ESC when its parts hold none |
| Rendering.DeathBanner | pidcat.py:595-598 | defines the end banner; `DeathBannerVisible` states what it reads as without escapes |
| Rendering.ColumnShape | pidcat.py:631-648 | a column is exactly w wide: the truncated name, padded right (package, or a tag without package column) or left (a tag beside a package column) |
| Rendering.ColumnPlain | pidcat.py:631-648 | padding and the ellipsis add no ESC |
| Rendering.DeathBannerVisible | pidcat.py:590-598 | without colours the end banner reads as a newline, header-width blanks and `Process P (PID: N) ended` |
| LineProcessor.REGEX_SPECIALS | pidcat.py:194 | the fourteen characters that make a pattern a regular expression: `.`, `*`, `+`, `?`, the four brackets and braces, the two parentheses, the vertical bar, the backslash, `^` and `$` |
| LineProcessor.IsRegexSpecial | pidcat.py:194 | defines `c in REGEX_SPECIALS` |
| LineProcessor.HasRegexSpecial | pidcat.py:194 | defines `any(c in t for c in REGEX_SPECIALS)`: some character of the pattern is special |
| LineProcessor.PatternMatches | pidcat.py:192-200 | defines one stripped pattern against the tag: the `regexMatch` parameter when the pattern holds a special character, a substring test otherwise; `MatchPattern` follows it |
| LineProcessor.TagInTags | pidcat.py:189-202 | defines `TagInTagsRegex` on values: some pattern matches; `TagInTagsRegex` and the three lemmas below state its cases |
| LineProcessor.MatchPattern | pidcat.py:192-200 | one stripped pattern: a regex match when it has special characters, a substring test otherwise |
| LineProcessor.TagInTagsRegex | pidcat.py:189-202 | the loop returns true exactly when some pattern matches the tag |
| LineProcessor.BlankPatternMatchesEverything | pidcat.py:192-200 | a blank pattern is the empty substring and selects every tag |
| LineProcessor.PlainPatternMatches | pidcat.py:198-200 | a plain pattern selects every tag containing it |
| LineProcessor.NoPatternNoMatch | pidcat.py:202 | an empty pattern list selects nothing |
| LineProcessor.Header | pidcat.py:589-593 | defines the header of both banners from the options; see `Rendering.BannerHeader` |
| LineProcessor.HeaderBound | pidcat.py:627-684 | defines the largest `currentHeaderSize` a line can reach: the package part when `show_package`, the tag part when `tag_width > 0`, and 4; `LineColumns` states that every line header is at most this |
| LineProcessor.WideEnough | pidcat.py:705 | defines the width condition the model demands: -1, or wider than `HeaderBound`, so that the `IndentWrap` call always ends; the `LineProcessor.ProcessLogLine` line under "Left out" lists what it excludes |
| LineProcessor.StartPhase | pidcat.py:555-580 | defines lines 555-580 on values; `ApplyStart` equals it and `StepRecordsStart` states its effect |
| LineProcessor.DeathPhase | pidcat.py:582-601 | defines lines 582-601 on values; `ApplyDeath` equals it and `StepRecordsDeath` states its effect |
| LineProcessor.Events | pidcat.py:555-601 | defines both events in turn, start first; `EventsWriteBanners` and `EventPids` state their effect |
| LineProcessor.Shown | pidcat.py:604-614 | defines the four filters; `PassesFilters` equals it and `ShownNeedsWatchedOwner`, `ShownRespectsLevel` and `UnfilteredShowsAll` state what it lets through |
| LineProcessor.Backtrace | pidcat.py:617-621 | defines the native backtrace rule: a DEBUG message whose left-stripped form is a frame is left-stripped and attributed to `app_pid`; `ApplyBacktrace` follows it |
| LineProcessor.AcceptedStart | pidcat.py:549-557 | the start parsed from the raw line, kept only when its package passes the filter |
| LineProcessor.OwnerName | pidcat.py:628 | defines `pidsMap.get(owner, "UNKNOWN")` |
| LineProcessor.PackageText | pidcat.py:635-636 | defines the coloured package column followed by the two-blank separator |
| LineProcessor.PackageCell | pidcat.py:627-637 | the package column adds `packageWidth + 2` to the header exactly when shown for a non-empty owner |
| LineProcessor.TagText | pidcat.py:650-654 | defines the coloured tag column followed by the one-blank separator |
| LineProcessor.TagCell | pidcat.py:641-655 | the tag column adds `tagWidth + 1` exactly when the tag width is positive |
| LineProcessor.LineColumns | pidcat.py:623-684 | header size = package part + tag part + 4, never above the widest header |
| LineProcessor.ShownNeedsWatchedOwner | pidcat.py:604-605 | without `all`, a shown line's owner is in the pid map |
| LineProcessor.ShownRespectsLevel | pidcat.py:607-608 | a shown line of a known level is at or above the minimum level |
| LineProcessor.UnfilteredShowsAll | pidcat.py:604-614 | with `all`, minimum level 0 and no tag filters, every parsed line is shown |
| LineProcessor.RenderLine | pidcat.py:617-711 | defines the rendering of a shown line; `StepShownLine` and `FinishShown` state its effect |
| LineProcessor.Finish | pidcat.py:604-711 | defines filtering then rendering; `FinishShown`, `FinishHidden` and `FinishLine` state it |
| LineProcessor.Step | pidcat.py:539-711 | defines `ProcessLogLine` on values; `ProcessLogLine` equals it, and the `Step...` lemmas state its effect |
| LineProcessor.StepRecordsStart | pidcat.py:555-711 | a followed start sets `pidsMap[pid] = package` and writes the start banner first; `app_pid` takes the pid only if the line is shown |
| LineProcessor.StepRecordsDeath | pidcat.py:582-601 | a followed death removes its pid, which was in the map, and writes the end banner first |
| LineProcessor.EventPids | pidcat.py:555-601 | the pid map after the events depends only on the line and the map |
| LineProcessor.StepPidsIgnoreDisplay | pidcat.py:555-711 | the pid map edits persist whatever the filters, display options, colour table and remembered values |
| LineProcessor.StepDroppedLine | pidcat.py:604-711 | a dropped line leaves `last_tag`, `app_pid` and the colour table unchanged and writes only its banners |
| LineProcessor.StepShownLine | pidcat.py:623-711 | a shown line is written after its banners; with a tag column its tag becomes `last_tag`; `app_pid` is the events' |
| LineProcessor.EventsWriteBanners | pidcat.py:555-601 | each accepted event writes one banner, and only events write |
| LineProcessor.LineColumnsKeepRecencyList | pidcat.py:627-655 | rendering the columns keeps `LAST_USED` a permutation |
| LineProcessor.StepKeepsRecencyList | pidcat.py:511-711 | no line breaks the recency list |
| LineProcessor.ColoredColumnVisible | pidcat.py:635-654 | a coloured column and its separator strip to the column and separator |
| LineProcessor.PackageCellVisible | pidcat.py:627-637 | the package cell strips to the padded name and two blanks, or to nothing |
| LineProcessor.TagCellVisible | pidcat.py:641-655 | the tag cell strips to the tag column or to blanks of the same width |
| LineProcessor.LevelCellThen | pidcat.py:659-683 | the level cell and its blank strip to four characters |
| LineProcessor.ColumnsVisible | pidcat.py:623-684 | the stripped column text is the package column, the tag column (or blanks) and the level cell |
| LineProcessor.VisibleWidths | pidcat.py:631-655 | each visible column is as wide as the header space counted for it |
| LineProcessor.ColumnsMatchHeader | pidcat.py:623-705 | for column widths of at least 3 and a tag and package name without ESC, the columns are as wide on screen as the header the message is wrapped under |
| LineProcessor.RepeatedTagBlank | pidcat.py:641-652 | a repeated tag is blanked and takes no colour; `always_tags` shows it again and allocates its colour |
| LineProcessor.Emitted | pidcat.py:531-537 | defines what `WriteOutput` prints for a text: `NO_COLOR.sub` of it unless colours are on, then the newline of `print` |
| LineProcessor.EmittedAll | pidcat.py:531-537 | one emitted form per text |
| LineProcessor.EmittedAllAppend | pidcat.py:531-537 | writing one more text appends its emitted form |
| LineProcessor.EmittedAllConcat | pidcat.py:531-537 | writing two batches emits the concatenation |
| LineProcessor.Sinks.constructor | pidcat.py:531-537 | nothing written yet |
| LineProcessor.Sinks.WriteOutput | pidcat.py:531-537 | the console gets the line coloured or stripped by `show_colors`; the file, when open, always gets it stripped; each ends with a newline |
| LineProcessor.ReceivedMore | pidcat.py:531-537 | writes compose across steps |
| LineProcessor.ReceivedNothing | pidcat.py:531-537 | untouched sinks received nothing |
| LineProcessor.ReceivedOne | pidcat.py:531-537 | one `WriteOutput` delivers one text |
| LineProcessor.LogState.constructor | pidcat.py:786-793 | the given pid map, no last tag or app pid, and the given level and package lists |
| LineProcessor.BuildStartBanner | pidcat.py:562-578 | white bar, the wrapped `Process P created for T`, second bar and ids |
| LineProcessor.ApplyStart | pidcat.py:555-580 | the in-place start handling equals `StartPhase` and delivers its banner |
| LineProcessor.RecordStart | pidcat.py:558-580 | records `pid -> package`, sets `app_pid`, resets `last_tag`, writes the banner |
| LineProcessor.ApplyDeath | pidcat.py:582-601 | the in-place death handling equals `DeathPhase` and delivers its banner |
| LineProcessor.RecordDeath | pidcat.py:585-601 | drops the pid, resets `last_tag`, writes the end banner |
| LineProcessor.ApplyEvents | pidcat.py:555-601 | both events in place, equal to `Events` |
| LineProcessor.PassesFilters | pidcat.py:604-614 | the four early returns pass the line exactly when `Shown` holds |
| LineProcessor.ApplyBacktrace | pidcat.py:617-621 | a DEBUG backtrace frame is left-stripped and attributed to `app_pid` |
| LineProcessor.AppendPackage | pidcat.py:627-637 | builds the package cell in place, allocating its colour |
| LineProcessor.AppendTag | pidcat.py:641-655 | builds the tag cell in place and updates `last_tag` |
| LineProcessor.AppendLevel | pidcat.py:659-684 | appends the level cell and its blank and adds 4 to the header |
| LineProcessor.AppendColumns | pidcat.py:623-684 | the three cells in place, equal to `LineColumns` |
| LineProcessor.EmitLine | pidcat.py:623-706 | the columns, then the decorated message wrapped under them, written once |
| LineProcessor.RenderShown | pidcat.py:623-711 | a shown line is written and `last_tag`/`app_pid` are stored |
| LineProcessor.StepIgnoresNoise | pidcat.py:539-545 | native-tags lines and lines that are not log lines change nothing and print nothing |
| LineProcessor.StepOfRecord | pidcat.py:543-711 | a parsed line runs the events, then the filters and rendering |
| LineProcessor.FinishShown | pidcat.py:604-711 | a line passing the filters appends its rendered text and stores the new `last_tag` and `app_pid` |
| LineProcessor.FinishHidden | pidcat.py:604-614 | a filtered line keeps only the events' effects |
| LineProcessor.FinishLine | pidcat.py:604-711 | filters and rendering in place, equal to `Finish` |
| LineProcessor.ProcessRecord | pidcat.py:547-711 | a parsed line in place, equal to `Finish` after `Events` |
| LineProcessor.ProcessLogLine | pidcat.py:511-711 | state, colour allocator and both sinks end exactly as `Step` says, and the allocator's invariant is kept |

## Left out

- Python's `\d`, `\s` and `\w` also accept non-ASCII digits and letters. `\d` is modelled as ASCII digits and `\s` as `str.isspace`'s character set.
- The regex branch of `TagInTagsRegex` (pidcat.py:194-196) is the `regexMatch` parameter of `Externals`. Only the substring branch is modelled. `regexMatch` is a total boolean, so the error path is not modelled: an invalid `--tag` or `--ignored-tag` pattern makes `re.match` raise at pidcat.py:195, and the read loop catches the exception (pidcat.py:826-827), reports it and ends the run.
- The StrictMode and GC message rules (pidcat.py:688-703) are the `decorate` parameter of `Externals`. They are `re.sub` calls with backreferences.
- `print` and file writes are appends to the `console` and `file` sequences of `Sinks`.
- The adb and subprocess plumbing is not modelled: `GetAdbCommand`, `GetCurrentAppPackage`, `GetInitialPidsMap` with `PID_LINE`, and the read loop of `main`. The initial pid map is a constructor parameter of `LogState`.
- `EnableVt100`, `ConfigureConsole` and `GetConsoleWidth` are not modelled. The console width and `show_colors` are fields of `ColorConfig`.
- `CreateArgParser` and the comma splitting of tags (pidcat.py:719-725) are not modelled. `Args` is the options record after parsing.
- Widths are naturals. Negative `--package-width` or `--tag-width` values are not modelled.
- LineProcessor.ProcessLogLine: requires the console width to be -1 or wider than the widest header (`WideEnough`), and so do `Step`, `Finish`, `Events`, `StartPhase` and the lemmas about them. On a console no wider than that bound (`HeaderBound`) the source still finishes a line unless it calls `IndentWrap` with a non-empty message and a header at least as wide as the console. The model leaves out these lines on such a console:
  - native-tags lines and lines that are not log lines (pidcat.py:539-545);
  - parsed lines without an accepted event that a filter drops (pidcat.py:604-614);
  - lines whose own header is narrower than the console: lines without a package column, such as a DEBUG frame attributed to a `None` `app_pid` (pidcat.py:617-627), and banners, whose header is one less than a line header when `tag_width > 0` (pidcat.py:562-566);
  - lines with an empty message.
- Wrap.IndentWrap: requires `width == -1`, `width - headerSize > 0` or an empty message. Outside those cases the source loops forever (`Wrap.NoWrapAreaNeverEnds`).
- LineProcessor.ColumnsMatchHeader: proved only for column widths of at least 3 and for a tag and package name without ESC. Below width 3, truncation makes a column wider than its header share (`Rendering.TruncateNarrowColumn`). An ESC sequence inside a tag or package name is removed when the line is written, so that column really is narrower on screen than the header counts, and the continuation lines no longer start under the message.
- StartEvents.ParseStart51Line and StartEvents.ParseStartFullLine: the round trips assume the line's only (or last) `: Start proc ` marker is the one behind the prefix. With a later marker, the greedy `^.*` reads from that one instead (`StartEvents.MarkerSearchFinds`).
- ColorAllocation.ColorAllocator.AllocateColor: requires only a non-empty `LAST_USED` (`Ready`). That `LAST_USED` stays a permutation of the six colours is proved on values (`ColorAllocation.AllocateKeepsRecencyList`, `LineProcessor.StepKeepsRecencyList`), and `ProcessLogLine` carries it as `Valid`.
