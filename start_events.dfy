/**
 * Process-start recognition: the three start patterns of pidcat.py:59-67,
 * tried in order on the raw line by `ParseStartProc` (pidcat.py:349-372).
 */
module StartEvents {
  import opened Wrappers
  import opened Text
  import opened Scan

  /** The `(package, target, pid, uid, gids)` tuple `ParseStartProc` returns. */
  datatype StartEvent = StartEvent(package: string, target: string, pid: string, uid: string, gids: string)

  /** The start patterns, in the order they are tried. */
  datatype StartForm = Start51 | StartFull | StartDalvik

  const START_FORMS: seq<StartForm> := [Start51, StartFull, StartDalvik]

  const START_PROC := ": Start proc "

  /** The pid and package every start pattern captures: digits, and `[a-zA-Z0-9._:]+`. */
  predicate WellFormedStart(e: StartEvent) {
    |e.pid| > 0 && AllIn(e.pid, Digit) && |e.package| > 0 && AllIn(e.package, PackageChar)
  }

  /** `(\d+):([a-zA-Z0-9._:]+)/[a-z0-9]+ for (.*)$`, the part of `PID_START_5_1` behind the marker. */
  function Start51Tail(t: string): (r: Option<StartEvent>)
    ensures r.Some? ==> WellFormedStart(r.value) && r.value.uid == "" && r.value.gids == ""
  {
    var (pid, t1) := Span(t, Digit);
    if |pid| > 0 && StartsWith(t1, ":") then Start51Package(pid, t1[1..]) else None
  }

  /** `([a-zA-Z0-9._:]+)/`, then the user and target. */
  function Start51Package(pid: string, t: string): (r: Option<StartEvent>)
    requires |pid| > 0 && AllIn(pid, Digit)
    ensures r.Some? ==> WellFormedStart(r.value) && r.value.pid == pid && r.value.uid == "" && r.value.gids == ""
  {
    var (pkg, t2) := Span(t, PackageChar);
    if |pkg| > 0 && StartsWith(t2, "/") then Start51User(pid, pkg, t2[1..]) else None
  }

  /** `[a-z0-9]+ for (.*)$` */
  function Start51User(pid: string, pkg: string, t: string): (r: Option<StartEvent>)
    requires |pid| > 0 && AllIn(pid, Digit) && |pkg| > 0 && AllIn(pkg, PackageChar)
    ensures r.Some? ==> r.value.package == pkg && r.value.pid == pid && r.value.uid == "" && r.value.gids == ""
  {
    var (user, t3) := Span(t, LowerAlnum);
    if |user| > 0 && StartsWith(t3, " for ") then
      match LineRest(t3[5..])
      case Some(target) => Some(StartEvent(pkg, target, pid, "", ""))
      case None => None
    else None
  }

  /**
   * `([a-zA-Z0-9._:]+) for ([a-z]+ [^:]+): pid=(\d+) uid=(\d+) gids=(.*)$`,
   * the part of `PID_START` behind the marker, read in three stages.
   */
  function StartFullTail(t: string): (r: Option<StartEvent>)
    ensures r.Some? ==> WellFormedStart(r.value)
    ensures r.Some? ==> |r.value.uid| > 0 && AllIn(r.value.uid, Digit)
  {
    var (pkg, t1) := Span(t, PackageChar);
    if |pkg| > 0 && StartsWith(t1, " for ") then FullTarget(pkg, t1[5..]) else None
  }

  /** `([a-z]+ [^:]+): pid=`, then the ids. */
  function FullTarget(pkg: string, t: string): (r: Option<StartEvent>)
    requires |pkg| > 0 && AllIn(pkg, PackageChar)
    ensures r.Some? ==> WellFormedStart(r.value) && r.value.package == pkg
    ensures r.Some? ==> |r.value.uid| > 0 && AllIn(r.value.uid, Digit)
  {
    var (kind, t2) := Span(t, Lower);
    if |kind| > 0 && StartsWith(t2, " ") then FullWhat(pkg, kind, t2[1..]) else None
  }

  /** `[^:]+): pid=`, the rest of the target, then the ids. */
  function FullWhat(pkg: string, kind: string, t: string): (r: Option<StartEvent>)
    requires |pkg| > 0 && AllIn(pkg, PackageChar)
    ensures r.Some? ==> WellFormedStart(r.value) && r.value.package == pkg
    ensures r.Some? ==> |r.value.uid| > 0 && AllIn(r.value.uid, Digit)
  {
    var (what, t3) := Span(t, NotColon);
    if |what| > 0 && StartsWith(t3, ": pid=") then FullIds(pkg, kind + " " + what, t3[6..]) else None
  }

  /** `(\d+) uid=(\d+) gids=(.*)$` */
  function FullIds(pkg: string, target: string, t: string): (r: Option<StartEvent>)
    requires |pkg| > 0 && AllIn(pkg, PackageChar)
    ensures r.Some? ==> WellFormedStart(r.value) && r.value.package == pkg && r.value.target == target
    ensures r.Some? ==> |r.value.uid| > 0 && AllIn(r.value.uid, Digit)
  {
    var (pid, t4) := Span(t, Digit);
    if |pid| > 0 && StartsWith(t4, " uid=") then FullUid(pkg, target, pid, t4[5..]) else None
  }

  /** `(\d+) gids=(.*)$` */
  function FullUid(pkg: string, target: string, pid: string, t: string): (r: Option<StartEvent>)
    requires |pkg| > 0 && AllIn(pkg, PackageChar) && |pid| > 0 && AllIn(pid, Digit)
    ensures r.Some? ==> WellFormedStart(r.value) && r.value.package == pkg && r.value.target == target && r.value.pid == pid
    ensures r.Some? ==> |r.value.uid| > 0 && AllIn(r.value.uid, Digit)
  {
    var (uid, t5) := Span(t, Digit);
    if |uid| > 0 && StartsWith(t5, " gids=") then
      match LineRest(t5[6..])
      case Some(gids) => Some(StartEvent(pkg, target, pid, uid, gids))
      case None => None
    else None
  }

  function MarkerTail(t: string, form: StartForm): Option<StartEvent>
    requires form != StartDalvik
  {
    if form == Start51 then Start51Tail(t) else StartFullTail(t)
  }

  /**
   * The greedy `^.*` in front of `: Start proc `: the LAST position below `n`
   * where the marker occurs and the rest of the pattern matches. The search
   * starts at the end of the first line, since `.` does not cross a newline.
   */
  function MarkerSearch(s: string, n: nat, form: StartForm): (r: Option<StartEvent>)
    requires form != StartDalvik
    ensures r.Some? ==> WellFormedStart(r.value)
    ensures r.Some? && form == Start51 ==> r.value.uid == "" && r.value.gids == ""
  {
    if n == 0 then None
    else
      var p := n - 1;
      if OccursAt(s, START_PROC, p) && MarkerTail(s[p + |START_PROC|..], form).Some? then
        MarkerTail(s[p + |START_PROC|..], form)
      else MarkerSearch(s, p, form)
  }

  /** `PID_START_DALVIK`: `E/dalvikvm(\s*(\d+)): >>>>> ([a-zA-Z0-9._:]+) [ userId:0 | appId:(\d+) ]$`. */
  function MatchDalvik(line: string): (r: Option<StartEvent>)
    ensures r.Some? ==> WellFormedStart(r.value) && r.value.target == "" && r.value.gids == ""
    ensures r.Some? ==> |r.value.uid| > 0 && AllIn(r.value.uid, Digit)
  {
    if StartsWith(line, "E/dalvikvm(") then
      var (ws, t1) := Span(line[11..], Whitespace);
      var (pid, t2) := Span(t1, Digit);
      if |pid| > 0 && StartsWith(t2, "): >>>>> ") then DalvikPackage(pid, t2[9..]) else None
    else None
  }

  /** `([a-zA-Z0-9._:]+) [ userId:0 | appId:(\d+) ]$` */
  function DalvikPackage(pid: string, t: string): (r: Option<StartEvent>)
    requires |pid| > 0 && AllIn(pid, Digit)
    ensures r.Some? ==> WellFormedStart(r.value) && r.value.pid == pid && r.value.target == "" && r.value.gids == ""
    ensures r.Some? ==> |r.value.uid| > 0 && AllIn(r.value.uid, Digit)
  {
    var (pkg, t3) := Span(t, PackageChar);
    if |pkg| > 0 && StartsWith(t3, " [ userId:0 | appId:") then
      var (uid, t4) := Span(t3[20..], Digit);
      if |uid| > 0 && (t4 == " ]" || t4 == " ]\n") then Some(StartEvent(pkg, "", pid, uid, ""))
      else None
    else None
  }

  /** `regex.match(line)` for one start pattern. */
  function MatchStart(line: string, form: StartForm): Option<StartEvent> {
    if form == StartDalvik then MatchDalvik(line)
    else MarkerSearch(line, FirstLineEnd(line) + 1, form)
  }

  /** The loop of `ParseStartProc` over the remaining patterns: the first one that matches wins. */
  function FirstStart(line: string, forms: seq<StartForm>): (r: Option<StartEvent>)
    ensures r.Some? ==> exists i :: 0 <= i < |forms| && MatchStart(line, forms[i]) == r
                          && forall j :: 0 <= j < i ==> MatchStart(line, forms[j]).None?
    ensures r.None? ==> forall i :: 0 <= i < |forms| ==> MatchStart(line, forms[i]).None?
  {
    if |forms| == 0 then None
    else
      match MatchStart(line, forms[0])
      case Some(e) => Some(e)
      case None =>
        var r := FirstStart(line, forms[1..]);
        assert forall i :: 1 <= i < |forms| ==> forms[i] == forms[1..][i - 1];
        r
  }

  /** `ParseStartProc(line)` */
  function ParseStartProc(line: string): (r: Option<StartEvent>)
    ensures r.Some? ==> WellFormedStart(r.value)
  {
    var r := FirstStart(line, START_FORMS);
    assert r.Some? ==> exists i :: 0 <= i < 3 && MatchStart(line, START_FORMS[i]) == r;
    r
  }

  // ---- The three line shapes ----

  /** A 5.1-style start line: `...: Start proc PID:PACKAGE/USER for TARGET`. */
  function Start51Line(prefix: string, pid: string, pkg: string, user: string, target: string): string {
    prefix + START_PROC + Start51Text(pid, pkg, user, target)
  }

  function Start51Text(pid: string, pkg: string, user: string, target: string): string {
    pid + ":" + pkg + "/" + user + " for " + target
  }

  /** An older start line: `...: Start proc PACKAGE for KIND WHAT: pid=PID uid=UID gids=GIDS`. */
  function StartFullLine(prefix: string, pkg: string, kind: string, what: string, pid: string, uid: string, gids: string): string {
    prefix + START_PROC + StartFullText(pkg, kind, what, pid, uid, gids)
  }

  function StartFullText(pkg: string, kind: string, what: string, pid: string, uid: string, gids: string): string {
    pkg + " for " + FullTargetText(kind, what, pid, uid, gids)
  }

  function FullTargetText(kind: string, what: string, pid: string, uid: string, gids: string): string {
    kind + " " + what + ": pid=" + FullIdsText(pid, uid, gids)
  }

  function FullIdsText(pid: string, uid: string, gids: string): string {
    pid + " uid=" + uid + " gids=" + gids
  }

  /** A Dalvik start line: `E/dalvikvm(  PID): >>>>> PACKAGE [ userId:0 | appId:UID ]`. */
  function DalvikLine(ws: string, pid: string, pkg: string, uid: string): string {
    DalvikText(ws, pid, pkg, uid, " ]")
  }

  function DalvikText(ws: string, pid: string, pkg: string, uid: string, end: string): string {
    "E/dalvikvm(" + ws + pid + "): >>>>> " + DalvikPackageText(pkg, uid, end)
  }

  function DalvikPackageText(pkg: string, uid: string, end: string): string {
    pkg + " [ userId:0 | appId:" + uid + end
  }

  lemma Start51UserOf(pid: string, pkg: string, user: string, rest: string)
    requires |pid| > 0 && AllIn(pid, Digit)
    requires |pkg| > 0 && AllIn(pkg, PackageChar)
    requires |user| > 0 && AllIn(user, LowerAlnum)
    requires LineRest(rest).Some?
    ensures Start51User(pid, pkg, user + " for " + rest) == Some(StartEvent(pkg, LineRest(rest).value, pid, "", ""))
  {
    assert user + " for " + rest == user + (" for " + rest);
    SpanOf(user, " for " + rest, LowerAlnum);
    assert (" for " + rest)[5..] == rest;
  }

  lemma Start51PackageOf(pid: string, pkg: string, t: string)
    requires |pid| > 0 && AllIn(pid, Digit)
    requires |pkg| > 0 && AllIn(pkg, PackageChar)
    ensures Start51Package(pid, pkg + "/" + t) == Start51User(pid, pkg, t)
  {
    SpanOf(pkg, "/" + t, PackageChar);
    assert pkg + "/" + t == pkg + ("/" + t);
    assert ("/" + t)[1..] == t;
  }

  lemma Start51TailOf(pid: string, pkg: string, user: string, rest: string)
    requires |pid| > 0 && AllIn(pid, Digit)
    requires |pkg| > 0 && AllIn(pkg, PackageChar)
    requires |user| > 0 && AllIn(user, LowerAlnum)
    requires LineRest(rest).Some?
    ensures Start51Tail(Start51Text(pid, pkg, user, rest)) == Some(StartEvent(pkg, LineRest(rest).value, pid, "", ""))
  {
    var t := pkg + "/" + (user + " for " + rest);
    var t1 := ":" + t;
    assert Start51Text(pid, pkg, user, rest) == pid + t1;
    SpanOf(pid, t1, Digit);
    assert t1[1..] == t;
    Start51PackageOf(pid, pkg, user + " for " + rest);
    Start51UserOf(pid, pkg, user, rest);
  }

  lemma FullIdsOf(pkg: string, target: string, pid: string, uid: string, rest: string)
    requires |pkg| > 0 && AllIn(pkg, PackageChar)
    requires |pid| > 0 && AllIn(pid, Digit)
    requires |uid| > 0 && AllIn(uid, Digit)
    requires LineRest(rest).Some?
    ensures FullIds(pkg, target, FullIdsText(pid, uid, rest)) == Some(StartEvent(pkg, target, pid, uid, LineRest(rest).value))
  {
    var t5 := " gids=" + rest;
    var t4 := " uid=" + (uid + t5);
    assert FullIdsText(pid, uid, rest) == pid + t4;
    SpanOf(pid, t4, Digit);
    assert t4[5..] == uid + t5;
    assert uid + t5 == uid + " gids=" + rest;
    FullUidOf(pkg, target, pid, uid, rest);
  }

  lemma FullUidOf(pkg: string, target: string, pid: string, uid: string, rest: string)
    requires |pkg| > 0 && AllIn(pkg, PackageChar)
    requires |pid| > 0 && AllIn(pid, Digit)
    requires |uid| > 0 && AllIn(uid, Digit)
    requires LineRest(rest).Some?
    ensures FullUid(pkg, target, pid, uid + " gids=" + rest) == Some(StartEvent(pkg, target, pid, uid, LineRest(rest).value))
  {
    var t5 := " gids=" + rest;
    assert uid + " gids=" + rest == uid + t5;
    SpanOf(uid, t5, Digit);
    assert t5[6..] == rest;
  }

  lemma FullTargetOf(pkg: string, kind: string, what: string, pid: string, uid: string, rest: string)
    requires |pkg| > 0 && AllIn(pkg, PackageChar)
    requires |kind| > 0 && AllIn(kind, Lower)
    requires |what| > 0 && AllIn(what, NotColon)
    ensures FullTarget(pkg, FullTargetText(kind, what, pid, uid, rest)) == FullIds(pkg, kind + " " + what, FullIdsText(pid, uid, rest))
  {
    var ids := FullIdsText(pid, uid, rest);
    var t3 := what + ": pid=" + ids;
    var t2 := " " + t3;
    assert FullTargetText(kind, what, pid, uid, rest) == kind + t2;
    SpanOf(kind, t2, Lower);
    assert t2[1..] == t3;
    FullWhatOf(pkg, kind, what, ids);
  }

  lemma FullWhatOf(pkg: string, kind: string, what: string, ids: string)
    requires |pkg| > 0 && AllIn(pkg, PackageChar)
    requires |what| > 0 && AllIn(what, NotColon)
    ensures FullWhat(pkg, kind, what + ": pid=" + ids) == FullIds(pkg, kind + " " + what, ids)
  {
    var t3 := ": pid=" + ids;
    assert what + ": pid=" + ids == what + t3;
    SpanOf(what, t3, NotColon);
    assert t3[6..] == ids;
  }

  lemma StartFullTailStep(pkg: string, rest: string)
    requires |pkg| > 0 && AllIn(pkg, PackageChar)
    ensures StartFullTail(pkg + " for " + rest) == FullTarget(pkg, rest)
  {
    var t1 := " for " + rest;
    assert pkg + " for " + rest == pkg + t1;
    SpanOf(pkg, t1, PackageChar);
    assert t1[5..] == rest;
  }

  lemma StartFullTailOf(pkg: string, kind: string, what: string, pid: string, uid: string, rest: string)
    requires |pkg| > 0 && AllIn(pkg, PackageChar)
    requires |kind| > 0 && AllIn(kind, Lower)
    requires |what| > 0 && AllIn(what, NotColon)
    requires |pid| > 0 && AllIn(pid, Digit)
    requires |uid| > 0 && AllIn(uid, Digit)
    requires LineRest(rest).Some?
    ensures StartFullTail(StartFullText(pkg, kind, what, pid, uid, rest))
            == Some(StartEvent(pkg, kind + " " + what, pid, uid, LineRest(rest).value))
  {
    StartFullTailStep(pkg, FullTargetText(kind, what, pid, uid, rest));
    FullTargetOf(pkg, kind, what, pid, uid, rest);
    FullIdsOf(pkg, kind + " " + what, pid, uid, rest);
  }

  lemma DalvikPackageOf(pid: string, pkg: string, uid: string, end: string)
    requires |pid| > 0 && AllIn(pid, Digit)
    requires |pkg| > 0 && AllIn(pkg, PackageChar)
    requires |uid| > 0 && AllIn(uid, Digit)
    requires end == " ]" || end == " ]\n"
    ensures DalvikPackage(pid, DalvikPackageText(pkg, uid, end)) == Some(StartEvent(pkg, "", pid, uid, ""))
  {
    var t3 := " [ userId:0 | appId:" + uid + end;
    assert DalvikPackageText(pkg, uid, end) == pkg + t3;
    SpanOf(pkg, t3, PackageChar);
    assert t3[20..] == uid + end;
    SpanOf(uid, end, Digit);
  }

  lemma DalvikTextOf(ws: string, pid: string, pkg: string, uid: string, end: string)
    requires AllIn(ws, Whitespace)
    requires |pid| > 0 && AllIn(pid, Digit)
    requires |pkg| > 0 && AllIn(pkg, PackageChar)
    requires |uid| > 0 && AllIn(uid, Digit)
    requires end == " ]" || end == " ]\n"
    ensures MatchDalvik(DalvikText(ws, pid, pkg, uid, end)) == Some(StartEvent(pkg, "", pid, uid, ""))
  {
    var rest := DalvikPackageText(pkg, uid, end);
    var t2 := "): >>>>> " + rest;
    var t1 := pid + t2;
    var line := DalvikText(ws, pid, pkg, uid, end);
    assert line == "E/dalvikvm(" + (ws + t1);
    assert line[11..] == ws + t1;
    SpanOf(ws, t1, Whitespace);
    SpanOf(pid, t2, Digit);
    assert t2[9..] == rest;
    DalvikPackageOf(pid, pkg, uid, end);
  }

  /** Round trip: a Dalvik start line, with or without a final newline, is read back. */
  lemma DalvikLineOf(ws: string, pid: string, pkg: string, uid: string)
    requires AllIn(ws, Whitespace)
    requires |pid| > 0 && AllIn(pid, Digit)
    requires |pkg| > 0 && AllIn(pkg, PackageChar)
    requires |uid| > 0 && AllIn(uid, Digit)
    ensures MatchDalvik(DalvikLine(ws, pid, pkg, uid)) == Some(StartEvent(pkg, "", pid, uid, ""))
    ensures MatchDalvik(DalvikLine(ws, pid, pkg, uid) + "\n") == Some(StartEvent(pkg, "", pid, uid, ""))
  {
    DalvikTextOf(ws, pid, pkg, uid, " ]");
    DalvikTextOf(ws, pid, pkg, uid, " ]\n");
    assert DalvikLine(ws, pid, pkg, uid) + "\n" == DalvikText(ws, pid, pkg, uid, " ]\n");
  }

  // ---- The greedy search and the dispatch ----

  /** The search returns the tail at the last position where the marker occurs and the tail matches. */
  lemma {:induction false} MarkerSearchFinds(s: string, n: nat, p: nat, form: StartForm)
    requires form != StartDalvik
    requires p < n && OccursAt(s, START_PROC, p) && MarkerTail(s[p + |START_PROC|..], form).Some?
    requires forall q :: p < q < n ==> !OccursAt(s, START_PROC, q)
    ensures MarkerSearch(s, n, form) == MarkerTail(s[p + |START_PROC|..], form)
    decreases n
  {
    if n - 1 != p {
      MarkerSearchFinds(s, n - 1, p, form);
    }
  }

  /** Where the tail fails at every marker position, the pattern does not match. */
  lemma {:induction false} MarkerSearchMisses(s: string, n: nat, form: StartForm)
    requires form != StartDalvik
    requires forall q :: 0 <= q < n && OccursAt(s, START_PROC, q) ==> MarkerTail(s[q + |START_PROC|..], form).None?
    ensures MarkerSearch(s, n, form).None?
    decreases n
  {
    if n > 0 {
      MarkerSearchMisses(s, n - 1, form);
    }
  }

  /** The marker sits right after the prefix, and the tail follows it. */
  lemma MarkerAfterPrefix(prefix: string, text: string)
    ensures OccursAt(prefix + START_PROC + text, START_PROC, |prefix|)
    ensures (prefix + START_PROC + text)[|prefix| + |START_PROC|..] == text
  {
    var s := prefix + START_PROC + text;
    assert s[|prefix|..|prefix| + |START_PROC|] == START_PROC;
  }

  /** A 5.1-style tail needs a `/` behind the leading run of package characters. */
  lemma Start51TailPackageRun(t: string)
    requires Start51Tail(t).Some?
    ensures StartsWith(Span(t, PackageChar).1, "/")
  {
    var (pid, t1) := Span(t, Digit);
    assert Start51Package(pid, t1[1..]).Some?;
    var (pkg, t2) := Span(t1[1..], PackageChar);
    var head := pid + ":" + pkg;
    assert t1 == ":" + t1[1..];
    assert t == head + t2;
    assert AllIn(head, PackageChar);
    SpanOf(head, t2, PackageChar);
  }

  /** An older-style tail (package then ` for `) is never a 5.1-style tail. */
  lemma Start51RejectsFull(pkg: string, rest: string)
    requires |pkg| > 0 && AllIn(pkg, PackageChar)
    ensures Start51Tail(pkg + " for " + rest).None?
  {
    var t := pkg + " for " + rest;
    assert t == pkg + (" for " + rest);
    SpanOf(pkg, " for " + rest, PackageChar);
    if Start51Tail(t).Some? {
      Start51TailPackageRun(t);
      assert false;
    }
  }

  /**
   * Round trip through `ParseStartProc` for a 5.1-style line: the first
   * pattern wins, and with no later marker on the line it reads back the
   * parts, with empty uid and gids.
   */
  lemma ParseStart51Line(prefix: string, pid: string, pkg: string, user: string, target: string)
    requires '\n' !in prefix && '\n' !in target
    requires |pid| > 0 && AllIn(pid, Digit)
    requires |pkg| > 0 && AllIn(pkg, PackageChar)
    requires |user| > 0 && AllIn(user, LowerAlnum)
    requires forall q :: |prefix| < q ==> !OccursAt(Start51Line(prefix, pid, pkg, user, target), START_PROC, q)
    ensures ParseStartProc(Start51Line(prefix, pid, pkg, user, target)) == Some(StartEvent(pkg, target, pid, "", ""))
  {
    var line := Start51Line(prefix, pid, pkg, user, target);
    Start51LineMatches(prefix, pid, pkg, user, target);
    ParseStartFirstForm(line);
  }

  /** The 5.1 pattern reads the parts back from a 5.1-style line with no later marker. */
  lemma Start51LineMatches(prefix: string, pid: string, pkg: string, user: string, target: string)
    requires '\n' !in prefix && '\n' !in target
    requires |pid| > 0 && AllIn(pid, Digit)
    requires |pkg| > 0 && AllIn(pkg, PackageChar)
    requires |user| > 0 && AllIn(user, LowerAlnum)
    requires forall q :: |prefix| < q ==> !OccursAt(Start51Line(prefix, pid, pkg, user, target), START_PROC, q)
    ensures MatchStart(Start51Line(prefix, pid, pkg, user, target), Start51) == Some(StartEvent(pkg, target, pid, "", ""))
  {
    var text := Start51Text(pid, pkg, user, target);
    var line := Start51Line(prefix, pid, pkg, user, target);
    FirstLineCovers(prefix, START_PROC + text);
    assert prefix + (START_PROC + text) == line;
    MarkerAfterPrefix(prefix, text);
    Start51TailOf(pid, pkg, user, target);
    MarkerSearchFinds(line, FirstLineEnd(line) + 1, |prefix|, Start51);
  }

  /** When the 5.1 pattern matches, `ParseStartProc` returns its result. */
  lemma ParseStartFirstForm(line: string)
    requires MatchStart(line, Start51).Some?
    ensures ParseStartProc(line) == MatchStart(line, Start51)
  {
    assert START_FORMS[0] == Start51;
  }

  /** When only the second pattern matches, `ParseStartProc` returns its result. */
  lemma ParseStartSecondForm(line: string)
    requires MatchStart(line, Start51).None? && MatchStart(line, StartFull).Some?
    ensures ParseStartProc(line) == MatchStart(line, StartFull)
  {
    assert START_FORMS[0] == Start51;
    assert START_FORMS[1..][0] == StartFull;
  }

  /** The 5.1 pattern fails on an older-style line whose only marker is the one behind the prefix. */
  lemma StartFullLineRejects51(prefix: string, pkg: string, kind: string, what: string, pid: string, uid: string, gids: string)
    requires '\n' !in prefix
    requires |pkg| > 0 && AllIn(pkg, PackageChar)
    requires forall q :: OccursAt(StartFullLine(prefix, pkg, kind, what, pid, uid, gids), START_PROC, q) ==> q == |prefix|
    ensures MatchStart(StartFullLine(prefix, pkg, kind, what, pid, uid, gids), Start51).None?
  {
    var text := StartFullText(pkg, kind, what, pid, uid, gids);
    var line := StartFullLine(prefix, pkg, kind, what, pid, uid, gids);
    assert prefix + START_PROC + text == line;
    MarkerAfterPrefix(prefix, text);
    Start51RejectsFull(pkg, FullTargetText(kind, what, pid, uid, gids));
    MarkerSearchMisses(line, FirstLineEnd(line) + 1, Start51);
  }

  /** The second pattern reads the five parts back from an older-style line. */
  lemma StartFullLineMatches(prefix: string, pkg: string, kind: string, what: string, pid: string, uid: string, gids: string)
    requires '\n' !in prefix && '\n' !in gids
    requires |pkg| > 0 && AllIn(pkg, PackageChar)
    requires |kind| > 0 && AllIn(kind, Lower)
    requires |what| > 0 && AllIn(what, NotColon) && '\n' !in what
    requires |pid| > 0 && AllIn(pid, Digit)
    requires |uid| > 0 && AllIn(uid, Digit)
    requires forall q :: OccursAt(StartFullLine(prefix, pkg, kind, what, pid, uid, gids), START_PROC, q) ==> q == |prefix|
    ensures MatchStart(StartFullLine(prefix, pkg, kind, what, pid, uid, gids), StartFull)
            == Some(StartEvent(pkg, kind + " " + what, pid, uid, gids))
  {
    var text := StartFullText(pkg, kind, what, pid, uid, gids);
    var line := StartFullLine(prefix, pkg, kind, what, pid, uid, gids);
    FirstLineCovers(prefix, START_PROC + text);
    assert prefix + (START_PROC + text) == line;
    MarkerAfterPrefix(prefix, text);
    StartFullTailOf(pkg, kind, what, pid, uid, gids);
    MarkerSearchFinds(line, FirstLineEnd(line) + 1, |prefix|, StartFull);
  }

  /**
   * Round trip through `ParseStartProc` for an older-style line carrying the
   * only marker: the 5.1 pattern fails, and the second pattern reads back all
   * five parts.
   */
  lemma ParseStartFullLine(prefix: string, pkg: string, kind: string, what: string, pid: string, uid: string, gids: string)
    requires '\n' !in prefix && '\n' !in gids
    requires |pkg| > 0 && AllIn(pkg, PackageChar)
    requires |kind| > 0 && AllIn(kind, Lower)
    requires |what| > 0 && AllIn(what, NotColon) && '\n' !in what
    requires |pid| > 0 && AllIn(pid, Digit)
    requires |uid| > 0 && AllIn(uid, Digit)
    requires forall q :: OccursAt(StartFullLine(prefix, pkg, kind, what, pid, uid, gids), START_PROC, q) ==> q == |prefix|
    ensures ParseStartProc(StartFullLine(prefix, pkg, kind, what, pid, uid, gids))
            == Some(StartEvent(pkg, kind + " " + what, pid, uid, gids))
  {
    var line := StartFullLine(prefix, pkg, kind, what, pid, uid, gids);
    StartFullLineRejects51(prefix, pkg, kind, what, pid, uid, gids);
    StartFullLineMatches(prefix, pkg, kind, what, pid, uid, gids);
    ParseStartSecondForm(line);
  }

  /** The marker starts with a colon, a blank and an `S`. */
  lemma MarkerChars(s: string)
    ensures forall q :: OccursAt(s, START_PROC, q) ==> 0 <= q && q + 2 < |s| && s[q] == ':' && s[q + 1] == ' ' && s[q + 2] == 'S'
  {
    forall q | OccursAt(s, START_PROC, q) ensures 0 <= q && q + 2 < |s| && s[q] == ':' && s[q + 1] == ' ' && s[q + 2] == 'S' {
      assert s[q..q + |START_PROC|] == START_PROC;
      assert s[q] == s[q..q + |START_PROC|][0];
      assert s[q + 1] == s[q..q + |START_PROC|][1];
      assert s[q + 2] == s[q..q + |START_PROC|][2];
    }
  }

  /** A string made of one class contains no character outside it. */
  lemma OutsideClass(s: string, k: CharClass, c: char)
    requires AllIn(s, k) && !InClass(c, k)
    ensures c !in s
  {
    assert forall i :: 0 <= i < |s| ==> s[i] != c;
  }

  /** No marker in a text made of `S`-free pieces around a run of package characters. */
  lemma NoMarkerAroundPackage(a: string, pkg: string, b: string)
    requires 'S' !in a && 'S' !in b && |a| >= 2 && a[|a| - 2] != ':'
    requires AllIn(pkg, PackageChar)
    ensures forall q :: !OccursAt(a + pkg + b, START_PROC, q)
  {
    var s := a + pkg + b;
    MarkerChars(s);
    forall q | 0 <= q && q + 2 < |s| ensures !(s[q] == ':' && s[q + 1] == ' ' && s[q + 2] == 'S') {
      if q + 2 < |a| {
        assert s[q + 2] == a[q + 2];
      } else if q + 2 >= |a| + |pkg| {
        assert s[q + 2] == b[q + 2 - |a| - |pkg|];
      } else if q + 1 >= |a| {
        assert s[q + 1] == pkg[q + 1 - |a|];
      } else {
        assert s[q] == a[|a| - 2];
      }
    }
    forall q ensures !OccursAt(s, START_PROC, q) {
      if 0 <= q && q + 2 < |s| {
        assert !(s[q] == ':' && s[q + 1] == ' ' && s[q + 2] == 'S');
      }
    }
  }

  /** A Dalvik start line carries no `: Start proc ` marker. */
  lemma DalvikLineHasNoMarker(ws: string, pid: string, pkg: string, uid: string, end: string)
    requires AllIn(ws, Whitespace) && AllIn(pid, Digit) && AllIn(pkg, PackageChar) && AllIn(uid, Digit)
    requires end == " ]" || end == " ]\n"
    ensures forall q :: !OccursAt(DalvikText(ws, pid, pkg, uid, end), START_PROC, q)
  {
    var a := "E/dalvikvm(" + ws + pid + "): >>>>> ";
    var b := " [ userId:0 | appId:" + uid + end;
    OutsideClass(ws, Whitespace, 'S');
    OutsideClass(pid, Digit, 'S');
    OutsideClass(uid, Digit, 'S');
    assert DalvikText(ws, pid, pkg, uid, end) == a + pkg + b;
    NoMarkerAroundPackage(a, pkg, b);
  }

  /**
   * Round trip through `ParseStartProc` for a Dalvik line: both marker
   * patterns fail, and the third reads back package, pid and uid, with empty
   * target and gids.
   */
  lemma ParseDalvikLine(ws: string, pid: string, pkg: string, uid: string)
    requires AllIn(ws, Whitespace)
    requires |pid| > 0 && AllIn(pid, Digit)
    requires |pkg| > 0 && AllIn(pkg, PackageChar)
    requires |uid| > 0 && AllIn(uid, Digit)
    ensures ParseStartProc(DalvikLine(ws, pid, pkg, uid)) == Some(StartEvent(pkg, "", pid, uid, ""))
  {
    var line := DalvikLine(ws, pid, pkg, uid);
    var n := FirstLineEnd(line) + 1;
    DalvikLineHasNoMarker(ws, pid, pkg, uid, " ]");
    MarkerSearchMisses(line, n, Start51);
    MarkerSearchMisses(line, n, StartFull);
    DalvikLineOf(ws, pid, pkg, uid);
    assert MatchStart(line, START_FORMS[0]).None?;
    assert MatchStart(line, START_FORMS[1]).None?;
    assert MatchStart(line, START_FORMS[2]).Some?;
    assert START_FORMS[1..][1..][0] == StartDalvik;
  }

  /** A line on which no pattern matches yields no start event. */
  lemma ParseStartProcNone(line: string)
    requires forall f :: f in START_FORMS ==> MatchStart(line, f).None?
    ensures ParseStartProc(line).None?
  {
  }
}
