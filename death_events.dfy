/**
 * Process-death recognition: the three death patterns of pidcat.py:49-55,
 * tried in order on a message from ActivityManager by `ParseDeath`
 * (pidcat.py:313-346).
 */
module DeathEvents {
  import opened Wrappers
  import opened Text
  import opened Scan
  import opened PackageFilter

  /** The `(pid, package)` pair `ParseDeath` returns. */
  datatype Death = Death(pid: string, package: string)

  /** The death patterns, in the order they are tried. */
  datatype DeathForm = Kill | Leave | Died

  const DEATH_FORMS: seq<DeathForm> := [Kill, Leave, Died]

  predicate WellFormedDeath(d: Death) {
    |d.pid| > 0 && AllIn(d.pid, Digit) && |d.package| > 0 && AllIn(d.package, PackageChar)
  }

  /** `PID_KILL`: `Killing (\d+):([a-zA-Z0-9._:]+)/[^:]+: (.*)$`; the pid is group 1. */
  function MatchKill(m: string): (r: Option<Death>)
    ensures r.Some? ==> WellFormedDeath(r.value)
    ensures r.Some? ==> StartsWith(m, "Killing ")
  {
    if StartsWith(m, "Killing ") then
      var (pid, t1) := Span(m[8..], Digit);
      if |pid| > 0 && StartsWith(t1, ":") then KillPackage(pid, t1[1..]) else None
    else None
  }

  /** `([a-zA-Z0-9._:]+)/[^:]+: (.*)$` */
  function KillPackage(pid: string, t: string): (r: Option<Death>)
    requires |pid| > 0 && AllIn(pid, Digit)
    ensures r.Some? ==> WellFormedDeath(r.value) && r.value.pid == pid
  {
    var (pkg, t2) := Span(t, PackageChar);
    if |pkg| > 0 && StartsWith(t2, "/") then
      var (comp, t3) := Span(t2[1..], NotColon);
      if |comp| > 0 && StartsWith(t3, ": ") && LineRest(t3[2..]).Some? then Some(Death(pid, pkg))
      else None
    else None
  }

  /** `PID_LEAVE`: `No longer want ([a-zA-Z0-9._:]+) \(pid (\d+)\): .*$`; the pid is group 2. */
  function MatchLeave(m: string): (r: Option<Death>)
    ensures r.Some? ==> WellFormedDeath(r.value)
    ensures r.Some? ==> StartsWith(m, "No longer want ")
  {
    if StartsWith(m, "No longer want ") then
      var (pkg, t1) := Span(m[15..], PackageChar);
      if |pkg| > 0 && StartsWith(t1, " (pid ") then LeavePid(pkg, t1[6..]) else None
    else None
  }

  /** `(\d+)\): .*$` */
  function LeavePid(pkg: string, t: string): (r: Option<Death>)
    requires |pkg| > 0 && AllIn(pkg, PackageChar)
    ensures r.Some? ==> WellFormedDeath(r.value) && r.value.package == pkg
  {
    var (pid, t2) := Span(t, Digit);
    if |pid| > 0 && StartsWith(t2, "): ") && LineRest(t2[3..]).Some? then Some(Death(pid, pkg)) else None
  }

  /** `.?$`: at most one more character on the line. */
  predicate AtMostOneMore(t: string) {
    LineRest(t).Some? && |LineRest(t).value| <= 1
  }

  /** `PID_DEATH`: `Process ([a-zA-Z0-9._:]+) \(pid (\d+)\) has died.?$`; the pid is group 2. */
  function MatchDied(m: string): (r: Option<Death>)
    ensures r.Some? ==> WellFormedDeath(r.value)
    ensures r.Some? ==> StartsWith(m, "Process ")
  {
    if StartsWith(m, "Process ") then
      var (pkg, t1) := Span(m[8..], PackageChar);
      if |pkg| > 0 && StartsWith(t1, " (pid ") then DiedPid(pkg, t1[6..]) else None
    else None
  }

  /** `(\d+)\) has died.?$` */
  function DiedPid(pkg: string, t: string): (r: Option<Death>)
    requires |pkg| > 0 && AllIn(pkg, PackageChar)
    ensures r.Some? ==> WellFormedDeath(r.value) && r.value.package == pkg
  {
    var (pid, t2) := Span(t, Digit);
    if |pid| > 0 && StartsWith(t2, ") has died") && AtMostOneMore(t2[10..]) then Some(Death(pid, pkg)) else None
  }

  /** `regex.match(message)` for one death pattern, with the groups put in (pid, package) order. */
  function MatchDeath(m: string, form: DeathForm): Option<Death> {
    match form
    case Kill => MatchKill(m)
    case Leave => MatchLeave(m)
    case Died => MatchDied(m)
  }

  /** The check a matched death has to pass: its package is watched and its pid is known. */
  predicate Accepted(d: Option<Death>, pids: set<string>, named: seq<string>, catchall: seq<string>) {
    d.Some? && MatchPackages(d.value.package, named, catchall) && d.value.pid in pids
  }

  /** The loop of `ParseDeath`: a pattern that matches but fails the check falls through to the next. */
  function FirstDeath(m: string, forms: seq<DeathForm>, pids: set<string>, named: seq<string>, catchall: seq<string>): Option<Death> {
    if |forms| == 0 then None
    else if Accepted(MatchDeath(m, forms[0]), pids, named, catchall) then MatchDeath(m, forms[0])
    else FirstDeath(m, forms[1..], pids, named, catchall)
  }

  /** The first accepted pattern wins; with none accepted there is no death. */
  lemma {:induction false} FirstDeathSpec(m: string, forms: seq<DeathForm>, pids: set<string>, named: seq<string>, catchall: seq<string>)
    ensures var r := FirstDeath(m, forms, pids, named, catchall);
      && (r.Some? ==> exists i :: 0 <= i < |forms| && MatchDeath(m, forms[i]) == r && Accepted(r, pids, named, catchall)
                        && forall j :: 0 <= j < i ==> !Accepted(MatchDeath(m, forms[j]), pids, named, catchall))
      && (r.None? ==> forall i :: 0 <= i < |forms| ==> !Accepted(MatchDeath(m, forms[i]), pids, named, catchall))
    decreases |forms|
  {
    if |forms| > 0 && !Accepted(MatchDeath(m, forms[0]), pids, named, catchall) {
      FirstDeathSpec(m, forms[1..], pids, named, catchall);
      assert forall i :: 1 <= i < |forms| ==> forms[i] == forms[1..][i - 1];
      var r := FirstDeath(m, forms[1..], pids, named, catchall);
      if r.Some? {
        var i :| 0 <= i < |forms[1..]| && MatchDeath(m, forms[1..][i]) == r && Accepted(r, pids, named, catchall)
                 && forall j :: 0 <= j < i ==> !Accepted(MatchDeath(m, forms[1..][j]), pids, named, catchall);
        assert MatchDeath(m, forms[i + 1]) == r;
      }
    }
  }

  /** `ParseDeath(tag, message, pidsSet, namedProcesses, catchallPackage)`; `None` stands for `(None, None)`. */
  function ParseDeath(tag: string, message: string, pids: set<string>, named: seq<string>, catchall: seq<string>): (r: Option<Death>)
    ensures r.Some? ==> tag == "ActivityManager" && r.value.pid in pids && MatchPackages(r.value.package, named, catchall)
    ensures r.Some? ==> WellFormedDeath(r.value)
  {
    if tag != "ActivityManager" then None
    else
      var r := FirstDeath(message, DEATH_FORMS, pids, named, catchall);
      FirstDeathSpec(message, DEATH_FORMS, pids, named, catchall);
      r
  }

  // ---- The three message shapes ----

  /** `Killing PID:PACKAGE/COMPONENT: REASON` */
  function KillMessage(pid: string, pkg: string, comp: string, reason: string): string {
    "Killing " + pid + ":" + KillPackageText(pkg, comp, reason)
  }

  function KillPackageText(pkg: string, comp: string, reason: string): string {
    pkg + "/" + comp + ": " + reason
  }

  /** `No longer want PACKAGE (pid PID): REASON` */
  function LeaveMessage(pkg: string, pid: string, reason: string): string {
    "No longer want " + pkg + " (pid " + pid + "): " + reason
  }

  /** `Process PACKAGE (pid PID) has died` followed by at most one character. */
  function DiedMessage(pkg: string, pid: string, tail: string): string {
    "Process " + pkg + " (pid " + pid + ") has died" + tail
  }

  lemma KillPackageOf(pid: string, pkg: string, comp: string, reason: string)
    requires |pid| > 0 && AllIn(pid, Digit)
    requires |pkg| > 0 && AllIn(pkg, PackageChar)
    requires |comp| > 0 && AllIn(comp, NotColon)
    requires '\n' !in reason
    ensures KillPackage(pid, KillPackageText(pkg, comp, reason)) == Some(Death(pid, pkg))
  {
    var t3 := ": " + reason;
    var t2 := "/" + comp + t3;
    assert KillPackageText(pkg, comp, reason) == pkg + t2;
    SpanOf(pkg, t2, PackageChar);
    assert t2[1..] == comp + t3;
    SpanOf(comp, t3, NotColon);
    assert t3[2..] == reason;
  }

  /** Round trip: a kill message is read back as its pid and package. */
  lemma MatchKillOf(pid: string, pkg: string, comp: string, reason: string)
    requires |pid| > 0 && AllIn(pid, Digit)
    requires |pkg| > 0 && AllIn(pkg, PackageChar)
    requires |comp| > 0 && AllIn(comp, NotColon)
    requires '\n' !in reason
    ensures MatchKill(KillMessage(pid, pkg, comp, reason)) == Some(Death(pid, pkg))
  {
    var m := KillMessage(pid, pkg, comp, reason);
    var t1 := ":" + KillPackageText(pkg, comp, reason);
    assert m == "Killing " + (pid + t1);
    assert m[8..] == pid + t1;
    SpanOf(pid, t1, Digit);
    assert t1[1..] == KillPackageText(pkg, comp, reason);
    KillPackageOf(pid, pkg, comp, reason);
  }

  lemma LeavePidOf(pkg: string, pid: string, reason: string)
    requires |pkg| > 0 && AllIn(pkg, PackageChar)
    requires |pid| > 0 && AllIn(pid, Digit)
    requires '\n' !in reason
    ensures LeavePid(pkg, pid + ("): " + reason)) == Some(Death(pid, pkg))
  {
    var t2 := "): " + reason;
    SpanOf(pid, t2, Digit);
    assert t2[3..] == reason;
  }

  /** Round trip: a leave message is read back as its pid and package. */
  lemma MatchLeaveOf(pkg: string, pid: string, reason: string)
    requires |pkg| > 0 && AllIn(pkg, PackageChar)
    requires |pid| > 0 && AllIn(pid, Digit)
    requires '\n' !in reason
    ensures MatchLeave(LeaveMessage(pkg, pid, reason)) == Some(Death(pid, pkg))
  {
    var m := LeaveMessage(pkg, pid, reason);
    var t := pid + ("): " + reason);
    var t1 := " (pid " + t;
    assert m == "No longer want " + (pkg + t1);
    assert m[15..] == pkg + t1;
    SpanOf(pkg, t1, PackageChar);
    assert t1[6..] == t;
    LeavePidOf(pkg, pid, reason);
  }

  /** `.?$` behind `has died`: at most one more character, on the same line. */
  lemma DiedPidOf(pkg: string, pid: string, tail: string)
    requires |pkg| > 0 && AllIn(pkg, PackageChar)
    requires |pid| > 0 && AllIn(pid, Digit)
    requires '\n' !in tail
    ensures DiedPid(pkg, pid + (") has died" + tail)) == if |tail| <= 1 then Some(Death(pid, pkg)) else None
  {
    var t2 := ") has died" + tail;
    SpanOf(pid, t2, Digit);
    assert t2[10..] == tail;
  }

  /** A died message is the prefix, the package, and the pid part `DiedPid` reads. */
  lemma DiedMessageParts(pkg: string, pid: string, tail: string)
    requires |pkg| > 0 && AllIn(pkg, PackageChar)
    ensures MatchDied(DiedMessage(pkg, pid, tail)) == DiedPid(pkg, pid + (") has died" + tail))
  {
    var m := DiedMessage(pkg, pid, tail);
    var t := pid + (") has died" + tail);
    var t1 := " (pid " + t;
    assert m == "Process " + (pkg + t1);
    assert m[8..] == pkg + t1;
    SpanOf(pkg, t1, PackageChar);
    assert t1[6..] == t;
  }

  /** Round trip: a died message, with at most one trailing character, is read back. */
  lemma MatchDiedOf(pkg: string, pid: string, tail: string)
    requires |pkg| > 0 && AllIn(pkg, PackageChar)
    requires |pid| > 0 && AllIn(pid, Digit)
    requires '\n' !in tail && |tail| <= 1
    ensures MatchDied(DiedMessage(pkg, pid, tail)) == Some(Death(pid, pkg))
  {
    DiedMessageParts(pkg, pid, tail);
    DiedPidOf(pkg, pid, tail);
  }

  /** `.?$` rejects two more characters: a died message with a longer tail is not recognised. */
  lemma MatchDiedRejectsLongTail(pkg: string, pid: string, tail: string)
    requires |pkg| > 0 && AllIn(pkg, PackageChar)
    requires |pid| > 0 && AllIn(pid, Digit)
    requires '\n' !in tail && |tail| >= 2
    ensures MatchDied(DiedMessage(pkg, pid, tail)).None?
  {
    DiedMessageParts(pkg, pid, tail);
    DiedPidOf(pkg, pid, tail);
  }

  /** The first letter each death pattern demands. */
  function FirstChar(m: string, f: DeathForm): char {
    match f
    case Kill => 'K'
    case Leave => 'N'
    case Died => 'P'
  }

  lemma FirstCharOf(m: string, f: DeathForm)
    requires MatchDeath(m, f).Some?
    ensures |m| > 0 && m[0] == FirstChar(m, f)
  {
    match f
    case Kill => assert m[..8] == "Killing ";
    case Leave => assert m[..15] == "No longer want ";
    case Died => assert m[..8] == "Process ";
  }

  /** The three patterns start with different words, so a message matches at most one of them. */
  lemma DeathFormsDisjoint(m: string, f: DeathForm, g: DeathForm)
    requires MatchDeath(m, f).Some? && MatchDeath(m, g).Some?
    ensures f == g
  {
    assert FirstChar(m, f) == m[0] == FirstChar(m, g) by {
      FirstCharOf(m, f);
      FirstCharOf(m, g);
    }
  }

  /**
   * `ParseDeath`, stated per pattern: from ActivityManager, a message that
   * matches some pattern yields that pattern's pid and package exactly when
   * they pass the check, and nothing otherwise.
   */
  lemma ParseDeathOfMatch(message: string, form: DeathForm, d: Death, pids: set<string>, named: seq<string>, catchall: seq<string>)
    requires MatchDeath(message, form) == Some(d)
    ensures ParseDeath("ActivityManager", message, pids, named, catchall)
            == if d.pid in pids && MatchPackages(d.package, named, catchall) then Some(d) else None
  {
    var r := ParseDeath("ActivityManager", message, pids, named, catchall);
    FirstDeathSpec(message, DEATH_FORMS, pids, named, catchall);
    forall g | g in DEATH_FORMS && MatchDeath(message, g).Some? ensures g == form {
      DeathFormsDisjoint(message, form, g);
    }
    assert form == DEATH_FORMS[0] || form == DEATH_FORMS[1] || form == DEATH_FORMS[2];
  }

  /** Messages from any other tag are never death events. */
  lemma ParseDeathNeedsActivityManager(tag: string, message: string, pids: set<string>, named: seq<string>, catchall: seq<string>)
    requires tag != "ActivityManager"
    ensures ParseDeath(tag, message, pids, named, catchall).None?
  {
  }

  /**
   * A catch-all package's "has died" message from ActivityManager ends its
   * pid while that pid is known, and is ignored otherwise.
   */
  lemma DiedWatchedProcess(pkg: string, pid: string, pids: set<string>)
    requires |pkg| > 0 && AllIn(pkg, PackageChar) && ':' !in pkg
    requires |pid| > 0 && AllIn(pid, Digit)
    ensures ParseDeath("ActivityManager", DiedMessage(pkg, pid, ""), pids, [], [pkg])
            == if pid in pids then Some(Death(pid, pkg)) else None
  {
    MatchDiedOf(pkg, pid, "");
    MatchPackagesMeaning(pkg, [], [pkg]);
    ParseDeathOfMatch(DiedMessage(pkg, pid, ""), Died, Death(pid, pkg), pids, [], [pkg]);
  }
}
