/**
 * Package filtering: the split of the command-line package terms into
 * catch-all packages and named processes, and `MatchPackages`, which decides
 * whether a process name belongs to the packages being watched.
 */
module PackageFilter {
  import opened Text

  /** The part of a process name before its first `:` (all of it when there is none). */
  function BeforeColon(token: string): (r: string)
    ensures |r| <= |token| && r == token[..|r|] && ':' !in r
    ensures |r| < |token| ==> token[|r|] == ':'
  {
    if |token| == 0 || token[0] == ':' then ""
    else [token[0]] + BeforeColon(token[1..])
  }

  /** `MatchPackages(token, namedProcesses, catchallPackage)` */
  function MatchPackages(token: string, named: seq<string>, catchall: seq<string>): bool {
    if |catchall| == 0 && |named| == 0 then true
    else if token in named then true
    else
      var index := Find(token, ':');
      if index == -1 then token in catchall else token[..index] in catchall
  }

  /** `token[:token.find(":")]` is the part before the first colon. */
  lemma FindColonPrefix(token: string)
    requires ':' in token
    ensures token[..Find(token, ':')] == BeforeColon(token)
  {
    var k := Find(token, ':');
    var b := BeforeColon(token);
    assert |b| == k;
  }

  /** The part before the colon of `a:rest`, for `a` without a colon. */
  lemma BeforeColonOf(a: string, rest: string)
    requires ':' !in a
    ensures BeforeColon(a + [':'] + rest) == a
  {
    var t := a + [':'] + rest;
    var b := BeforeColon(t);
    assert t[|a|] == ':';
    assert |b| == |a|;
    assert b == t[..|a|] == a;
  }

  /**
   * The filter, stated without string searching: everything matches when no
   * filter is given; otherwise a name matches iff it is a named process or the
   * part before its first colon is a catch-all package (for a name without a
   * colon, the whole name).
   */
  lemma MatchPackagesMeaning(token: string, named: seq<string>, catchall: seq<string>)
    ensures |named| == 0 && |catchall| == 0 ==> MatchPackages(token, named, catchall)
    ensures token in named ==> MatchPackages(token, named, catchall)
    ensures MatchPackages(token, named, catchall) <==>
      (|named| == 0 && |catchall| == 0) || token in named || BeforeColon(token) in catchall
    ensures ':' !in token ==>
      (MatchPackages(token, named, catchall) <==>
        (|named| == 0 && |catchall| == 0) || token in named || token in catchall)
  {
    if ':' in token {
      FindColonPrefix(token);
    } else {
      assert BeforeColon(token) == token;
    }
  }

  /** `p[:-1] if p.endswith(":") else p` */
  function DropTrailingColon(p: string): string {
    if |p| > 0 && p[|p| - 1] == ':' then p[..|p| - 1] else p
  }

  /** The catch-all packages: the terms without a colon, in their order. */
  function CatchallPackages(packages: seq<string>): (r: seq<string>)
    ensures forall p :: p in r <==> p in packages && ':' !in p
  {
    if |packages| == 0 then []
    else
      assert packages == [packages[0]] + packages[1..];
      (if ':' !in packages[0] then [packages[0]] else []) + CatchallPackages(packages[1..])
  }

  /** The named processes: the terms with a colon, one trailing colon dropped, in their order. */
  function NamedProcesses(packages: seq<string>): (r: seq<string>)
    ensures forall x :: x in r <==> exists p :: p in packages && ':' in p && x == DropTrailingColon(p)
  {
    if |packages| == 0 then []
    else
      assert packages == [packages[0]] + packages[1..];
      (if ':' in packages[0] then [DropTrailingColon(packages[0])] else []) + NamedProcesses(packages[1..])
  }

  /** The filter configuration `main` derives from the package terms. */
  datatype Filters = Filters(named: seq<string>, catchall: seq<string>, all: bool)

  /** The package split of `main`; an empty package list turns on `all`. */
  function SplitPackages(packages: seq<string>, all: bool): (f: Filters)
    ensures f.all == (all || |packages| == 0)
  {
    Filters(NamedProcesses(packages), CatchallPackages(packages), all || |packages| == 0)
  }

  /**
   * Every term selects what it names: a bare package selects its processes,
   * `pkg:proc` selects that process, and `proc:` selects the process `proc`.
   */
  lemma SplitTermsSelectTheirProcesses(packages: seq<string>, all: bool, p: string, token: string)
    requires p in packages
    ensures var f := SplitPackages(packages, all);
      && (':' !in p && BeforeColon(token) == p ==> MatchPackages(token, f.named, f.catchall))
      && (':' in p ==> MatchPackages(DropTrailingColon(p), f.named, f.catchall))
  {
    var f := SplitPackages(packages, all);
    MatchPackagesMeaning(token, f.named, f.catchall);
  }

  /** With at least one term, a match is always explained by one of the terms. */
  lemma SplitMatchesOnlyTerms(packages: seq<string>, all: bool, token: string)
    requires |packages| > 0
    ensures var f := SplitPackages(packages, all);
      MatchPackages(token, f.named, f.catchall) ==>
        exists p :: p in packages
          && ((':' !in p && BeforeColon(token) == p) || (':' in p && token == DropTrailingColon(p)))
  {
    var f := SplitPackages(packages, all);
    MatchPackagesMeaning(token, f.named, f.catchall);
    var p := packages[0];
    if ':' in p {
      assert DropTrailingColon(p) in f.named;
    } else {
      assert p in f.catchall;
    }
  }

  /** No package terms: `all` is forced, and every process name matches. */
  lemma NoPackagesShowAll(all: bool, token: string)
    ensures SplitPackages([], all).all
    ensures MatchPackages(token, SplitPackages([], all).named, SplitPackages([], all).catchall)
  {
  }

  /** A catch-all package matches each of its processes `pkg:proc`, whatever the named processes. */
  lemma CatchallMatchesSecondaryProcess(pkg: string, proc: string, named: seq<string>, catchall: seq<string>)
    requires ':' !in pkg && pkg in catchall
    ensures MatchPackages(pkg + [':'] + proc, named, catchall)
  {
    BeforeColonOf(pkg, proc);
    MatchPackagesMeaning(pkg + [':'] + proc, named, catchall);
  }

  /**
   * Once some filter is given, a name that is not a named process and whose
   * part before the first colon is not a catch-all package is rejected.
   */
  lemma CatchallRejectsOtherPackage(token: string, named: seq<string>, catchall: seq<string>)
    requires |named| > 0 || |catchall| > 0
    requires token !in named && BeforeColon(token) !in catchall
    ensures !MatchPackages(token, named, catchall)
  {
    MatchPackagesMeaning(token, named, catchall);
  }
}
