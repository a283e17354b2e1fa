/**
 * The tag colour allocator: `KNOWN_TAGS` (tag -> colour, seeded with the
 * system tags) and `LAST_USED` (the six rotating colours, least recently used
 * first), updated in place by `AllocateColor`.
 */
module ColorAllocation {
  import opened TerminalColors

  /** The initial `LAST_USED`: every colour except BLACK and WHITE. */
  const PALETTE: seq<int> := [RED, GREEN, YELLOW, BLUE, MAGENTA, CYAN]

  /** The initial `KNOWN_TAGS`. */
  const INITIAL_KNOWN_TAGS: map<string, int> := map[
    "dalvikvm" := WHITE,
    "Process" := WHITE,
    "ActivityManager" := WHITE,
    "ActivityThread" := WHITE,
    "AndroidRuntime" := CYAN,
    "jdwp" := WHITE,
    "StrictMode" := WHITE,
    "DEBUG" := YELLOW
  ]

  /** The allocator's two globals as one value. */
  datatype ColorTable = ColorTable(known: map<string, int>, lastUsed: seq<int>)

  /** What one lookup yields: the updated table and the colour returned. */
  datatype Allocation = Allocation(table: ColorTable, color: int)

  const INITIAL_TABLE: ColorTable := ColorTable(INITIAL_KNOWN_TAGS, PALETTE)

  /** `LAST_USED` holds the six rotating colours, each exactly once. */
  predicate IsRecencyList(s: seq<int>) {
    |s| == 6 && multiset(s) == multiset(PALETTE)
  }

  /** `list.remove(x)`: drop the first occurrence of `x`, if any. */
  function RemoveFirst(s: seq<int>, x: int): (r: seq<int>)
    ensures x in s ==> |r| == |s| - 1 && multiset(r) == multiset(s) - multiset{x}
    ensures x !in s ==> r == s
  {
    if |s| == 0 then []
    else if s[0] == x then
      assert s == [s[0]] + s[1..];
      s[1..]
    else
      assert s == [s[0]] + s[1..];
      [s[0]] + RemoveFirst(s[1..], x)
  }

  /** The occurrence `RemoveFirst` drops is the first one: at index `i`, with no `x` before it. */
  lemma {:induction false} RemoveFirstAt(s: seq<int>, x: int, i: int)
    requires 0 <= i < |s| && s[i] == x && x !in s[..i]
    ensures RemoveFirst(s, x) == s[..i] + s[i + 1..]
    decreases i
  {
    if i > 0 {
      var t := s[1..];
      assert s[..i] == [s[0]] + t[..i - 1];
      assert s[0] != x;
      RemoveFirstAt(t, x, i - 1);
      assert s[i + 1..] == t[i..];
      assert s == [s[0]] + t;
    }
  }

  /** `AllocateColor(tag)` on values. */
  function Allocate(t: ColorTable, tag: string): (a: Allocation)
    requires |t.lastUsed| > 0
    ensures |a.table.lastUsed| == |t.lastUsed|
  {
    var known := if tag in t.known then t.known else t.known[tag := t.lastUsed[0]];
    var color := known[tag];
    var lastUsed := if color in t.lastUsed then RemoveFirst(t.lastUsed, color) + [color] else t.lastUsed;
    Allocation(ColorTable(known, lastUsed), color)
  }

  /** The table after looking up each of `tags` in turn. */
  function AllocateAll(t: ColorTable, tags: seq<string>): (r: ColorTable)
    requires |t.lastUsed| > 0
    ensures |r.lastUsed| == |t.lastUsed|
    decreases |tags|
  {
    if |tags| == 0 then t
    else Allocate(AllocateAll(t, tags[..|tags| - 1]), tags[|tags| - 1]).table
  }

  /** A lookup keeps `LAST_USED` a permutation of the six rotating colours. */
  lemma AllocateKeepsRecencyList(t: ColorTable, tag: string)
    requires IsRecencyList(t.lastUsed)
    ensures IsRecencyList(Allocate(t, tag).table.lastUsed)
  {
    var a := Allocate(t, tag);
    if a.color in t.lastUsed {
      var removed := RemoveFirst(t.lastUsed, a.color);
      assert multiset(removed + [a.color]) == multiset(removed) + multiset{a.color};
      assert multiset{a.color} <= multiset(t.lastUsed) by {
        assert a.color in multiset(t.lastUsed);
      }
    }
  }

  /**
   * The colour returned: a known tag keeps its colour; an unknown tag is bound
   * to the least recently used colour, and only that one entry is added.
   */
  lemma AllocateBinding(t: ColorTable, tag: string)
    requires |t.lastUsed| > 0
    ensures var a := Allocate(t, tag);
      && (tag in t.known ==> a.color == t.known[tag] && a.table.known == t.known)
      && (tag !in t.known ==> a.color == t.lastUsed[0] && a.table.known == t.known[tag := t.lastUsed[0]])
      && a.table.known[tag] == a.color
  {
  }

  /** A colour that is in `LAST_USED` moves to its end; any other (WHITE, BLACK) leaves it alone. */
  lemma AllocateMovesColorLast(t: ColorTable, tag: string)
    requires IsRecencyList(t.lastUsed)
    ensures var a := Allocate(t, tag);
      && (a.color in t.lastUsed ==>
            a.table.lastUsed[|a.table.lastUsed| - 1] == a.color
            && a.table.lastUsed[..5] == RemoveFirst(t.lastUsed, a.color))
      && (a.color !in t.lastUsed ==> a.table.lastUsed == t.lastUsed)
      && (a.color == WHITE ==> a.table.lastUsed == t.lastUsed)
  {
    var a := Allocate(t, tag);
    if a.color == WHITE {
      assert WHITE !in multiset(PALETTE);
      assert WHITE !in multiset(t.lastUsed);
    }
    if a.color in t.lastUsed {
      var removed := RemoveFirst(t.lastUsed, a.color);
      assert (removed + [a.color])[..5] == removed;
    }
  }

  /** Bindings are never overwritten: repeated lookups of a tag give the same colour, whatever came between. */
  lemma {:induction false} BindingsPersist(t: ColorTable, tags: seq<string>, tag: string)
    requires |t.lastUsed| > 0 && tag in t.known
    ensures var r := AllocateAll(t, tags);
      tag in r.known && r.known[tag] == t.known[tag]
      && Allocate(r, tag).color == t.known[tag]
    decreases |tags|
  {
    if |tags| > 0 {
      BindingsPersist(t, tags[..|tags| - 1], tag);
    }
  }

  /** Lookups add only the tags looked up. */
  lemma {:induction false} AllocateAllKeys(t: ColorTable, tags: seq<string>)
    requires |t.lastUsed| > 0
    ensures forall x :: x in AllocateAll(t, tags).known ==> x in t.known || x in tags
    decreases |tags|
  {
    if |tags| > 0 {
      var prefix := tags[..|tags| - 1];
      AllocateAllKeys(t, prefix);
      forall x | x in AllocateAll(t, tags).known ensures x in t.known || x in tags {
        if x != tags[|tags| - 1] {
          assert x in AllocateAll(t, prefix).known;
          assert x in prefix ==> x in tags;
        }
      }
    }
  }

  /** An unknown tag takes the front colour, which moves to the back. */
  lemma FreshTagRotates(t: ColorTable, tag: string)
    requires |t.lastUsed| > 0 && tag !in t.known
    ensures Allocate(t, tag) ==
      Allocation(ColorTable(t.known[tag := t.lastUsed[0]], t.lastUsed[1..] + [t.lastUsed[0]]), t.lastUsed[0])
  {
  }

  /** The inductive step of FreshTagsTakeColorsInOrder, stated without AllocateAll. */
  lemma FreshTagsStep(t: ColorTable, tags: seq<string>, p: ColorTable)
    requires 0 < |tags| <= |t.lastUsed|
    requires forall i :: 0 <= i < |tags| ==> tags[i] !in t.known
    requires forall i :: 0 <= i < |tags| - 1 ==> tags[i] != tags[|tags| - 1]
    requires p.lastUsed == t.lastUsed[|tags| - 1..] + t.lastUsed[..|tags| - 1]
    requires forall i :: 0 <= i < |tags| - 1 ==> tags[i] in p.known && p.known[tags[i]] == t.lastUsed[i]
    requires forall x :: x in t.known ==> x in p.known && p.known[x] == t.known[x]
    requires forall x :: x in p.known ==> x in t.known || x in tags[..|tags| - 1]
    ensures var r := Allocate(p, tags[|tags| - 1]).table;
      && r.lastUsed == t.lastUsed[|tags|..] + t.lastUsed[..|tags|]
      && (forall i :: 0 <= i < |tags| ==> tags[i] in r.known && r.known[tags[i]] == t.lastUsed[i])
      && (forall x :: x in t.known ==> x in r.known && r.known[x] == t.known[x])
  {
    var L := t.lastUsed;
    var n := |tags|;
    var last := tags[n - 1];
    var prefix := tags[..n - 1];
    assert last !in p.known by {
      forall i | 0 <= i < n - 1 ensures prefix[i] != last {
        assert prefix[i] == tags[i];
      }
    }
    FreshTagRotates(p, last);
    var r := Allocate(p, last).table;
    RotateOnce(L, n, p.lastUsed);
    assert r.known == p.known[last := L[n - 1]];
    forall i | 0 <= i < n ensures tags[i] in r.known && r.known[tags[i]] == L[i] {
      if i < n - 1 {
        assert tags[i] != last;
      }
    }
    forall x | x in t.known ensures x in r.known && r.known[x] == t.known[x] {
      assert x != last;
    }
  }

  /** Moving the front of the `n - 1` times rotated list to its back rotates it `n` times. */
  lemma RotateOnce(L: seq<int>, n: nat, p: seq<int>)
    requires 0 < n <= |L| && p == L[n - 1..] + L[..n - 1]
    ensures p[1..] + [p[0]] == L[n..] + L[..n]
  {
    assert p[0] == L[n - 1];
    assert p[1..] == L[n..] + L[..n - 1];
    assert L[..n - 1] + [L[n - 1]] == L[..n];
  }

  /** Looking up a sequence of distinct new tags hands out `LAST_USED` in order, rotating it. */
  lemma {:induction false} FreshTagsTakeColorsInOrder(t: ColorTable, tags: seq<string>)
    requires 0 < |t.lastUsed| && |tags| <= |t.lastUsed|
    requires forall i :: 0 <= i < |tags| ==> tags[i] !in t.known
    requires forall i, j :: 0 <= i < j < |tags| ==> tags[i] != tags[j]
    ensures var r := AllocateAll(t, tags);
      && r.lastUsed == t.lastUsed[|tags|..] + t.lastUsed[..|tags|]
      && (forall i :: 0 <= i < |tags| ==> tags[i] in r.known && r.known[tags[i]] == t.lastUsed[i])
      && (forall x :: x in t.known ==> x in r.known && r.known[x] == t.known[x])
    decreases |tags|
  {
    var n := |tags|;
    if n > 0 {
      var prefix := tags[..n - 1];
      FreshTagsTakeColorsInOrder(t, prefix);
      AllocateAllKeys(t, prefix);
      FreshTagsStep(t, tags, AllocateAll(t, prefix));
    } else {
      assert t.lastUsed[0..] + t.lastUsed[..0] == t.lastUsed;
    }
  }

  /**
   * Colours are hints, not identities: after six distinct new tags, every
   * rotating colour, in particular the one a known tag holds, has also been
   * handed to one of them.
   */
  lemma SixFreshTagsShareEveryColor(t: ColorTable, tags: seq<string>, tag: string)
    requires IsRecencyList(t.lastUsed) && |tags| == 6
    requires forall i :: 0 <= i < |tags| ==> tags[i] !in t.known
    requires forall i, j :: 0 <= i < j < |tags| ==> tags[i] != tags[j]
    requires tag in t.known && t.known[tag] in t.lastUsed
    ensures var r := AllocateAll(t, tags);
      && tag in r.known && r.known[tag] == t.known[tag]
      && r.lastUsed == t.lastUsed
      && exists i :: 0 <= i < 6 && tags[i] != tag && tags[i] in r.known && r.known[tags[i]] == t.known[tag]
  {
    FreshTagsTakeColorsInOrder(t, tags);
    ShareAfterFullRotation(t, tags, AllocateAll(t, tags), tag);
  }

  /** The last step of SixFreshTagsShareEveryColor, about any table the six lookups may have produced. */
  lemma ShareAfterFullRotation(t: ColorTable, tags: seq<string>, r: ColorTable, tag: string)
    requires IsRecencyList(t.lastUsed) && |tags| == 6
    requires forall i :: 0 <= i < |tags| ==> tags[i] !in t.known
    requires tag in t.known && t.known[tag] in t.lastUsed
    requires r.lastUsed == t.lastUsed[|tags|..] + t.lastUsed[..|tags|]
    requires forall i :: 0 <= i < |tags| ==> tags[i] in r.known && r.known[tags[i]] == t.lastUsed[i]
    requires forall x :: x in t.known ==> x in r.known && r.known[x] == t.known[x]
    ensures tag in r.known && r.known[tag] == t.known[tag]
    ensures r.lastUsed == t.lastUsed
    ensures exists i :: 0 <= i < 6 && tags[i] != tag && tags[i] in r.known && r.known[tags[i]] == t.known[tag]
  {
    assert t.lastUsed[6..] + t.lastUsed[..6] == t.lastUsed;
    var c := t.known[tag];
    var i :| 0 <= i < 6 && t.lastUsed[i] == c;
    assert tags[i] !in t.known;
    assert r.known[tags[i]] == c;
  }

  /** The allocator object: the two globals as fields updated in place. */
  class ColorAllocator {
    var knownTags: map<string, int>
    var lastUsed: seq<int>

    function Table(): ColorTable
      reads this
    {
      ColorTable(knownTags, lastUsed)
    }

    /** The invariant the module keeps: `lastUsed` is a permutation of the six rotating colours. */
    predicate Valid()
      reads this
    {
      IsRecencyList(lastUsed)
    }

    /** What `AllocateColor` needs: a colour to hand out. */
    predicate Ready()
      reads this
    {
      |lastUsed| > 0
    }

    /** The module's initial globals. */
    constructor ()
      ensures Valid() && Ready() && Table() == INITIAL_TABLE
    {
      knownTags := INITIAL_KNOWN_TAGS;
      lastUsed := PALETTE;
    }

    /** `AllocateColor(tag)` */
    method AllocateColor(tag: string) returns (color: int)
      requires Ready()
      modifies this
      ensures Ready()
      ensures Allocation(Table(), color) == Allocate(old(Table()), tag)
      ensures color == if tag in old(knownTags) then old(knownTags)[tag] else old(lastUsed)[0]
      ensures knownTags == if tag in old(knownTags) then old(knownTags)
                           else old(knownTags)[tag := old(lastUsed)[0]]
      ensures lastUsed == if color in old(lastUsed) then RemoveFirst(old(lastUsed), color) + [color]
                          else old(lastUsed)
    {
      if tag !in knownTags {
        knownTags := knownTags[tag := lastUsed[0]];
      }
      color := knownTags[tag];
      if color in lastUsed {
        lastUsed := RemoveFirst(lastUsed, color);
        lastUsed := lastUsed + [color];
      }
    }
  }
}
