/**
 * `slices.Sort` on a slice of durations: ascending order, as a function of
 * the values only. The model sorts by insertion; any correct sort gives the
 * same sequence (SortedUnique).
 */
module Sorting {

  /** Ascending (non-decreasing) order. */
  ghost predicate Sorted(s: seq<int>) {
    forall i, j :: 0 <= i < j < |s| ==> s[i] <= s[j]
  }

  /** Every element of `r` is at least `m` when `r` holds the values of `s` and `x`, and all of those are. */
  lemma LowerBoundKept(r: seq<int>, s: seq<int>, x: int, m: int)
    requires multiset(r) == multiset(s) + multiset{x}
    requires m <= x && forall k :: 0 <= k < |s| ==> m <= s[k]
    ensures forall k :: 0 <= k < |r| ==> m <= r[k]
  {
    forall k | 0 <= k < |r| ensures m <= r[k] {
      assert r[k] in multiset(s) + multiset{x};
      if r[k] != x {
        assert r[k] in multiset(s);
        var j :| 0 <= j < |s| && s[j] == r[k];
      }
    }
  }

  /** Inserts `x` into the ascending `s` before the first element not smaller than it. */
  function Insert(x: int, s: seq<int>): (r: seq<int>)
    requires Sorted(s)
    ensures Sorted(r) && multiset(r) == multiset(s) + multiset{x}
  {
    if s == [] then [x]
    else if x <= s[0] then [x] + s
    else
      var rest := Insert(x, s[1..]);
      assert s == [s[0]] + s[1..];
      LowerBoundKept(rest, s[1..], x, s[0]);
      [s[0]] + rest
  }

  /** The ascending rearrangement of `s`. */
  function Sort(s: seq<int>): (r: seq<int>)
    ensures Sorted(r) && multiset(r) == multiset(s)
  {
    if s == [] then []
    else
      assert s == [s[0]] + s[1..];
      Insert(s[0], Sort(s[1..]))
  }

  /** The first element of a non-empty ascending sequence is its least value. */
  lemma HeadIsLeast(s: seq<int>, x: int)
    requires Sorted(s) && x in multiset(s)
    ensures s[0] <= x
  {
    var k :| 0 <= k < |s| && s[k] == x;
  }

  /** Removing the first element of an ascending sequence removes one copy of that value. */
  lemma Uncons(s: seq<int>)
    requires Sorted(s) && s != []
    ensures Sorted(s[1..]) && multiset(s[1..]) == multiset(s) - multiset{s[0]}
  {
    assert s == [s[0]] + s[1..];
  }

  /** Two ascending rearrangements of the same values start with the same element. */
  lemma SameHead(s: seq<int>, t: seq<int>)
    requires Sorted(s) && Sorted(t) && multiset(s) == multiset(t) && s != []
    ensures t != [] && s[0] == t[0]
  {
    assert s[0] in multiset(t);
    HeadIsLeast(t, s[0]);
    HeadIsLeast(s, t[0]);
  }

  /** Two ascending rearrangements of the same values are the same sequence. */
  lemma {:induction false} SortedUnique(s: seq<int>, t: seq<int>)
    requires Sorted(s) && Sorted(t) && multiset(s) == multiset(t)
    ensures s == t
    decreases |s|
  {
    if s == [] {
      if t != [] {
        SameHead(t, s);
      }
    } else {
      SameHead(s, t);
      Uncons(s);
      Uncons(t);
      SortedUnique(s[1..], t[1..]);
      assert s == [t[0]] + t[1..];
    }
  }
}
