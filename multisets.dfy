/** Facts about rearrangements of sequences, used to show that results do not depend on call order. */
module Multisets {

  /**
   * If `b` is a rearrangement of the non-empty `a`, the last element of `a`
   * sits at some index `j` of `b`, and what remains of both after removing
   * it are rearrangements of each other.
   */
  lemma SplitLast<T>(a: seq<T>, b: seq<T>) returns (j: nat)
    requires |a| > 0 && multiset(a) == multiset(b)
    ensures j < |b| && b[j] == a[|a| - 1]
    ensures b == b[..j] + [b[j]] + b[j + 1..]
    ensures multiset(a[..|a| - 1]) == multiset(b[..j] + b[j + 1..])
  {
    var x := a[|a| - 1];
    assert a == a[..|a| - 1] + [x];
    assert x in multiset(b);
    j :| 0 <= j < |b| && b[j] == x;
    assert b == b[..j] + [x] + b[j + 1..];
    calc {
      multiset(a[..|a| - 1]) + multiset{x};
      multiset(a);
      multiset(b);
      multiset(b[..j]) + multiset{x} + multiset(b[j + 1..]);
      { assert b[..j] + b[j + 1..] == b[..j] + b[j + 1..]; }
      multiset(b[..j] + b[j + 1..]) + multiset{x};
    }
    assert multiset(a[..|a| - 1]) == multiset(a[..|a| - 1]) + multiset{x} - multiset{x};
  }
}
