/** Ordering of query results (`order: { ... }` in a `find`): a stable
    insertion sort by a total preorder, specified by sortedness and
    permutation, which is all the database promises when keys tie. */
module Sorting {

  /** `le` is total and transitive: a valid `ORDER BY` comparison. */
  ghost predicate TotalPreorder<T(!new)>(le: (T, T) -> bool) {
    && (forall a, b :: le(a, b) || le(b, a))
    && (forall a, b, c :: le(a, b) && le(b, c) ==> le(a, c))
  }

  predicate Sorted<T>(s: seq<T>, le: (T, T) -> bool) {
    forall i, j :: 0 <= i < j < |s| ==> le(s[i], s[j])
  }

  /** Any contiguous piece of a sorted sequence is sorted. */
  lemma SortedSlice<T>(s: seq<T>, le: (T, T) -> bool, lo: nat, hi: nat)
    requires Sorted(s, le) && lo <= hi <= |s|
    ensures Sorted(s[lo..hi], le)
  {
    assert forall i :: 0 <= i < hi - lo ==> s[lo..hi][i] == s[lo + i];
  }

  function Insert<T(!new)>(x: T, s: seq<T>, le: (T, T) -> bool): (r: seq<T>)
    requires TotalPreorder(le) && Sorted(s, le)
    ensures Sorted(r, le)
    ensures multiset(r) == multiset(s) + multiset{x}
  {
    if s == [] then [x]
    else if le(x, s[0]) then [x] + s
    else
      var rest := Insert(x, s[1..], le);
      assert s == [s[0]] + s[1..];
      HeadPrecedes(s[0], x, s[1..], rest, le);
      [s[0]] + rest
  }

  /** Every element of `rest`, a reordering of `tail` plus `x`, comes after
      `h` when `h` precedes `tail` and `x` does not precede `h`. */
  lemma HeadPrecedes<T(!new)>(h: T, x: T, tail: seq<T>, rest: seq<T>, le: (T, T) -> bool)
    requires TotalPreorder(le) && !le(x, h)
    requires forall j :: 0 <= j < |tail| ==> le(h, tail[j])
    requires multiset(rest) == multiset(tail) + multiset{x}
    ensures forall j :: 0 <= j < |rest| ==> le(h, rest[j])
  {
    forall j | 0 <= j < |rest|
      ensures le(h, rest[j])
    {
      assert rest[j] in multiset(rest);
      if rest[j] != x {
        assert rest[j] in multiset(tail);
        var k :| 0 <= k < |tail| && tail[k] == rest[j];
      }
    }
  }

  /** `s` reordered by `le`. */
  function Sort<T(!new)>(s: seq<T>, le: (T, T) -> bool): (r: seq<T>)
    requires TotalPreorder(le)
    ensures Sorted(r, le)
    ensures multiset(r) == multiset(s)
    ensures |r| == |s|
  {
    if s == [] then []
    else
      assert s == [s[0]] + s[1..];
      Insert(s[0], Sort(s[1..], le), le)
  }
}
