/** Generic operations on an in-memory table (a sequence of rows). They stand
    in for the repository calls the services make: a filtered `find`, a
    `findOne`, an `update` and a `delete` over every row a filter matches. */
module Table {
  import opened Wrappers

  /** A row's primary key. The database generates it; the stores below draw it
      from a counter. */
  type Id = nat

  /** An update field: the supplied value, or the current one when absent. */
  function Supplied<T>(field: Option<T>, current: T): T {
    if field.Some? then field.value else current
  }

  /** The rows that `keep` selects, in table order. */
  function Filter<T>(s: seq<T>, keep: T -> bool): (r: seq<T>)
    ensures |r| <= |s|
    ensures forall i :: 0 <= i < |r| ==> r[i] in s && keep(r[i])
    ensures forall i :: 0 <= i < |s| && keep(s[i]) ==> s[i] in r
  {
    if s == [] then []
    else if keep(s[0]) then [s[0]] + Filter(s[1..], keep)
    else Filter(s[1..], keep)
  }

  /** Filtering distributes over concatenation. */
  lemma {:induction false} FilterAppend<T>(a: seq<T>, b: seq<T>, keep: T -> bool)
    ensures Filter(a + b, keep) == Filter(a, keep) + Filter(b, keep)
  {
    if a == [] {
      assert a + b == b;
    } else {
      assert (a + b)[1..] == a[1..] + b;
      FilterAppend(a[1..], b, keep);
    }
  }

  /** A filter that keeps every row changes nothing. */
  lemma {:induction false} FilterKeepsAll<T>(s: seq<T>, keep: T -> bool)
    ensures (forall i :: 0 <= i < |s| ==> keep(s[i])) ==> Filter(s, keep) == s
  {
    if s != [] && forall i :: 0 <= i < |s| ==> keep(s[i]) {
      assert forall i :: 0 <= i < |s[1..]| ==> keep(s[1..][i]) by {
        forall i | 0 <= i < |s[1..]| ensures keep(s[1..][i]) {
          assert s[1..][i] == s[i + 1];
        }
      }
      FilterKeepsAll(s[1..], keep);
    }
  }

  /** A filter that rejects every row keeps none. */
  lemma FilterRejectsAll<T>(s: seq<T>, keep: T -> bool)
    ensures (forall i :: 0 <= i < |s| ==> !keep(s[i])) ==> Filter(s, keep) == []
  {
  }

  /** A filter that rejects exactly the row at index `k` removes that row and
      keeps the others in order. */
  lemma {:induction false} FilterDropsOne<T>(s: seq<T>, keep: T -> bool, k: nat)
    requires k < |s| && !keep(s[k])
    requires forall j :: 0 <= j < |s| && j != k ==> keep(s[j])
    ensures Filter(s, keep) == s[..k] + s[k + 1..]
  {
    var tail := s[1..];
    assert forall j :: 0 <= j < |tail| ==> tail[j] == s[j + 1];
    if k == 0 {
      FilterKeepsAll(tail, keep);
      assert Filter(s, keep) == Filter(tail, keep);
    } else {
      FilterDropsOne(tail, keep, k - 1);
      assert Filter(s, keep) == [s[0]] + Filter(tail, keep);
      assert tail[..k - 1] == s[1..k];
      assert tail[k..] == s[k + 1..];
      assert [s[0]] + s[1..k] == s[..k];
    }
  }

  /** The index of the first row that `sel` matches, if any (a `findOne`). */
  function FirstIndex<T>(s: seq<T>, sel: T -> bool): (r: Option<nat>)
    ensures r.Some? ==> r.value < |s| && sel(s[r.value])
    ensures r.Some? ==> forall j :: 0 <= j < r.value ==> !sel(s[j])
    ensures r.None? <==> forall j :: 0 <= j < |s| ==> !sel(s[j])
  {
    if s == [] then None
    else if sel(s[0]) then Some(0)
    else match FirstIndex(s[1..], sel)
      case None => None
      case Some(k) => Some(k + 1)
  }

  /** The only row `sel` matches is the first one. */
  lemma FirstIndexOfUnique<T>(s: seq<T>, sel: T -> bool, k: nat)
    requires k < |s| && sel(s[k])
    requires forall j :: 0 <= j < |s| && j != k ==> !sel(s[j])
    ensures FirstIndex(s, sel) == Some(k)
  {
  }

  /** Primary keys are distinct. */
  predicate UniqueKeys<T>(s: seq<T>, key: T -> Id) {
    forall i, j :: 0 <= i < j < |s| ==> key(s[i]) != key(s[j])
  }

  /** Every key is below the next one the counter hands out. */
  predicate KeysBelow<T>(s: seq<T>, key: T -> Id, bound: Id) {
    forall i :: 0 <= i < |s| ==> key(s[i]) < bound
  }

  /** Taking out the row at `k` keeps every other row and keeps the keys
      distinct and below the bound. */
  lemma RemoveAtKeeps<T>(s: seq<T>, k: nat, key: T -> Id, bound: Id)
    requires k < |s| && UniqueKeys(s, key) && KeysBelow(s, key, bound)
    ensures UniqueKeys(s[..k] + s[k + 1..], key) && KeysBelow(s[..k] + s[k + 1..], key, bound)
    ensures forall i :: 0 <= i < |s| && i != k ==> s[i] in s[..k] + s[k + 1..]
  {
    var rest := s[..k] + s[k + 1..];
    assert forall i :: 0 <= i < |rest| ==> rest[i] == s[if i < k then i else i + 1];
    forall i | 0 <= i < |s| && i != k
      ensures s[i] in rest
    {
      assert rest[if i < k then i else i - 1] == s[i];
    }
  }

  /** Every row that `sel` matches replaced by `f` of it (an `update` with a
      where-filter); the others are left as they are. */
  function MapWhere<T>(s: seq<T>, sel: T -> bool, f: T -> T): (r: seq<T>)
    ensures |r| == |s|
    ensures forall i :: 0 <= i < |s| ==> r[i] == if sel(s[i]) then f(s[i]) else s[i]
  {
    if s == [] then []
    else [if sel(s[0]) then f(s[0]) else s[0]] + MapWhere(s[1..], sel, f)
  }
}
