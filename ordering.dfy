/**
 * `ORDER BY key ASC` as the store evaluates it for the two list queries: a stable
 * insertion sort by an integer key. The list queries use it with the creation time
 * (ascending) and the negated update time (descending).
 */
module Ordering {

  predicate SortedBy<T>(s: seq<T>, key: T -> int)
  {
    forall i, j :: 0 <= i < j < |s| ==> key(s[i]) <= key(s[j])
  }

  function InsertBy<T(==)>(x: T, s: seq<T>, key: T -> int): (r: seq<T>)
    requires SortedBy(s, key)
    ensures SortedBy(r, key)
    ensures multiset(r) == multiset(s) + multiset{x}
    ensures forall i :: 0 <= i < |r| ==> r[i] == x || r[i] in s
  {
    if s == [] then [x]
    else if key(x) <= key(s[0]) then
      [x] + s
    else
      var tail := s[1..];
      var r' := InsertBy(x, tail, key);
      assert s == [s[0]] + tail;
      LowerBound(s[0], x, tail, r', key);
      SortedCons(s[0], r', key);
      assert multiset([s[0]] + r') == multiset{s[0]} + multiset(r');
      [s[0]] + r'
  }

  /** Every element of `r`, drawn from `x` and `tail`, is at least `h`. */
  lemma LowerBound<T>(h: T, x: T, tail: seq<T>, r: seq<T>, key: T -> int)
    requires key(h) <= key(x)
    requires forall j :: 0 <= j < |tail| ==> key(h) <= key(tail[j])
    requires forall i :: 0 <= i < |r| ==> r[i] == x || r[i] in tail
    ensures forall i :: 0 <= i < |r| ==> key(h) <= key(r[i])
  {
    forall i | 0 <= i < |r| ensures key(h) <= key(r[i]) {
      if r[i] != x {
        var j :| 0 <= j < |tail| && tail[j] == r[i];
      }
    }
  }

  lemma SortedCons<T>(h: T, r: seq<T>, key: T -> int)
    requires SortedBy(r, key)
    requires forall i :: 0 <= i < |r| ==> key(h) <= key(r[i])
    ensures SortedBy([h] + r, key)
  {
    var s := [h] + r;
    forall i, j | 0 <= i < j < |s| ensures key(s[i]) <= key(s[j]) {
      assert s[j] == r[j - 1];
      if i > 0 {
        assert s[i] == r[i - 1];
      }
    }
  }

  function SortBy<T(==)>(s: seq<T>, key: T -> int): (r: seq<T>)
    ensures SortedBy(r, key)
    ensures multiset(r) == multiset(s)
  {
    if s == [] then []
    else
      assert s == [s[0]] + s[1..];
      InsertBy(s[0], SortBy(s[1..], key), key)
  }
}
