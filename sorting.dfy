/**
 * `Array.prototype.sort` with a comparator that orders by up to three numeric
 * keys, and `ORDER BY a DESC, b DESC`. A comparator `cmp` is modelled by the
 * key triple it compares lexicographically (descending keys are negated);
 * the sort is a stable insertion sort, like the JavaScript sort.
 */
module Sorting {
  datatype Key = Key(k1: real, k2: real, k3: real)

  /** `a` may come before `b`. */
  predicate KeyLe(a: Key, b: Key) {
    a.k1 < b.k1 || (a.k1 == b.k1 && (a.k2 < b.k2 || (a.k2 == b.k2 && a.k3 <= b.k3)))
  }

  /** `a` must come before `b`. */
  predicate KeyLt(a: Key, b: Key) {
    KeyLe(a, b) && a != b
  }

  lemma KeyLeTotal(a: Key, b: Key)
    ensures KeyLe(a, b) || KeyLe(b, a)
  {
  }

  lemma KeyLeTrans(a: Key, b: Key, c: Key)
    requires KeyLe(a, b) && KeyLe(b, c)
    ensures KeyLe(a, c)
  {
  }

  predicate SortedBy<T>(s: seq<T>, key: T -> Key) {
    forall i, j :: 0 <= i < j < |s| ==> KeyLe(key(s[i]), key(s[j]))
  }

  lemma PrependSmallest<T>(x: T, s: seq<T>, key: T -> Key)
    requires SortedBy(s, key)
    requires s == [] || KeyLe(key(x), key(s[0]))
    ensures SortedBy([x] + s, key)
  {
    var r := [x] + s;
    forall i, j | 0 <= i < j < |r| ensures KeyLe(key(r[i]), key(r[j])) {
      if i == 0 && j > 1 {
        KeyLeTrans(key(x), key(s[0]), key(s[j - 1]));
      }
    }
  }

  lemma PrependBelowAll<T>(y: T, t: seq<T>, key: T -> Key)
    requires SortedBy(t, key)
    requires forall k :: 0 <= k < |t| ==> KeyLe(key(y), key(t[k]))
    ensures SortedBy([y] + t, key)
  {
  }

  /** `x` goes before the first element that is not strictly smaller than it. */
  function InsertSorted<T>(x: T, s: seq<T>, key: T -> Key): (r: seq<T>)
    requires SortedBy(s, key)
    ensures SortedBy(r, key)
    ensures multiset(r) == multiset(s) + multiset{x}
    ensures |r| == |s| + 1
    decreases |s|
  {
    if s == [] || KeyLe(key(x), key(s[0])) then
      PrependSmallest(x, s, key);
      [x] + s
    else
      KeyLeTotal(key(x), key(s[0]));
      var tail := InsertSorted(x, s[1..], key);
      assert s == [s[0]] + s[1..];
      forall k | 0 <= k < |tail| ensures KeyLe(key(s[0]), key(tail[k])) {
        assert tail[k] in multiset(s[1..]) + multiset{x};
        if tail[k] != x {
          assert tail[k] in s[1..];
        }
      }
      PrependBelowAll(s[0], tail, key);
      [s[0]] + tail
  }

  /** `s.slice().sort(cmp)` where `cmp(a, b) < 0` exactly when `KeyLt(key(a), key(b))`. */
  function SortBy<T>(s: seq<T>, key: T -> Key): (r: seq<T>)
    ensures SortedBy(r, key)
    ensures multiset(r) == multiset(s)
    ensures |r| == |s|
    decreases |s|
  {
    if s == [] then []
    else
      assert s == [s[0]] + s[1..];
      InsertSorted(s[0], SortBy(s[1..], key), key)
  }

  /** Sorting keeps exactly the elements: `x` is in the result iff it is in the input. */
  lemma SortByMembers<T>(s: seq<T>, key: T -> Key, x: T)
    ensures x in SortBy(s, key) <==> x in s
  {
    var r := SortBy(s, key);
    assert x in r <==> x in multiset(r);
    assert x in s <==> x in multiset(s);
  }

  /** `s.filter(keep)` */
  function Filter<T(!new)>(s: seq<T>, keep: T -> bool): (r: seq<T>)
    ensures |r| <= |s|
    ensures forall i :: 0 <= i < |r| ==> keep(r[i])
    ensures multiset(r) <= multiset(s)
    ensures forall x :: x in r <==> x in s && keep(x)
    decreases |s|
  {
    if s == [] then []
    else
      var rest := Filter(s[1..], keep);
      assert s == [s[0]] + s[1..];
      if keep(s[0]) then [s[0]] + rest else rest
  }

  /** Filters applied one after the other are one filter by both tests. */
  lemma {:induction false} FilterThen<T(!new)>(s: seq<T>, a: T -> bool, b: T -> bool, c: T -> bool)
    requires forall x :: c(x) == (a(x) && b(x))
    ensures Filter(Filter(s, a), b) == Filter(s, c)
    decreases |s|
  {
    if s != [] {
      FilterThen(s[1..], a, b, c);
    }
  }

  /** A filter that keeps every element returns its input. */
  lemma {:induction false} FilterKeepsAll<T(!new)>(s: seq<T>, a: T -> bool)
    requires forall x :: a(x)
    ensures Filter(s, a) == s
    decreases |s|
  {
    if s != [] {
      FilterKeepsAll(s[1..], a);
      assert s == [s[0]] + s[1..];
    }
  }

  /** Two tests that agree everywhere filter alike. */
  lemma {:induction false} FilterSameTest<T(!new)>(s: seq<T>, a: T -> bool, b: T -> bool)
    requires forall x :: a(x) == b(x)
    ensures Filter(s, a) == Filter(s, b)
    decreases |s|
  {
    if s != [] {
      FilterSameTest(s[1..], a, b);
    }
  }

  /** `s.filter(keep).sort(cmp).slice(0, n)` */
  function TopBy<T(!new)>(s: seq<T>, keep: T -> bool, key: T -> Key, n: nat): (r: seq<T>)
    ensures |r| <= n
    ensures SortedBy(r, key)
    ensures forall x :: x in r ==> x in s && keep(x)
  {
    var sorted := SortBy(Filter(s, keep), key);
    var r := if n <= |sorted| then sorted[..n] else sorted;
    forall x | x in r ensures x in s && keep(x) {
      SortByMembers(Filter(s, keep), key, x);
    }
    r
  }

  /** An element that passes the filter but missed the cut is ordered after every one that made it. */
  lemma TopByBest<T(!new)>(s: seq<T>, keep: T -> bool, key: T -> Key, n: nat, c: T, t: T)
    requires c in s && keep(c) && c !in TopBy(s, keep, key, n)
    requires t in TopBy(s, keep, key, n)
    ensures KeyLe(key(t), key(c))
  {
    var sorted := SortBy(Filter(s, keep), key);
    SortByMembers(Filter(s, keep), key, c);
    var j :| 0 <= j < |sorted| && sorted[j] == c;
    var i :| 0 <= i < |TopBy(s, keep, key, n)| && TopBy(s, keep, key, n)[i] == t;
    assert TopBy(s, keep, key, n) == sorted[..n];
    assert sorted[i] == t && i < j;
  }

  /** With at most `n` elements passing the filter, all of them make the cut. */
  lemma TopByAll<T(!new)>(s: seq<T>, keep: T -> bool, key: T -> Key, n: nat, c: T)
    requires |Filter(s, keep)| <= n
    requires c in s && keep(c)
    ensures c in TopBy(s, keep, key, n)
  {
    SortByMembers(Filter(s, keep), key, c);
  }
}
