/**
 * The in-batch deduplication several scripts share: a JavaScript `Map` from
 * a key to the best record seen so far, kept in insertion order.
 *
 *   const existing = map.get(key);
 *   if (!existing || rating(record) > rating(existing)) map.set(key, record);
 *   ...
 *   Array.from(map.values())
 *
 * A `Map` is its list of entries; `set` on a present key replaces the value
 * where it stands.
 */
module KeyedDedupe {
  import opened Wrappers
  import opened Collections

  function KeysOf<K, V>(es: seq<(K, V)>): (r: seq<K>)
    ensures |r| == |es| && forall i :: 0 <= i < |es| ==> r[i] == es[i].0
  {
    seq(|es|, i requires 0 <= i < |es| => es[i].0)
  }

  function ValuesOf<K, V>(es: seq<(K, V)>): (r: seq<V>)
    ensures |r| == |es| && forall i :: 0 <= i < |es| ==> r[i] == es[i].1
  {
    seq(|es|, i requires 0 <= i < |es| => es[i].1)
  }

  lemma KeysOfSnoc<K, V>(es: seq<(K, V)>, e: (K, V))
    ensures KeysOf(es + [e]) == KeysOf(es) + [e.0]
  {
  }

  /** `map.get(key)`: where the key's entry stands. */
  function IndexOf<K(==), V>(es: seq<(K, V)>, k: K): (r: Option<nat>)
    ensures r.None? <==> forall i :: 0 <= i < |es| ==> es[i].0 != k
    ensures r.Some? ==> r.value < |es| && es[r.value].0 == k
    decreases |es|
  {
    if es == [] then None
    else if es[0].0 == k then Some(0)
    else
      match IndexOf(es[1..], k)
      case None => None
      case Some(i) => Some(i + 1)
  }

  /** One offer: a new key is appended; a present one takes the record only when it is strictly better rated. */
  function Offer<K(==,!new), V>(es: seq<(K, V)>, k: K, v: V, rating: V -> real): seq<(K, V)> {
    match IndexOf(es, k)
    case None => es + [(k, v)]
    case Some(i) => if rating(v) > rating(es[i].1) then es[i := (k, v)] else es
  }

  /** An offer adds its key to the keys when it is new, and leaves them as they are otherwise. */
  lemma OfferKeys<K(!new), V>(es: seq<(K, V)>, k: K, v: V, rating: V -> real)
    ensures KeysOf(Offer(es, k, v, rating)) == Insert(KeysOf(es), k)
  {
    match IndexOf(es, k)
    case None =>
      assert KeysOf(es + [(k, v)]) == KeysOf(es) + [k];
    case Some(i) =>
      assert k in KeysOf(es) by { assert KeysOf(es)[i] == k; }
      assert KeysOf(es[i := (k, v)]) == KeysOf(es);
  }

  /** The map after the loop has offered every `(key, record)` pair, in order. */
  function Build<K(==,!new), V>(pairs: seq<(K, V)>, rating: V -> real): (r: seq<(K, V)>)
    decreases |pairs|
  {
    if pairs == [] then []
    else
      var last := pairs[|pairs| - 1];
      Offer(Build(pairs[..|pairs| - 1], rating), last.0, last.1, rating)
  }

  lemma BuildSnoc<K(!new), V>(pairs: seq<(K, V)>, i: nat, rating: V -> real)
    requires i < |pairs|
    ensures Build(pairs[..i + 1], rating) == Offer(Build(pairs[..i], rating), pairs[i].0, pairs[i].1, rating)
  {
    assert pairs[..i + 1][..i] == pairs[..i];
  }

  /** There is one entry per distinct key, in order of the key's first appearance. */
  lemma {:induction false} BuildKeys<K(!new), V>(pairs: seq<(K, V)>, rating: V -> real)
    ensures KeysOf(Build(pairs, rating)) == Distinct(KeysOf(pairs))
    decreases |pairs|
  {
    if pairs != [] {
      var n := |pairs| - 1;
      var before := pairs[..n];
      BuildKeys(before, rating);
      OfferKeys(Build(before, rating), pairs[n].0, pairs[n].1, rating);
      assert pairs == before + [pairs[n]];
      KeysOfSnoc(before, pairs[n]);
      var ks := KeysOf(before);
      AddAllConcat([], ks, [pairs[n].0]);
      assert AddAll(Distinct(ks), [pairs[n].0]) == Insert(Distinct(ks), pairs[n].0);
    }
  }

  /**
   * The pair at `i` is what the map keeps for its key: no pair with that key
   * is better rated, and every earlier one is strictly worse (the first of
   * equally rated pairs wins).
   */
  ghost predicate WinsAt<K, V>(pairs: seq<(K, V)>, i: nat, rating: V -> real)
    requires i < |pairs|
  {
    (forall j :: 0 <= j < |pairs| && pairs[j].0 == pairs[i].0 ==> rating(pairs[j].1) <= rating(pairs[i].1))
    && (forall j :: 0 <= j < i && pairs[j].0 == pairs[i].0 ==> rating(pairs[j].1) < rating(pairs[i].1))
  }

  /** The entry `e` is the winning pair of its key. */
  ghost predicate Winner<K, V>(pairs: seq<(K, V)>, e: (K, V), rating: V -> real) {
    exists i :: 0 <= i < |pairs| && pairs[i] == e && WinsAt(pairs, i, rating)
  }

  /** Every entry of the map is the winning pair of its key. */
  ghost predicate AllWinners<K, V>(pairs: seq<(K, V)>, es: seq<(K, V)>, rating: V -> real) {
    forall p :: 0 <= p < |es| ==> Winner(pairs, es[p], rating)
  }

  /** A winner stays a winner when a pair of another key, or a no better one, arrives. */
  lemma StillWins<K, V>(pairs: seq<(K, V)>, x: (K, V), i: nat, rating: V -> real)
    requires i < |pairs| && WinsAt(pairs, i, rating)
    requires x.0 != pairs[i].0 || rating(x.1) <= rating(pairs[i].1)
    ensures WinsAt(pairs + [x], i, rating)
  {
    var ps := pairs + [x];
    assert forall j :: 0 <= j < |pairs| ==> ps[j] == pairs[j];
  }

  /** The arriving pair wins when every earlier pair of its key is strictly worse. */
  lemma NewWins<K, V>(pairs: seq<(K, V)>, x: (K, V), rating: V -> real)
    requires forall j :: 0 <= j < |pairs| && pairs[j].0 == x.0 ==> rating(pairs[j].1) < rating(x.1)
    ensures WinsAt(pairs + [x], |pairs|, rating)
  {
    var ps := pairs + [x];
    assert forall j :: 0 <= j < |pairs| ==> ps[j] == pairs[j];
  }

  lemma {:induction false} BuildWinners<K(!new), V>(pairs: seq<(K, V)>, rating: V -> real)
    ensures AllWinners(pairs, Build(pairs, rating), rating)
    decreases |pairs|
  {
    if pairs != [] {
      var n := |pairs| - 1;
      var before := pairs[..n];
      var x := pairs[n];
      assert pairs == before + [x];
      BuildWinners(before, rating);
      BuildKeys(before, rating);
      OfferWinners(before, Build(before, rating), x, rating);
      assert Build(pairs, rating) == Offer(Build(before, rating), x.0, x.1, rating);
    }
  }

  /** Offering one more pair keeps every entry the winner of its key. */
  lemma OfferWinners<K(!new), V>(before: seq<(K, V)>, es: seq<(K, V)>, x: (K, V), rating: V -> real)
    requires AllWinners(before, es, rating) && KeysOf(es) == Distinct(KeysOf(before))
    ensures AllWinners(before + [x], Offer(es, x.0, x.1, rating), rating)
  {
    var r := Offer(es, x.0, x.1, rating);
    forall p | 0 <= p < |r| ensures Winner(before + [x], r[p], rating) {
      OfferEntry(before, es, x, rating, p);
    }
  }

  /** One entry of the map after one more offer. */
  lemma OfferEntry<K(!new), V>(before: seq<(K, V)>, es: seq<(K, V)>, x: (K, V), rating: V -> real, p: nat)
    requires AllWinners(before, es, rating) && KeysOf(es) == Distinct(KeysOf(before))
    requires p < |Offer(es, x.0, x.1, rating)|
    ensures Winner(before + [x], Offer(es, x.0, x.1, rating)[p], rating)
  {
    var r := Offer(es, x.0, x.1, rating);
    var pairs := before + [x];
    var n := |before|;
    match IndexOf(es, x.0)
    case None =>
      if p < |es| {
        var i :| 0 <= i < n && before[i] == es[p] && WinsAt(before, i, rating);
        StillWins(before, x, i, rating);
        assert pairs[i] == r[p];
      } else {
        assert x.0 !in KeysOf(es) by {
          forall t | 0 <= t < |es| ensures KeysOf(es)[t] != x.0 {
            assert KeysOf(es)[t] == es[t].0;
          }
        }
        forall j | 0 <= j < n ensures before[j].0 != x.0 {
          assert KeysOf(before)[j] == before[j].0;
        }
        NewWins(before, x, rating);
        assert pairs[n] == r[p];
      }
    case Some(q) =>
      var i :| 0 <= i < n && before[i] == es[q] && WinsAt(before, i, rating);
      if p == q && rating(x.1) > rating(es[q].1) {
        NewWins(before, x, rating);
        assert pairs[n] == r[p];
      } else {
        var i' :| 0 <= i' < n && before[i'] == es[p] && WinsAt(before, i', rating);
        assert r[p] == es[p];
        if es[p].0 == x.0 {
          assert KeysOf(es)[p] == KeysOf(es)[q];
          assert p == q;
        }
        StillWins(before, x, i', rating);
        assert pairs[i'] == r[p];
      }
  }

  /** `Array.from(map.values())` after the loop. */
  function Dedupe<K(==,!new), V>(pairs: seq<(K, V)>, rating: V -> real): (r: seq<V>)
    ensures |r| == |Distinct(KeysOf(pairs))|
  {
    BuildKeys(pairs, rating);
    ValuesOf(Build(pairs, rating))
  }

  /**
   * What the loop promises: entry `p` holds the `p`-th distinct key in order
   * of first appearance, and its record is that key's winning pair.
   */
  lemma DedupeKeepsWinners<K(!new), V>(pairs: seq<(K, V)>, rating: V -> real, p: nat)
    requires p < |Dedupe(pairs, rating)|
    ensures exists i :: (0 <= i < |pairs| && pairs[i] == (Distinct(KeysOf(pairs))[p], Dedupe(pairs, rating)[p])
      && WinsAt(pairs, i, rating))
  {
    BuildKeys(pairs, rating);
    BuildWinners(pairs, rating);
    var es := Build(pairs, rating);
    assert es[p] == (KeysOf(es)[p], ValuesOf(es)[p]);
  }

  /** Two records under one key: the second replaces the first only when strictly better rated. */
  lemma SameKeyPair<K(!new), V>(x: (K, V), y: (K, V), rating: V -> real)
    requires x.0 == y.0
    ensures Dedupe([x, y], rating) == [if rating(y.1) > rating(x.1) then y.1 else x.1]
  {
    assert [x, y][..1] == [x];
    assert [x][..0] == [];
    assert Build([x], rating) == [x];
  }

  /** The same for any list of two pairs that share their key. */
  lemma SameKeyTwo<K(!new), V>(pairs: seq<(K, V)>, rating: V -> real)
    requires |pairs| == 2 && pairs[0].0 == pairs[1].0
    ensures Dedupe(pairs, rating) == [if rating(pairs[1].1) > rating(pairs[0].1) then pairs[1].1 else pairs[0].1]
  {
    assert pairs == [pairs[0], pairs[1]];
    SameKeyPair(pairs[0], pairs[1], rating);
  }

  /** The loop over the pairs, filling the map. */
  method DedupeLoop<K(==,!new), V>(pairs: seq<(K, V)>, rating: V -> real) returns (values: seq<V>)
    ensures values == Dedupe(pairs, rating)
  {
    var entries: seq<(K, V)> := [];
    var i := 0;
    while i < |pairs|
      invariant 0 <= i <= |pairs|
      invariant entries == Build(pairs[..i], rating)
    {
      BuildSnoc(pairs, i, rating);
      var k, v := pairs[i].0, pairs[i].1;
      var at := IndexOf(entries, k);
      if at.None? {
        entries := entries + [(k, v)];
      } else if rating(v) > rating(entries[at.value].1) {
        entries := entries[at.value := (k, v)];
      }
      i := i + 1;
    }
    assert pairs[..|pairs|] == pairs;
    values := ValuesOf(entries);
  }

  /** `map.set(k, v)` with no condition: a new key is appended, a present one takes `v` where it stands. */
  function Put<K(==,!new), V>(es: seq<(K, V)>, k: K, v: V): seq<(K, V)> {
    match IndexOf(es, k)
    case None => es + [(k, v)]
    case Some(i) => es[i := (k, v)]
  }

  /** `set` adds its key to the keys when it is new, and leaves them as they are otherwise. */
  lemma PutKeys<K(!new), V>(es: seq<(K, V)>, k: K, v: V)
    ensures KeysOf(Put(es, k, v)) == Insert(KeysOf(es), k)
  {
    match IndexOf(es, k)
    case None =>
      assert KeysOf(es + [(k, v)]) == KeysOf(es) + [k];
    case Some(i) =>
      assert k in KeysOf(es) by { assert KeysOf(es)[i] == k; }
      assert KeysOf(es[i := (k, v)]) == KeysOf(es);
  }

  /** The map after `set` was called with every pair, in order. */
  function PutAll<K(==,!new), V>(pairs: seq<(K, V)>): (r: seq<(K, V)>)
    decreases |pairs|
  {
    if pairs == [] then []
    else
      var last := pairs[|pairs| - 1];
      Put(PutAll(pairs[..|pairs| - 1]), last.0, last.1)
  }

  lemma PutAllSnoc<K(!new), V>(pairs: seq<(K, V)>, i: nat)
    requires i < |pairs|
    ensures PutAll(pairs[..i + 1]) == Put(PutAll(pairs[..i]), pairs[i].0, pairs[i].1)
  {
    assert pairs[..i + 1][..i] == pairs[..i];
  }

  /** `map.set(k, v)` for every pair in turn: the map's entries, in insertion order. */
  method SetAll<K(==,!new), V>(pairs: seq<(K, V)>) returns (entries: seq<(K, V)>)
    ensures entries == PutAll(pairs)
  {
    entries := [];
    var i := 0;
    while i < |pairs|
      invariant 0 <= i <= |pairs|
      invariant entries == PutAll(pairs[..i])
    {
      PutAllSnoc(pairs, i);
      entries := Put(entries, pairs[i].0, pairs[i].1);
      i := i + 1;
    }
    assert pairs[..|pairs|] == pairs;
  }

  /** One entry per distinct key, in order of the key's first appearance. */
  lemma {:induction false} PutAllKeys<K(!new), V>(pairs: seq<(K, V)>)
    ensures KeysOf(PutAll(pairs)) == Distinct(KeysOf(pairs))
    decreases |pairs|
  {
    if pairs != [] {
      var n := |pairs| - 1;
      var before := pairs[..n];
      PutAllKeys(before);
      PutKeys(PutAll(before), pairs[n].0, pairs[n].1);
      assert pairs == before + [pairs[n]];
      KeysOfSnoc(before, pairs[n]);
      var ks := KeysOf(before);
      AddAllConcat([], ks, [pairs[n].0]);
      assert AddAll(Distinct(ks), [pairs[n].0]) == Insert(Distinct(ks), pairs[n].0);
    }
  }

  /** No later pair shares the key of the pair at `i`. */
  ghost predicate LastAt<K, V>(pairs: seq<(K, V)>, i: nat)
    requires i < |pairs|
  {
    forall j :: i < j < |pairs| ==> pairs[j].0 != pairs[i].0
  }

  /** The entry `e` is a pair that was set, and no later pair had its key. */
  ghost predicate SetLast<K, V>(pairs: seq<(K, V)>, e: (K, V)) {
    exists i :: 0 <= i < |pairs| && pairs[i] == e && LastAt(pairs, i)
  }

  /** Every entry of the map is a pair that was set, and no later pair had its key. */
  ghost predicate AllLast<K, V>(pairs: seq<(K, V)>, es: seq<(K, V)>) {
    forall p :: 0 <= p < |es| ==> SetLast(pairs, es[p])
  }

  /** A pair stays the last of its key when a pair of another key arrives. */
  lemma StillLast<K, V>(pairs: seq<(K, V)>, x: (K, V), i: nat)
    requires i < |pairs| && LastAt(pairs, i) && x.0 != pairs[i].0
    ensures LastAt(pairs + [x], i)
  {
    var ps := pairs + [x];
    assert forall j :: 0 <= j < |pairs| ==> ps[j] == pairs[j];
  }

  /** One entry of the map after one more `set`. */
  lemma PutEntry<K(!new), V>(before: seq<(K, V)>, es: seq<(K, V)>, x: (K, V), p: nat)
    requires AllLast(before, es) && KeysOf(es) == Distinct(KeysOf(before))
    requires p < |Put(es, x.0, x.1)|
    ensures SetLast(before + [x], Put(es, x.0, x.1)[p])
  {
    var r := Put(es, x.0, x.1);
    var pairs := before + [x];
    var n := |before|;
    if p == |es| || (IndexOf(es, x.0).Some? && p == IndexOf(es, x.0).value) {
      assert pairs[n] == r[p] && LastAt(pairs, n);
    } else {
      var i :| 0 <= i < n && before[i] == es[p] && LastAt(before, i);
      assert r[p] == es[p];
      StillLast(before, x, i);
      assert pairs[i] == r[p];
    }
  }

  lemma {:induction false} PutAllLast<K(!new), V>(pairs: seq<(K, V)>)
    ensures AllLast(pairs, PutAll(pairs))
    decreases |pairs|
  {
    if pairs != [] {
      var n := |pairs| - 1;
      var before := pairs[..n];
      var x := pairs[n];
      assert pairs == before + [x];
      PutAllLast(before);
      PutAllKeys(before);
      PutLast(before, PutAll(before), x);
      assert PutAll(pairs) == Put(PutAll(before), x.0, x.1);
    }
  }

  /** One more `set` keeps every entry the last value set for its key. */
  lemma PutLast<K(!new), V>(before: seq<(K, V)>, es: seq<(K, V)>, x: (K, V))
    requires AllLast(before, es) && KeysOf(es) == Distinct(KeysOf(before))
    ensures AllLast(before + [x], Put(es, x.0, x.1))
  {
    var r := Put(es, x.0, x.1);
    forall p | 0 <= p < |r| ensures SetLast(before + [x], r[p]) {
      PutEntry(before, es, x, p);
    }
  }

  /**
   * `Array.from(map.values())` after the `set` loop: entry `p` holds the
   * `p`-th distinct key, and its value is the last one set for that key.
   */
  lemma PutAllKeepsLast<K(!new), V>(pairs: seq<(K, V)>, p: nat)
    requires p < |PutAll(pairs)|
    ensures |PutAll(pairs)| == |Distinct(KeysOf(pairs))|
    ensures exists i :: (0 <= i < |pairs| && pairs[i] == (Distinct(KeysOf(pairs))[p], ValuesOf(PutAll(pairs))[p])
      && LastAt(pairs, i))
  {
    PutAllKeys(pairs);
    PutAllLast(pairs);
    var es := PutAll(pairs);
    assert es[p] == (KeysOf(es)[p], ValuesOf(es)[p]);
  }

  /** When no key repeats, every `set` appends: the map is the pairs themselves. */
  lemma {:induction false} PutAllFreshKeys<K(!new), V>(pairs: seq<(K, V)>)
    requires NoDup(KeysOf(pairs))
    ensures PutAll(pairs) == pairs
    decreases |pairs|
  {
    if pairs != [] {
      var n := |pairs| - 1;
      var before := pairs[..n];
      assert KeysOf(before) == KeysOf(pairs)[..n];
      PutAllFreshKeys(before);
      forall j | 0 <= j < n ensures before[j].0 != pairs[n].0 {
        assert KeysOf(pairs)[j] == before[j].0 && KeysOf(pairs)[n] == pairs[n].0;
      }
      assert before + [pairs[n]] == pairs;
    }
  }
}
