/**
 * The array idioms the scripts share: a JavaScript `Set` kept as its
 * insertion-ordered contents (`new Set`, `add`, `Array.from`), `slice(0, n)`
 * and `filter(Boolean)`.
 */
module Collections {
  import opened Wrappers

  predicate NoDup<T(==,!new)>(s: seq<T>) {
    forall i, j :: 0 <= i < j < |s| ==> s[i] != s[j]
  }

  /** `set.add(x)`: a value already present keeps its place, a new one goes last. */
  function Insert<T(==,!new)>(acc: seq<T>, x: T): (r: seq<T>)
    ensures NoDup(acc) ==> NoDup(r)
    ensures forall y :: y in r <==> y in acc || y == x
    ensures acc <= r && |r| <= |acc| + 1
    ensures x in acc ==> r == acc
  {
    if x in acc then acc else acc + [x]
  }

  /** Adding the values of `xs` in order to a set holding `acc`. */
  function AddAll<T(==,!new)>(acc: seq<T>, xs: seq<T>): (r: seq<T>)
    ensures NoDup(acc) ==> NoDup(r)
    ensures forall y :: y in r <==> y in acc || y in xs
    ensures acc <= r && |r| <= |acc| + |xs|
    decreases |xs|
  {
    if xs == [] then acc else AddAll(Insert(acc, xs[0]), xs[1..])
  }

  /** Adding `xs + ys` is adding `xs`, then `ys`. */
  lemma {:induction false} AddAllConcat<T(!new)>(acc: seq<T>, xs: seq<T>, ys: seq<T>)
    ensures AddAll(acc, xs + ys) == AddAll(AddAll(acc, xs), ys)
    decreases |xs|
  {
    if xs == [] {
      assert xs + ys == ys;
    } else {
      assert (xs + ys)[0] == xs[0];
      assert (xs + ys)[1..] == xs[1..] + ys;
      AddAllConcat(Insert(acc, xs[0]), xs[1..], ys);
    }
  }

  /** Adding one more value after `xs` is inserting it into the result. */
  lemma AddAllSnoc<T(!new)>(acc: seq<T>, xs: seq<T>, x: T)
    ensures AddAll(acc, xs + [x]) == Insert(AddAll(acc, xs), x)
  {
    AddAllConcat(acc, xs, [x]);
    assert AddAll(AddAll(acc, xs), [x]) == AddAll(Insert(AddAll(acc, xs), x), []);
  }

  /**
   * What adding to a set appends after the values it held: values it did
   * not hold, each once.
   */
  lemma {:induction false} AddAllFresh<T(!new)>(acc: seq<T>, xs: seq<T>)
    ensures forall i :: |acc| <= i < |AddAll(acc, xs)| ==> AddAll(acc, xs)[i] !in acc
    ensures forall i, j :: |acc| <= i < j < |AddAll(acc, xs)| ==> AddAll(acc, xs)[i] != AddAll(acc, xs)[j]
    decreases |xs|
  {
    if xs != [] {
      var acc' := Insert(acc, xs[0]);
      var r := AddAll(acc, xs);
      assert r == AddAll(acc', xs[1..]);
      AddAllFresh(acc', xs[1..]);
      assert r[..|acc'|] == acc';
      if xs[0] !in acc {
        assert acc' == acc + [xs[0]];
        forall i, j | |acc| <= i < j < |r| ensures r[i] != r[j] {
          if i == |acc| {
            assert r[i] == xs[0] && xs[0] in acc';
          }
        }
      }
    }
  }

  /** `Array.from(new Set(xs))`: the distinct values of `xs`, in order of first occurrence. */
  function Distinct<T(==,!new)>(xs: seq<T>): (r: seq<T>)
    ensures NoDup(r)
    ensures forall y :: y in r <==> y in xs
    ensures |r| <= |xs|
  {
    AddAll([], xs)
  }

  /** A list without repeats is its own set. */
  lemma {:induction false} AddAllNoDup<T(!new)>(acc: seq<T>, xs: seq<T>)
    requires NoDup(acc + xs)
    ensures AddAll(acc, xs) == acc + xs
    decreases |xs|
  {
    if xs != [] {
      assert xs[0] !in acc by {
        forall i | 0 <= i < |acc| ensures acc[i] != xs[0] {
          assert (acc + xs)[i] == acc[i] && (acc + xs)[|acc|] == xs[0];
        }
      }
      assert acc + xs == (acc + [xs[0]]) + xs[1..];
      AddAllNoDup(acc + [xs[0]], xs[1..]);
    }
  }

  /** Taking the distinct values twice changes nothing. */
  lemma DistinctIdempotent<T(!new)>(xs: seq<T>)
    ensures Distinct(Distinct(xs)) == Distinct(xs)
  {
    assert [] + Distinct(xs) == Distinct(xs);
    AddAllNoDup([], Distinct(xs));
  }

  /**
   * `Array.from(set).slice(0, n)` for a set built from `xs`: distinct values
   * of `xs` in order of first occurrence, at most `n`; all of them when
   * there are no more than `n`.
   */
  function TakeDistinct<T(==,!new)>(xs: seq<T>, n: nat): (r: seq<T>)
    ensures NoDup(r) && |r| <= n
    ensures forall t :: t in r ==> t in xs
    ensures r <= Distinct(xs)
    ensures |Distinct(xs)| <= n ==> forall t :: t in xs ==> t in r
    ensures |r| == if |Distinct(xs)| <= n then |Distinct(xs)| else n
  {
    var all := Distinct(xs);
    var r := Take(all, n);
    assert forall i, j :: 0 <= i < j < |r| ==> r[i] == all[i] && r[j] == all[j];
    r
  }

  /** `s.slice(0, n)` for `n >= 0`. */
  function Take<T>(s: seq<T>, n: nat): (r: seq<T>)
    ensures |r| == if n <= |s| then n else |s|
    ensures r <= s
    ensures forall x :: x in r ==> x in s
  {
    if n <= |s| then s[..n] else s
  }

  /** `xs.filter(Boolean)` on strings: the non-empty ones, in order. */
  function Compact(xs: seq<string>): (r: seq<string>)
    ensures forall y :: y in r <==> y in xs && y != ""
    ensures |r| <= |xs|
  {
    if xs == [] then [] else (if xs[0] != "" then [xs[0]] else []) + Compact(xs[1..])
  }

  lemma {:induction false} CompactSnoc(xs: seq<string>, x: string)
    ensures Compact(xs + [x]) == Compact(xs) + (if x != "" then [x] else [])
    decreases |xs|
  {
    if xs == [] {
      assert [] + [x] == [x];
    } else {
      assert (xs + [x])[1..] == xs[1..] + [x];
      CompactSnoc(xs[1..], x);
    }
  }

  /** `xs.filter(Boolean)` on values that may be `null`/`undefined`. */
  function CompactOpt(xs: seq<Option<string>>): (r: seq<string>)
    ensures forall y :: y in r <==> Some(y) in xs && y != ""
    ensures |r| <= |xs|
  {
    if xs == [] then []
    else (if xs[0].Some? && xs[0].value != "" then [xs[0].value] else []) + CompactOpt(xs[1..])
  }
}
