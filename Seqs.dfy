/**
 * The two list idioms the kiosk's chrome is built from: `Array.prototype.filter`
 * and "keep the first element seen for each key" (done with a `Map` in the
 * master store list and with a `Set` in the directory).
 */
module Seqs {

  /** `xs.filter(p)`: exactly the elements of `xs` that satisfy `p`. */
  function Filter<T(==)>(xs: seq<T>, p: T -> bool): (r: seq<T>)
    ensures |r| <= |xs|
    ensures forall i :: 0 <= i < |r| ==> r[i] in xs && p(r[i])
    ensures forall i :: 0 <= i < |xs| && p(xs[i]) ==> xs[i] in r
  {
    if xs == [] then [] else (if p(xs[0]) then [xs[0]] else []) + Filter(xs[1..], p)
  }

  /** Filtering keeps the input order: it distributes over concatenation. */
  lemma {:induction false} FilterConcat<T>(xs: seq<T>, ys: seq<T>, p: T -> bool)
    ensures Filter(xs + ys, p) == Filter(xs, p) + Filter(ys, p)
  {
    if xs == [] {
      assert xs + ys == ys;
    } else {
      assert (xs + ys)[1..] == xs[1..] + ys;
      FilterConcat(xs[1..], ys, p);
    }
  }

  /** Filtering with a predicate every element satisfies changes nothing. */
  lemma {:induction false} FilterAll<T>(xs: seq<T>, p: T -> bool)
    requires forall i :: 0 <= i < |xs| ==> p(xs[i])
    ensures Filter(xs, p) == xs
  {
    if xs != [] {
      FilterAll(xs[1..], p);
    }
  }

  /** Two tests that agree on every element filter alike. */
  lemma {:induction false} FilterAgree<T>(xs: seq<T>, p: T -> bool, q: T -> bool)
    requires forall i :: 0 <= i < |xs| ==> p(xs[i]) == q(xs[i])
    ensures Filter(xs, p) == Filter(xs, q)
  {
    if xs != [] {
      FilterAgree(xs[1..], p, q);
    }
  }

  /** The keys of the elements of `xs`. */
  function KeySet<T(==), K(==)>(xs: seq<T>, key: T -> K): set<K> {
    set x | x in xs :: key(x)
  }

  /** No two elements of `r` share a key. */
  predicate DistinctKeys<T(==), K(==)>(r: seq<T>, key: T -> K) {
    forall i, j :: 0 <= i < j < |r| ==> key(r[i]) != key(r[j])
  }

  /**
   * Keeps the first element for each key, in input order. It is defined from the
   * back because that is the order in which a left-to-right loop extends it.
   */
  function DedupeBy<T(==), K(==)>(xs: seq<T>, key: T -> K): (r: seq<T>)
    ensures DistinctKeys(r, key)
    ensures KeySet(r, key) == KeySet(xs, key)
    ensures forall i :: 0 <= i < |r| ==> r[i] in xs
    ensures |r| <= |xs|
  {
    if xs == [] then []
    else
      var init := xs[..|xs| - 1];
      var x := xs[|xs| - 1];
      var d := DedupeBy(init, key);
      assert xs == init + [x];
      assert KeySet(xs, key) == KeySet(init, key) + {key(x)};
      if key(x) in KeySet(init, key) then d
      else
        assert forall i :: 0 <= i < |d| ==> key(d[i]) in KeySet(d, key);
        assert KeySet(d + [x], key) == KeySet(d, key) + {key(x)};
        d + [x]
  }

  /** One more element adds its key to the key set. */
  lemma KeySetStep<T, K>(xs: seq<T>, key: T -> K, i: nat)
    requires i < |xs|
    ensures KeySet(xs[..i + 1], key) == KeySet(xs[..i], key) + {key(xs[i])}
  {
    assert xs[..i + 1] == xs[..i] + [xs[i]];
  }

  /** One step of a left-to-right dedupe loop: the next element is kept exactly when its key is new. */
  lemma DedupeStep<T, K>(xs: seq<T>, key: T -> K, i: nat)
    requires i < |xs|
    ensures DedupeBy(xs[..i + 1], key) ==
      if key(xs[i]) in KeySet(xs[..i], key) then DedupeBy(xs[..i], key) else DedupeBy(xs[..i], key) + [xs[i]]
  {
    assert xs[..i + 1][..i] == xs[..i];
  }

  /** Index `i` holds the first element of `xs` with its key. */
  predicate IsFirstOfKey<T(==), K(==)>(xs: seq<T>, key: T -> K, i: int)
    requires 0 <= i < |xs|
  {
    forall m :: 0 <= m < i ==> key(xs[m]) != key(xs[i])
  }

  /** Every element's key first occurs at or before it. */
  lemma {:induction false} FirstOccurrence<T, K>(xs: seq<T>, key: T -> K, j: nat)
    requires j < |xs|
    ensures exists i :: 0 <= i <= j && key(xs[i]) == key(xs[j]) && IsFirstOfKey(xs, key, i)
  {
    if !IsFirstOfKey(xs, key, j) {
      var m :| 0 <= m < j && key(xs[m]) == key(xs[j]);
      FirstOccurrence(xs, key, m);
    }
  }

  /** The positions in `xs` that `DedupeBy` keeps, in increasing order. */
  function FirstIndices<T(==), K(==)>(xs: seq<T>, key: T -> K): seq<nat>
  {
    if xs == [] then []
    else
      var init := xs[..|xs| - 1];
      if key(xs[|xs| - 1]) in KeySet(init, key) then FirstIndices(init, key)
      else FirstIndices(init, key) + [|xs| - 1]
  }

  /** The kept positions are in range and hold exactly the kept elements. */
  lemma {:induction false} FirstIndicesLocate<T, K>(xs: seq<T>, key: T -> K)
    ensures var r, idx := DedupeBy(xs, key), FirstIndices(xs, key);
      |idx| == |r| && forall k :: 0 <= k < |idx| ==> idx[k] < |xs| && xs[idx[k]] == r[k]
  {
    if xs != [] {
      var init := xs[..|xs| - 1];
      FirstIndicesLocate(init, key);
    }
  }

  /** The kept positions strictly increase, so the result keeps the input order. */
  lemma {:induction false} FirstIndicesIncreasing<T, K>(xs: seq<T>, key: T -> K)
    ensures forall k :: 0 <= k < |FirstIndices(xs, key)| ==> FirstIndices(xs, key)[k] < |xs|
    ensures forall k, l :: 0 <= k < l < |FirstIndices(xs, key)| ==> FirstIndices(xs, key)[k] < FirstIndices(xs, key)[l]
  {
    if xs != [] {
      var init := xs[..|xs| - 1];
      FirstIndicesIncreasing(init, key);
      var idx0 := FirstIndices(init, key);
      assert forall k :: 0 <= k < |idx0| ==> idx0[k] < |init|;
      if key(xs[|xs| - 1]) !in KeySet(init, key) {
        var idx := idx0 + [|xs| - 1];
        assert FirstIndices(xs, key) == idx;
        assert forall k :: 0 <= k < |idx0| ==> idx[k] == idx0[k];
      } else {
        assert FirstIndices(xs, key) == idx0;
      }
    }
  }

  /** A position is kept exactly when it is the first one with its key. */
  lemma {:induction false} FirstIndicesAreFirsts<T, K>(xs: seq<T>, key: T -> K)
    ensures forall i :: 0 <= i < |xs| ==> (i in FirstIndices(xs, key) <==> IsFirstOfKey(xs, key, i))
  {
    if xs != [] {
      var init := xs[..|xs| - 1];
      var n := |xs| - 1;
      FirstIndicesAreFirsts(init, key);
      FirstIndicesIncreasing(init, key);
      forall i | 0 <= i < n ensures IsFirstOfKey(init, key, i) == IsFirstOfKey(xs, key, i) {
      }
      if key(xs[n]) in KeySet(init, key) {
        var m :| m in init && key(m) == key(xs[n]);
        var j :| 0 <= j < |init| && init[j] == m;
        assert !IsFirstOfKey(xs, key, n) by { assert key(xs[j]) == key(xs[n]); }
        assert n !in FirstIndices(init, key);
      } else {
        assert IsFirstOfKey(xs, key, n) by {
          forall m | 0 <= m < n ensures key(xs[m]) != key(xs[n]) {
            assert init[m] in init;
          }
        }
      }
    }
  }

  /**
   * `DedupeBy` is exactly the subsequence of first occurrences: the kept elements
   * sit at strictly increasing positions of the input, each is the first with its
   * key, and every first occurrence is kept.
   */
  lemma DedupeIsFirstOccurrences<T, K>(xs: seq<T>, key: T -> K)
    ensures var r, idx := DedupeBy(xs, key), FirstIndices(xs, key);
      && |idx| == |r|
      && (forall k :: 0 <= k < |idx| ==> idx[k] < |xs| && xs[idx[k]] == r[k] && IsFirstOfKey(xs, key, idx[k]))
      && (forall k, l :: 0 <= k < l < |idx| ==> idx[k] < idx[l])
      && (forall i :: 0 <= i < |xs| && IsFirstOfKey(xs, key, i) ==> i in idx)
  {
    FirstIndicesLocate(xs, key);
    FirstIndicesIncreasing(xs, key);
    FirstIndicesAreFirsts(xs, key);
  }

  /** The first element with a key is kept. */
  lemma DedupeKeepsFirst<T, K>(xs: seq<T>, key: T -> K, i: nat)
    requires i < |xs| && IsFirstOfKey(xs, key, i)
    ensures xs[i] in DedupeBy(xs, key)
  {
    DedupeIsFirstOccurrences(xs, key);
    var idx := FirstIndices(xs, key);
    var k :| 0 <= k < |idx| && idx[k] == i;
    assert DedupeBy(xs, key)[k] == xs[i];
  }
}
