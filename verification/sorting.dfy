/** `Array.prototype.sort` with a comparator that compares two numeric
    fields in turn, as the standings and the top-performer lists use it.
    Each comparator is expressed as a key of two reals ordered
    lexicographically (a descending field is negated); the sort is a
    stable insertion sort on that key. */
module Sorting {

  /** Lexicographic order on pairs. */
  predicate KeyLe(a: (real, real), b: (real, real)) {
    a.0 < b.0 || (a.0 == b.0 && a.1 <= b.1)
  }

  lemma KeyLeTotal(a: (real, real), b: (real, real))
    ensures KeyLe(a, b) || KeyLe(b, a)
  {
  }

  predicate SortedBy<T>(s: seq<T>, key: T -> (real, real)) {
    forall i, j :: 0 <= i < j < |s| ==> KeyLe(key(s[i]), key(s[j]))
  }

  /** Insert `x` into a sorted sequence after every element whose key is
      not greater than its own (so equal keys keep their order). */
  function Insert<T>(s: seq<T>, x: T, key: T -> (real, real)): (r: seq<T>)
    requires SortedBy(s, key)
    ensures |r| == |s| + 1
    ensures multiset(r) == multiset(s) + multiset{x}
    ensures SortedBy(r, key)
  {
    if s == [] || KeyLe(key(s[|s| - 1]), key(x)) then s + [x]
    else
      var init := s[..|s| - 1];
      var last := s[|s| - 1];
      assert s == init + [last];
      var r0 := Insert(init, x, key);
      AppendAbove(s, x, r0, key);
      r0 + [last]
  }

  /** Putting back the last element of `s` after the insertion into the
      rest keeps the order, since that element's key tops them all. */
  lemma AppendAbove<T>(s: seq<T>, x: T, r0: seq<T>, key: T -> (real, real))
    requires SortedBy(s, key) && s != [] && !KeyLe(key(s[|s| - 1]), key(x))
    requires multiset(r0) == multiset(s[..|s| - 1]) + multiset{x} && SortedBy(r0, key)
    ensures SortedBy(r0 + [s[|s| - 1]], key)
  {
    var init := s[..|s| - 1];
    var last := s[|s| - 1];
    var r := r0 + [last];
    forall i | 0 <= i < |r0| ensures KeyLe(key(r0[i]), key(last)) {
      assert r0[i] in multiset(r0);
      if r0[i] != x {
        assert r0[i] in multiset(init);
        var k :| 0 <= k < |init| && init[k] == r0[i];
        assert s[k] == r0[i];
      }
    }
    forall i, j | 0 <= i < j < |r| ensures KeyLe(key(r[i]), key(r[j])) {
      if j < |r0| {
        assert r[i] == r0[i] && r[j] == r0[j];
      } else {
        assert r[i] == r0[i] && r[j] == last;
      }
    }
  }

  /** The elements of `xs` in ascending key order. */
  function SortByKey<T>(xs: seq<T>, key: T -> (real, real)): (r: seq<T>)
    ensures |r| == |xs|
    ensures multiset(r) == multiset(xs)
    ensures SortedBy(r, key)
  {
    if xs == [] then []
    else
      assert xs == xs[..|xs| - 1] + [xs[|xs| - 1]];
      Insert(SortByKey(xs[..|xs| - 1], key), xs[|xs| - 1], key)
  }

  /** Sorting a sorted sequence changes nothing. */
  lemma {:induction false} SortSorted<T>(xs: seq<T>, key: T -> (real, real))
    requires SortedBy(xs, key)
    ensures SortByKey(xs, key) == xs
  {
    if xs != [] {
      var init := xs[..|xs| - 1];
      SortedPrefix(xs, key);
      SortSorted(init, key);
      InsertLast(xs, key);
    }
  }

  lemma SortedPrefix<T>(xs: seq<T>, key: T -> (real, real))
    requires SortedBy(xs, key) && xs != []
    ensures SortedBy(xs[..|xs| - 1], key)
  {
    var init := xs[..|xs| - 1];
    forall i, j | 0 <= i < j < |init| ensures KeyLe(key(init[i]), key(init[j])) {
      assert init[i] == xs[i] && init[j] == xs[j];
    }
  }

  /** The last element of a sorted sequence is inserted at the end. */
  lemma InsertLast<T>(xs: seq<T>, key: T -> (real, real))
    requires SortedBy(xs, key) && xs != [] && SortedBy(xs[..|xs| - 1], key)
    ensures Insert(xs[..|xs| - 1], xs[|xs| - 1], key) == xs
  {
    var init := xs[..|xs| - 1];
    if init != [] {
      assert init[|init| - 1] == xs[|xs| - 2];
      assert KeyLe(key(init[|init| - 1]), key(xs[|xs| - 1]));
    }
    assert init + [xs[|xs| - 1]] == xs;
  }

  /** The elements of `s` whose key is `k`, in their order in `s`. */
  function WithKey<T>(s: seq<T>, key: T -> (real, real), k: (real, real)): (r: seq<T>)
    ensures |r| <= |s|
    ensures forall i :: 0 <= i < |r| ==> key(r[i]) == k
    ensures forall x :: x in s && key(x) == k ==> x in r
  {
    if s == [] then []
    else WithKey(s[..|s| - 1], key, k) + (if key(s[|s| - 1]) == k then [s[|s| - 1]] else [])
  }

  lemma WithKeySnoc<T>(s: seq<T>, x: T, key: T -> (real, real), k: (real, real))
    ensures WithKey(s + [x], key, k) == WithKey(s, key, k) + (if key(x) == k then [x] else [])
  {
    assert (s + [x])[..|s|] == s;
  }

  /** Inserting `x` places it after every element with the same key. */
  lemma {:induction false} InsertStable<T>(s: seq<T>, x: T, key: T -> (real, real), k: (real, real))
    requires SortedBy(s, key)
    ensures WithKey(Insert(s, x, key), key, k) == WithKey(s, key, k) + (if key(x) == k then [x] else [])
  {
    if s == [] || KeyLe(key(s[|s| - 1]), key(x)) {
      WithKeySnoc(s, x, key, k);
    } else {
      var init := s[..|s| - 1];
      var last := s[|s| - 1];
      assert s == init + [last];
      SortedPrefix(s, key);
      InsertStable(init, x, key, k);
      StableAppend(Insert(init, x, key), init, x, last, key, k);
    }
  }

  /** Appending an element whose key differs from that of `x` keeps the
      stability equation of an insertion of `x`. */
  lemma StableAppend<T>(r0: seq<T>, init: seq<T>, x: T, last: T, key: T -> (real, real), k: (real, real))
    requires key(last) != key(x)
    requires WithKey(r0, key, k) == WithKey(init, key, k) + (if key(x) == k then [x] else [])
    ensures WithKey(r0 + [last], key, k) == WithKey(init + [last], key, k) + (if key(x) == k then [x] else [])
  {
    WithKeySnoc(r0, last, key, k);
    WithKeySnoc(init, last, key, k);
  }

  /** The sort is stable: for every key, the elements with that key come out
      in the order they went in. */
  lemma {:induction false} SortStable<T>(xs: seq<T>, key: T -> (real, real), k: (real, real))
    ensures WithKey(SortByKey(xs, key), key, k) == WithKey(xs, key, k)
  {
    if xs != [] {
      var init := xs[..|xs| - 1];
      var x := xs[|xs| - 1];
      SortStable(init, key, k);
      InsertStable(SortByKey(init, key), x, key, k);
      WithKeySnoc(init, x, key, k);
      assert init + [x] == xs;
    }
  }

  /** The first `n` elements, as `slice(0, n)`. */
  function Take<T>(xs: seq<T>, n: nat): (r: seq<T>)
    ensures |r| == if n < |xs| then n else |xs|
    ensures r == xs[..|r|]
  {
    if n < |xs| then xs[..n] else xs
  }
}
