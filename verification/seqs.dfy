/** Insertion-ordered sets kept as sequences: JavaScript's `Set` and object key order. */
module Seqs {
  import opened JsValues

  predicate NoDup<T(==)>(s: seq<T>) {
    forall i, j :: 0 <= i < j < |s| ==> s[i] != s[j]
  }

  /** `set.add(x)` on an insertion-ordered set: a new element goes last, a present one stays put. */
  function AddToSet<T(==)>(s: seq<T>, x: T): seq<T> {
    if x in s then s else s + [x]
  }

  /** Adding keeps a set free of duplicates, adds exactly x, and grows it by at most one. */
  lemma AddToSetSpec<T>(s: seq<T>, x: T)
    ensures NoDup(s) ==> NoDup(AddToSet(s, x))
    ensures forall y :: y in AddToSet(s, x) <==> y in s || y == x
    ensures |AddToSet(s, x)| <= |s| + 1
  {
  }

  /** `[...new Set(xs)]`: the elements of xs, each once, in order of first occurrence. */
  function Distinct<T(==,!new)>(xs: seq<T>): (r: seq<T>)
    ensures NoDup(r)
    ensures forall x :: x in r <==> x in xs
    ensures |r| <= |xs|
  {
    if xs == [] then []
    else
      var n := |xs| - 1;
      AddToSetSpec(Distinct(xs[..n]), xs[n]);
      assert xs == xs[..n] + [xs[n]];
      AddToSet(Distinct(xs[..n]), xs[n])
  }

  /** Adds every element of ys, left to right, to the insertion-ordered set s. */
  function AddAll<T(==,!new)>(s: seq<T>, ys: seq<T>): seq<T> {
    if ys == [] then s else AddToSet(AddAll(s, ys[..|ys| - 1]), ys[|ys| - 1])
  }

  /** Position of the first occurrence of x in s. */
  function IndexOf<T(==)>(s: seq<T>, x: T): (i: nat)
    requires x in s
    ensures i < |s| && s[i] == x
    ensures forall k :: 0 <= k < i ==> s[k] != x
  {
    if s[0] == x then 0 else 1 + IndexOf(s[1..], x)
  }

  /** `indexOf` as an option: the position of the first x in s, or `None` when s lacks x. */
  function Find<T(==)>(s: seq<T>, x: T): (r: Option<nat>)
    ensures r.None? <==> x !in s
    ensures r.Some? ==> r.value < |s| && s[r.value] == x && x !in s[..r.value]
  {
    if x in s then Some(IndexOf(s, x)) else None
  }

  /** Number of occurrences of x in s. */
  function Count<T(==)>(s: seq<T>, x: T): (c: nat)
    ensures c > 0 <==> x in s
    ensures c <= |s|
  {
    if s == [] then 0
    else
      var n := |s| - 1;
      assert s == s[..n] + [s[n]];
      Count(s[..n], x) + (if s[n] == x then 1 else 0)
  }

  /** The first occurrence of an element of a prefix is found inside that prefix. */
  lemma IndexOfPrefix<T>(s: seq<T>, m: nat, x: T)
    requires m <= |s| && x in s[..m]
    ensures IndexOf(s, x) == IndexOf(s[..m], x)
  {
    var a, b := IndexOf(s, x), IndexOf(s[..m], x);
    assert s[b] == x;
    assert a <= b;
    assert s[..m][a] == x;
  }

  /** A sequence without duplicates is its own deduplication. */
  lemma {:induction false} DistinctNoDup<T(!new)>(xs: seq<T>)
    requires NoDup(xs)
    ensures Distinct(xs) == xs
  {
    if xs != [] {
      var n := |xs| - 1;
      DistinctNoDup(xs[..n]);
      assert xs[n] !in xs[..n];
      assert xs[..n] + [xs[n]] == xs;
    }
  }

  /** Deduplication keeps first-occurrence order: an element listed earlier occurs earlier. */
  lemma {:induction false} DistinctFirstOccurrence<T(!new)>(xs: seq<T>)
    ensures forall i, j :: 0 <= i < j < |Distinct(xs)| ==>
      IndexOf(xs, Distinct(xs)[i]) < IndexOf(xs, Distinct(xs)[j])
  {
    if xs != [] {
      var n := |xs| - 1;
      var p := xs[..n];
      var rp := Distinct(p);
      DistinctFirstOccurrence(p);
      var r := Distinct(xs);
      assert r == AddToSet(rp, xs[n]);
      forall i, j | 0 <= i < j < |r|
        ensures IndexOf(xs, r[i]) < IndexOf(xs, r[j])
      {
        assert r[i] == rp[i] && r[i] in p;
        IndexOfPrefix(xs, n, r[i]);
        if j < |rp| {
          assert r[j] == rp[j] && r[j] in p;
          IndexOfPrefix(xs, n, r[j]);
          assert IndexOf(p, rp[i]) < IndexOf(p, rp[j]);
        } else {
          assert r[j] == xs[n] && xs[n] !in p;
          var k := IndexOf(xs, r[j]);
          assert k == n;
          assert IndexOf(p, r[i]) < n;
        }
      }
    }
  }

  /** Deduplicating a longer sequence is adding the new elements to the deduplicated prefix. */
  lemma {:induction false} DistinctAppend<T(!new)>(xs: seq<T>, ys: seq<T>)
    ensures Distinct(xs + ys) == AddAll(Distinct(xs), ys)
  {
    if ys == [] {
      assert xs + ys == xs;
    } else {
      var n := |ys| - 1;
      DistinctAppend(xs, ys[..n]);
      assert (xs + ys)[..|xs + ys| - 1] == xs + ys[..n];
    }
  }

  /** In a sequence without duplicates, an element occurs exactly once. */
  lemma {:induction false} CountNoDup<T>(s: seq<T>, x: T)
    requires NoDup(s)
    ensures Count(s, x) == if x in s then 1 else 0
  {
    if s != [] {
      var n := |s| - 1;
      CountNoDup(s[..n], x);
      if s[n] == x {
        assert x !in s[..n];
      } else {
        assert x in s <==> x in s[..n] by {
          assert s == s[..n] + [s[n]];
        }
      }
    }
  }
}
