/** `Array.prototype.sort` with a descending numeric comparator (`(a, b) => b.key - a.key`).
    The sort is stable: entries with equal keys keep their original order. Each entry
    carries its original position so that stability can be stated. */
module Ranking {
  import opened Seqs

  datatype Entry = Entry(name: string, key: real, pos: nat)

  /** a comes before b: a greater key, or an equal key and an earlier original position. */
  predicate Before(a: Entry, b: Entry) {
    a.key > b.key || (a.key == b.key && a.pos < b.pos)
  }

  /** Sorted by key, largest first, ties in original order. */
  predicate Ranked(s: seq<Entry>) {
    forall i, j :: 0 <= i < j < |s| ==> Before(s[i], s[j])
  }

  /** Positions strictly increasing: the entries as built, in key order of their source. */
  predicate InOrder(s: seq<Entry>) {
    forall i, j :: 0 <= i < j < |s| ==> s[i].pos < s[j].pos
  }

  /** Builds the entries of a list of names and keys, numbered by position. */
  function Number(names: seq<string>, keys: seq<real>): (s: seq<Entry>)
    requires |names| == |keys|
    // These clauses only unfold the comprehension for callers.
    ensures |s| == |names| && InOrder(s)
    ensures forall i :: 0 <= i < |s| ==> s[i] == Entry(names[i], keys[i], i)
  {
    seq(|names|, i requires 0 <= i < |names| => Entry(names[i], keys[i], i))
  }

  /** Inserts x after every entry whose key is at least x's. */
  function Insert(s: seq<Entry>, x: Entry): (r: seq<Entry>)
    ensures multiset(r) == multiset(s) + multiset{x}
    ensures |r| == |s| + 1
  {
    if s == [] then [x]
    else if s[0].key >= x.key then
      assert s == [s[0]] + s[1..];
      [s[0]] + Insert(s[1..], x)
    else [x] + s
  }

  /** A stable descending sort: insertion of each entry in turn. */
  function SortDesc(s: seq<Entry>): (r: seq<Entry>)
    ensures multiset(r) == multiset(s)
    ensures |r| == |s|
  {
    if s == [] then []
    else
      var n := |s| - 1;
      assert s == s[..n] + [s[n]];
      Insert(SortDesc(s[..n]), s[n])
  }

  /** The names of the first k entries (`slice(0, k).map(e => e.name)`). */
  function TopNames(s: seq<Entry>, k: nat): (r: seq<string>)
    // These clauses only unfold the comprehension for callers.
    ensures |r| == if |s| < k then |s| else k
    ensures forall i :: 0 <= i < |r| ==> r[i] == s[i].name
  {
    var m := if |s| < k then |s| else k;
    seq(m, i requires 0 <= i < m => s[i].name)
  }

  /** Inserting an entry that comes later than every other keeps a ranked list ranked. */
  lemma {:induction false} InsertRanked(s: seq<Entry>, x: Entry)
    requires Ranked(s)
    requires forall e :: e in s ==> e.pos < x.pos
    ensures Ranked(Insert(s, x))
  {
    if s != [] && s[0].key >= x.key {
      var t := s[1..];
      assert forall e :: e in t ==> e in s;
      InsertRanked(t, x);
      var r := Insert(s, x);
      forall i, j | 0 <= i < j < |r|
        ensures Before(r[i], r[j])
      {
        if i == 0 {
          var e := r[j];
          assert e in multiset(Insert(t, x));
          assert e in t || e == x;
          if e in t {
            var k :| 0 <= k < |t| && t[k] == e;
            assert s[k + 1] == e;
          }
        }
      }
    } else if s != [] {
      var r := Insert(s, x);
      forall i, j | 0 <= i < j < |r|
        ensures Before(r[i], r[j])
      {
        if i == 0 {
          assert r[j] == s[j - 1];
          if j - 1 > 0 {
            assert Before(s[0], s[j - 1]);
          }
        } else {
          assert r[i] == s[i - 1] && r[j] == s[j - 1];
        }
      }
    }
  }

  /** Sorting entries numbered in order ranks them: largest key first, ties in original order. */
  lemma {:induction false} SortDescRanked(s: seq<Entry>)
    requires InOrder(s)
    ensures Ranked(SortDesc(s))
  {
    if s != [] {
      var n := |s| - 1;
      var p := s[..n];
      assert InOrder(p);
      SortDescRanked(p);
      forall e | e in SortDesc(p)
        ensures e.pos < s[n].pos
      {
        assert e in multiset(SortDesc(p));
        assert e in p;
        var k :| 0 <= k < n && p[k] == e;
      }
      InsertRanked(SortDesc(p), s[n]);
    }
  }

  /** The head of a ranked permutation is the first entry of greatest key in the original. */
  lemma RankedHead(s: seq<Entry>, r: seq<Entry>)
    requires Ranked(r) && multiset(r) == multiset(s) && s != []
    ensures r != []
    ensures r[0] in s
    ensures forall e :: e in s ==> e.key <= r[0].key
    ensures forall e :: e in s && e.key == r[0].key && e != r[0] ==> r[0].pos < e.pos
  {
    assert s[0] in multiset(r);
    assert r[0] in multiset(s);
    forall e | e in s
      ensures e.key <= r[0].key
      ensures e.key == r[0].key && e != r[0] ==> r[0].pos < e.pos
    {
      assert e in multiset(r);
      var k :| 0 <= k < |r| && r[k] == e;
      if k > 0 {
        assert Before(r[0], r[k]);
      }
    }
  }

  /** Sorting keeps the entries, so the name at the head is one of the names. */
  lemma HeadNameIn(names: seq<string>, keys: seq<real>)
    requires |names| == |keys| && names != []
    ensures SortDesc(Number(names, keys)) != []
    ensures SortDesc(Number(names, keys))[0].name in names
  {
    var s := Number(names, keys);
    var r := SortDesc(s);
    assert r[0] in multiset(s);
    var i :| 0 <= i < |s| && s[i] == r[0];
  }

  /** Every entry among the first k of a ranked list has a key at least that of every entry
      after them. */
  lemma TopDominates(r: seq<Entry>, k: nat)
    requires Ranked(r)
    ensures forall i, j :: 0 <= i < k && i < |r| && k <= j < |r| ==> r[i].key >= r[j].key
  {
    forall i, j | 0 <= i < k && i < |r| && k <= j < |r|
      ensures r[i].key >= r[j].key
    {
      assert Before(r[i], r[j]);
    }
  }

  /** The entry of the ranking at index a is the numbered entry of some original index. */
  lemma RankedEntryOrigin(names: seq<string>, keys: seq<real>, a: nat)
    requires |names| == |keys| && a < |names|
    ensures var e := SortDesc(Number(names, keys))[a];
      e.pos < |names| && e == Entry(names[e.pos], keys[e.pos], e.pos)
  {
    var s := Number(names, keys);
    var e := SortDesc(s)[a];
    assert e in multiset(s);
    var x :| 0 <= x < |s| && s[x] == e;
  }

  /** Every numbered entry appears somewhere in the ranking. */
  lemma RankedEntryPlace(names: seq<string>, keys: seq<real>, i: nat) returns (b: nat)
    requires |names| == |keys| && i < |names|
    ensures b < |names| && SortDesc(Number(names, keys))[b] == Entry(names[i], keys[i], i)
  {
    var s := Number(names, keys);
    assert s[i] in multiset(SortDesc(s));
    b :| 0 <= b < |s| && SortDesc(s)[b] == s[i];
  }

  lemma NameInTop(r: seq<Entry>, k: nat, b: nat)
    ensures b < k && b < |r| ==> r[b].name in TopNames(r, k)
  {
    if b < k && b < |r| {
      assert TopNames(r, k)[b] == r[b].name;
    }
  }

  /** With distinct names, every name among the first k of the ranking has a key at least
      that of every name outside them: `slice(0, k)` picks the k highest keys. */
  lemma TopKOutrank(names: seq<string>, keys: seq<real>, k: nat)
    requires |names| == |keys| && NoDup(names)
    ensures var top := TopNames(SortDesc(Number(names, keys)), k);
      forall i, j :: 0 <= i < |names| && 0 <= j < |names| && names[i] in top && names[j] !in top ==>
        keys[i] >= keys[j]
  {
    var s := Number(names, keys);
    var r := SortDesc(s);
    var top := TopNames(r, k);
    SortDescRanked(s);
    forall i, j | 0 <= i < |names| && 0 <= j < |names| && names[i] in top && names[j] !in top
      ensures keys[i] >= keys[j]
    {
      var a :| 0 <= a < |top| && top[a] == names[i];
      RankedEntryOrigin(names, keys, a);
      assert r[a].pos == i;
      var b := RankedEntryPlace(names, keys, j);
      NameInTop(r, k, b);
      assert Before(r[a], r[b]);
    }
  }

  /** The head of the ranking is the entry of greatest key that comes first in the original
      order: `sort(...)[0]` is the first maximum. */
  lemma HeadIsFirstMax(names: seq<string>, keys: seq<real>)
    requires |names| == |keys| && names != []
    ensures var h := SortDesc(Number(names, keys))[0];
      && h.pos < |names| && h.name == names[h.pos] && h.key == keys[h.pos]
      && (forall i :: 0 <= i < |keys| ==> keys[i] <= h.key)
      && (forall i :: 0 <= i < h.pos ==> keys[i] < h.key)
  {
    var s := Number(names, keys);
    var r := SortDesc(s);
    SortDescRanked(s);
    RankedHead(s, r);
    RankedEntryOrigin(names, keys, 0);
    forall i | 0 <= i < |keys|
      ensures keys[i] <= r[0].key
      ensures i < r[0].pos ==> keys[i] < r[0].key
    {
      assert s[i] in s;
    }
  }
}
