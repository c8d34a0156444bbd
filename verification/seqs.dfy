/**
 * Generic sequence operations behind the store's queries: first-match lookup
 * (`findOne`), filtering (a query predicate), a stable sort by an integer key
 * (`$near` ordering or `sort({createdAt: -1})`) and the limited, ordered
 * selection that `find(...).sort(...).limit(n)` performs.
 */
module Seqs {
  import opened Wrappers

  /** Index of the first element satisfying `p`, if any. */
  function IndexOf<T>(s: seq<T>, p: T -> bool): (r: Option<nat>)
    ensures r.Some? ==> r.value < |s| && p(s[r.value])
    ensures r.Some? ==> forall j :: 0 <= j < r.value ==> !p(s[j])
    ensures r.None? ==> forall j :: 0 <= j < |s| ==> !p(s[j])
  {
    if |s| == 0 then None
    else if p(s[0]) then Some(0)
    else match IndexOf(s[1..], p)
      case None => None
      case Some(i) => Some(i + 1)
  }

  /** The elements of `s` satisfying `ok`, in their original order. */
  function Filter<T(!new)>(s: seq<T>, ok: T -> bool): (r: seq<T>)
    ensures |r| <= |s|
    ensures multiset(r) <= multiset(s)
    ensures forall x :: ok(x) ==> multiset(r)[x] == multiset(s)[x]
    ensures forall x :: !ok(x) ==> multiset(r)[x] == 0
  {
    if |s| == 0 then []
    else
      assert s == [s[0]] + s[1..];
      (if ok(s[0]) then [s[0]] else []) + Filter(s[1..], ok)
  }

  lemma FilterMembers<T(!new)>(s: seq<T>, ok: T -> bool, x: T)
    ensures x in Filter(s, ok) <==> x in s && ok(x)
  {
    var r := Filter(s, ok);
    assert x in r <==> multiset(r)[x] > 0;
    assert x in s <==> multiset(s)[x] > 0;
  }

  /** Non-decreasing by `key`. */
  ghost predicate SortedBy<T>(s: seq<T>, key: T -> int) {
    forall i, j :: 0 <= i < j < |s| ==> key(s[i]) <= key(s[j])
  }

  /** Prepending an element no larger than the head keeps a sequence sorted. */
  lemma SortedCons<T>(a: T, t: seq<T>, key: T -> int)
    requires SortedBy(t, key) && (|t| > 0 ==> key(a) <= key(t[0]))
    ensures SortedBy([a] + t, key)
  {
    var r := [a] + t;
    forall i, j | 0 <= i < j < |r| ensures key(r[i]) <= key(r[j]) {
      if i == 0 {
        assert r[j] == t[j - 1];
      }
    }
  }

  /** Inserts `x` into the sorted `s` before the first element with a larger key. */
  function InsertBy<T>(x: T, s: seq<T>, key: T -> int): (r: seq<T>)
    requires SortedBy(s, key)
    ensures |r| == |s| + 1
    ensures multiset(r) == multiset(s) + multiset{x}
    ensures r[0] == x || (|s| > 0 && r[0] == s[0])
    ensures SortedBy(r, key)
  {
    if |s| == 0 then [x]
    else if key(x) <= key(s[0]) then
      SortedCons(x, s, key);
      [x] + s
    else
      assert s == [s[0]] + s[1..];
      var rest := InsertBy(x, s[1..], key);
      SortedCons(s[0], rest, key);
      [s[0]] + rest
  }

  /** A stable insertion sort of `s` by ascending `key`. */
  function SortBy<T>(s: seq<T>, key: T -> int): (r: seq<T>)
    ensures |r| == |s|
    ensures multiset(r) == multiset(s)
    ensures SortedBy(r, key)
  {
    if |s| == 0 then []
    else
      assert s == [s[0]] + s[1..];
      InsertBy(s[0], SortBy(s[1..], key), key)
  }

  function Min(a: nat, b: nat): nat {
    if a <= b then a else b
  }

  /**
   * `find(ok).sort(key).limit(limit)`: the at most `limit` elements of `s`
   * that satisfy `ok`, smallest key first.
   */
  function Select<T(!new)>(s: seq<T>, ok: T -> bool, key: T -> int, limit: nat): (r: seq<T>)
    ensures |r| <= limit
    ensures multiset(r) <= multiset(s)
    ensures forall i :: 0 <= i < |r| ==> ok(r[i])
    ensures SortedBy(r, key)
    ensures forall x :: x in s && ok(x) && x !in r ==>
              |r| == limit && forall i :: 0 <= i < |r| ==> key(r[i]) <= key(x)
  {
    var sorted := SortBy(Filter(s, ok), key);
    var m := Min(limit, |sorted|);
    PrefixOf(sorted, m);
    PrefixSorted(sorted, key, m);
    SortedFilterSatisfies(s, ok, key);
    SelectedAreNearest(s, ok, key, limit);
    sorted[..m]
  }

  lemma PrefixOf<T>(s: seq<T>, m: nat)
    requires m <= |s|
    ensures multiset(s[..m]) <= multiset(s)
  {
    assert s == s[..m] + s[m..];
  }

  lemma PrefixSorted<T>(s: seq<T>, key: T -> int, m: nat)
    requires m <= |s| && SortedBy(s, key)
    ensures SortedBy(s[..m], key)
  {
  }

  /** Every element of the sorted filter satisfies the filter. */
  lemma SortedFilterSatisfies<T(!new)>(s: seq<T>, ok: T -> bool, key: T -> int)
    ensures var sorted := SortBy(Filter(s, ok), key);
            forall i :: 0 <= i < |sorted| ==> ok(sorted[i])
  {
    var sorted := SortBy(Filter(s, ok), key);
    forall i | 0 <= i < |sorted| ensures ok(sorted[i]) {
      assert sorted[i] in multiset(sorted);
      FilterMembers(s, ok, sorted[i]);
    }
  }

  lemma SelectedAreNearest<T(!new)>(s: seq<T>, ok: T -> bool, key: T -> int, limit: nat)
    ensures var sorted := SortBy(Filter(s, ok), key);
            var r := sorted[..Min(limit, |sorted|)];
            forall x :: x in s && ok(x) && x !in r ==>
              |r| == limit && forall i :: 0 <= i < |r| ==> key(r[i]) <= key(x)
  {
    forall x | x in s && ok(x) {
      OmittedIsFarther(s, ok, key, limit, x);
    }
  }

  /** A qualifying element left out of the selection has a key no smaller than any selected one. */
  lemma OmittedIsFarther<T(!new)>(s: seq<T>, ok: T -> bool, key: T -> int, limit: nat, x: T)
    requires x in s && ok(x)
    ensures var sorted := SortBy(Filter(s, ok), key);
            var m := Min(limit, |sorted|);
            x !in sorted[..m] ==> m == limit && forall i :: 0 <= i < m ==> key(sorted[i]) <= key(x)
  {
    var filtered := Filter(s, ok);
    var sorted := SortBy(filtered, key);
    var m := Min(limit, |sorted|);
    if x !in sorted[..m] {
      FilterMembers(s, ok, x);
      assert multiset(sorted)[x] == multiset(filtered)[x] > 0;
      var j :| 0 <= j < |sorted| && sorted[j] == x;
      PrefixBeforeRest(sorted, key, m, j);
    }
  }

  /** In a sorted sequence, an element outside the first `m` comes after them and is no smaller. */
  lemma PrefixBeforeRest<T>(t: seq<T>, key: T -> int, m: nat, j: nat)
    requires SortedBy(t, key) && m <= |t| && j < |t| && t[j] !in t[..m]
    ensures m <= j
    ensures forall i :: 0 <= i < m ==> key(t[i]) <= key(t[j])
  {
  }
}
