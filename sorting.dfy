/**
 * A stable sort by a numeric key. It stands for Python's
 * `sorted(rows, key=..., reverse=True)` and JavaScript's `Array.prototype.sort`
 * with a subtracting comparator; both are stable, so elements with equal keys
 * keep their input order.
 */
module Sorting {
  import opened Seqs

  /** a strictly goes first: a larger key when descending, a smaller one otherwise. */
  predicate Precedes(a: real, b: real, descending: bool) {
    if descending then a > b else a < b
  }

  /** No later element strictly precedes an earlier one. */
  predicate SortedBy<T>(s: seq<T>, key: T -> real, descending: bool) {
    forall i, j :: 0 <= i < j < |s| ==> !Precedes(key(s[j]), key(s[i]), descending)
  }

  /** Puts x in front of the first element that does not strictly precede it. */
  function Insert<T>(x: T, s: seq<T>, key: T -> real, descending: bool): (r: seq<T>)
    ensures |r| == |s| + 1
    ensures multiset(r) == multiset{x} + multiset(s)
  {
    if s == [] || !Precedes(key(s[0]), key(x), descending) then [x] + s
    else
      assert s == [s[0]] + s[1..];
      [s[0]] + Insert(x, s[1..], key, descending)
  }

  function SortByKey<T>(s: seq<T>, key: T -> real, descending: bool): (r: seq<T>)
    ensures |r| == |s|
    ensures multiset(r) == multiset(s)
  {
    if s == [] then []
    else
      assert s == [s[0]] + s[1..];
      Insert(s[0], SortByKey(s[1..], key, descending), key, descending)
  }

  lemma {:induction false} InsertSorted<T>(x: T, s: seq<T>, key: T -> real, descending: bool)
    requires SortedBy(s, key, descending)
    ensures SortedBy(Insert(x, s, key, descending), key, descending)
  {
    if s != [] && Precedes(key(s[0]), key(x), descending) {
      var t := Insert(x, s[1..], key, descending);
      assert SortedBy(s[1..], key, descending) by {
        forall i, j | 0 <= i < j < |s[1..]| ensures !Precedes(key(s[1..][j]), key(s[1..][i]), descending) {
          assert s[1..][i] == s[i + 1] && s[1..][j] == s[j + 1];
        }
      }
      InsertSorted(x, s[1..], key, descending);
      var r := [s[0]] + t;
      forall j | 1 <= j < |r| ensures !Precedes(key(r[j]), key(r[0]), descending) {
        assert r[j] in multiset(t);
        assert r[j] == x || r[j] in multiset(s[1..]);
        if r[j] != x {
          var k :| 0 <= k < |s[1..]| && s[1..][k] == r[j];
          assert s[k + 1] == r[j];
        }
      }
    }
  }

  lemma {:induction false} SortByKeySorted<T>(s: seq<T>, key: T -> real, descending: bool)
    ensures SortedBy(SortByKey(s, key, descending), key, descending)
  {
    if s != [] {
      SortByKeySorted(s[1..], key, descending);
      InsertSorted(s[0], SortByKey(s[1..], key, descending), key, descending);
    }
  }

  /** The elements whose key is k. */
  function WithKey<T>(s: seq<T>, key: T -> real, k: real): seq<T> {
    Filter(s, x => key(x) == k)
  }

  lemma {:induction false} InsertStable<T>(x: T, s: seq<T>, key: T -> real, descending: bool, k: real)
    ensures WithKey(Insert(x, s, key, descending), key, k)
         == (if key(x) == k then [x] else []) + WithKey(s, key, k)
  {
    var r := Insert(x, s, key, descending);
    if s == [] || !Precedes(key(s[0]), key(x), descending) {
      assert r[1..] == s;
    } else {
      InsertStable(x, s[1..], key, descending, k);
      assert r[1..] == Insert(x, s[1..], key, descending);
    }
  }

  /** Stability: for every key, the elements with that key appear in input order. */
  lemma {:induction false} SortByKeyStable<T>(s: seq<T>, key: T -> real, descending: bool, k: real)
    ensures WithKey(SortByKey(s, key, descending), key, k) == WithKey(s, key, k)
  {
    if s != [] {
      SortByKeyStable(s[1..], key, descending, k);
      InsertStable(s[0], SortByKey(s[1..], key, descending), key, descending, k);
    }
  }
}
