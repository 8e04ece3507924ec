/** Python's `list.sort(key=...)`, which is guaranteed stable, as a stable
    insertion sort on sequences. A sorted permutation that keeps, for every key
    value, the input order of the elements carrying that key is unique, so this
    function has the same result as the library's in-place algorithm. */
module Sorting {

  /** Inserts `x`, which comes before every element of `s` in input order, in
      front of the first element whose key is not smaller than its own. */
  function Insert<T>(x: T, s: seq<T>, key: T -> int): (r: seq<T>)
    ensures |r| == |s| + 1
    ensures multiset(r) == multiset(s) + multiset{x}
  {
    if |s| == 0 || key(x) <= key(s[0]) then [x] + s
    else
      assert s == [s[0]] + s[1..];
      [s[0]] + Insert(x, s[1..], key)
  }

  /** `sorted(s, key=key)` */
  function SortBy<T>(s: seq<T>, key: T -> int): (r: seq<T>)
    ensures |r| == |s|
    ensures multiset(r) == multiset(s)
  {
    if |s| == 0 then []
    else
      assert s == [s[0]] + s[1..];
      Insert(s[0], SortBy(s[1..], key), key)
  }

  /** Keys never decrease along `s`. */
  ghost predicate SortedBy<T>(s: seq<T>, key: T -> int) {
    forall i, j :: 0 <= i < j < |s| ==> key(s[i]) <= key(s[j])
  }

  /** The subsequence of `s` made of the elements whose key is `k`. */
  function WithKey<T>(s: seq<T>, key: T -> int, k: int): seq<T> {
    if |s| == 0 then []
    else (if key(s[0]) == k then [s[0]] else []) + WithKey(s[1..], key, k)
  }

  lemma {:induction false} InsertSorted<T>(x: T, s: seq<T>, key: T -> int)
    requires SortedBy(s, key)
    ensures SortedBy(Insert(x, s, key), key)
  {
    if |s| == 0 || key(x) <= key(s[0]) {
    } else {
      InsertSorted(x, s[1..], key);
      var r := Insert(x, s, key);
      var t := Insert(x, s[1..], key);
      assert r == [s[0]] + t;
      forall j | 0 < j < |r| ensures key(s[0]) <= key(r[j]) {
        assert r[j] in multiset(t);
        assert r[j] in multiset(s[1..]) + multiset{x};
        if r[j] in multiset(s[1..]) {
          var m :| 0 <= m < |s[1..]| && s[1..][m] == r[j];
          assert s[m + 1] == r[j];
        }
      }
    }
  }

  lemma {:induction false} InsertWithKey<T>(x: T, s: seq<T>, key: T -> int, k: int)
    ensures WithKey(Insert(x, s, key), key, k)
         == (if key(x) == k then [x] else []) + WithKey(s, key, k)
  {
    if |s| == 0 || key(x) <= key(s[0]) {
      assert ([x] + s)[1..] == s;
    } else {
      InsertWithKey(x, s[1..], key, k);
      assert ([s[0]] + Insert(x, s[1..], key))[1..] == Insert(x, s[1..], key);
    }
  }

  /** The result is in non-decreasing key order and is a permutation of the
      input, and elements with equal keys keep their input order. */
  lemma {:induction false} SortByIsStableSort<T>(s: seq<T>, key: T -> int)
    ensures SortedBy(SortBy(s, key), key)
    ensures multiset(SortBy(s, key)) == multiset(s)
    ensures forall k :: WithKey(SortBy(s, key), key, k) == WithKey(s, key, k)
  {
    if |s| != 0 {
      SortByIsStableSort(s[1..], key);
      InsertSorted(s[0], SortBy(s[1..], key), key);
      forall k ensures WithKey(SortBy(s, key), key, k) == WithKey(s, key, k) {
        InsertWithKey(s[0], SortBy(s[1..], key), key, k);
      }
    }
  }

  /** No two elements of `s` agree on `f`. */
  ghost predicate DistinctBy<T>(s: seq<T>, f: T -> int) {
    forall i, j :: 0 <= i < j < |s| ==> f(s[i]) != f(s[j])
  }

  lemma {:induction false} InsertDistinctBy<T>(x: T, s: seq<T>, key: T -> int, f: T -> int)
    requires DistinctBy(s, f)
    requires forall i :: 0 <= i < |s| ==> f(s[i]) != f(x)
    ensures DistinctBy(Insert(x, s, key), f)
  {
    if |s| == 0 || key(x) <= key(s[0]) {
      var r := [x] + s;
      assert forall j :: 0 < j < |r| ==> r[j] == s[j - 1];
    } else {
      InsertDistinctBy(x, s[1..], key, f);
      var t := Insert(x, s[1..], key);
      var r := [s[0]] + t;
      forall j | 0 <= j < |t| ensures f(t[j]) != f(s[0]) {
        var y := t[j];
        assert y in multiset(t);
        assert y in multiset(s[1..]) + multiset{x};
        if y in multiset(s[1..]) {
          var m :| 0 <= m < |s[1..]| && s[1..][m] == y;
          assert s[m + 1] == y;
        }
      }
      assert forall j :: 0 < j < |r| ==> r[j] == t[j - 1];
    }
  }

  /** Sorting keeps elements that are told apart by `f` apart. */
  lemma {:induction false} SortByDistinctBy<T>(s: seq<T>, key: T -> int, f: T -> int)
    requires DistinctBy(s, f)
    ensures DistinctBy(SortBy(s, key), f)
  {
    if |s| != 0 {
      var tail := s[1..];
      assert DistinctBy(tail, f) by {
        assert forall i :: 0 <= i < |tail| ==> tail[i] == s[i + 1];
      }
      SortByDistinctBy(tail, key, f);
      var sorted := SortBy(tail, key);
      forall i | 0 <= i < |sorted| ensures f(sorted[i]) != f(s[0]) {
        var y := sorted[i];
        assert y in multiset(sorted);
        assert y in multiset(tail);
        var m :| 0 <= m < |tail| && tail[m] == y;
        assert s[m + 1] == y;
      }
      InsertDistinctBy(s[0], sorted, key, f);
    }
  }
}
