/** Stable sorting by an integer key. `Array.prototype.sort` with the
    comparator `(a, b) => key(a) - key(b)` is stable (ECMAScript 2019 and
    later), and a stable sort by a key has exactly one possible result, so
    any stable algorithm models it; insertion sort is the simplest to reason
    about. */
module Sorting {
  import opened Common

  /** Ascending by `key`. */
  ghost predicate SortedBy<T>(s: seq<T>, key: T -> int) {
    forall i, j :: 0 <= i < j < |s| ==> key(s[i]) <= key(s[j])
  }

  /** Inserts `x` before the first element whose key is not smaller, so `x`
      precedes the elements it ties with. */
  function InsertBy<T>(x: T, s: seq<T>, key: T -> int): (r: seq<T>)
    requires SortedBy(s, key)
    ensures SortedBy(r, key)
    ensures multiset(r) == multiset(s) + multiset{x}
    ensures |r| == |s| + 1
    ensures r[0] == x || (|s| > 0 && r[0] == s[0])
  {
    if |s| == 0 then [x]
    else if key(x) <= key(s[0]) then [x] + s
    else
      assert s == [s[0]] + s[1..];
      [s[0]] + InsertBy(x, s[1..], key)
  }

  /** Stable insertion sort. */
  function SortBy<T>(s: seq<T>, key: T -> int): (r: seq<T>)
    ensures SortedBy(r, key)
    ensures multiset(r) == multiset(s)
    ensures |r| == |s|
  {
    if |s| == 0 then []
    else
      assert s == [s[0]] + s[1..];
      InsertBy(s[0], SortBy(s[1..], key), key)
  }

  /** Sorting neither adds nor drops an element. */
  lemma SortByMembers<T>(s: seq<T>, key: T -> int)
    ensures forall x :: x in SortBy(s, key) <==> x in s
  {
    var r := SortBy(s, key);
    assert forall x :: x in r <==> x in multiset(r);
    assert forall x :: x in s <==> x in multiset(s);
  }

  /** In a sorted sequence the last element carries the largest key. */
  lemma SortedLastIsMax<T>(s: seq<T>, key: T -> int)
    requires SortedBy(s, key) && |s| > 0
    ensures forall x :: x in s ==> key(x) <= key(s[|s| - 1])
  {
  }

  /** Distinct keys on a sequence with a head: distinct keys on the tail,
      none of them the head's. */
  lemma DistinctCons<T, K>(a: T, t: seq<T>, id: T -> K)
    ensures DistinctBy([a] + t, id) <==>
              DistinctBy(t, id) && forall y :: y in t ==> id(y) != id(a)
  {
    var r := [a] + t;
    assert forall k :: 0 <= k < |t| ==> r[k + 1] == t[k];
    if DistinctBy(r, id) {
      forall y | y in t
        ensures id(y) != id(a)
      {
        var k :| 0 <= k < |t| && t[k] == y;
        assert r[0] == a && r[k + 1] == y;
      }
    }
  }

  lemma {:induction false} InsertKeepsDistinct<T, K>(x: T, s: seq<T>, key: T -> int, id: T -> K)
    requires SortedBy(s, key)
    requires DistinctBy(s, id)
    requires forall y :: y in s ==> id(y) != id(x)
    ensures DistinctBy(InsertBy(x, s, key), id)
    decreases |s|
  {
    if |s| == 0 {
    } else if key(x) <= key(s[0]) {
      DistinctCons(x, s, id);
    } else {
      assert s == [s[0]] + s[1..];
      DistinctCons(s[0], s[1..], id);
      InsertKeepsDistinct(x, s[1..], key, id);
      var rest := InsertBy(x, s[1..], key);
      forall y | y in rest
        ensures id(y) != id(s[0])
      {
        assert y in multiset(rest);
        assert y == x || y in multiset(s[1..]);
      }
      DistinctCons(s[0], rest, id);
    }
  }

  /** Sorting keeps keys distinct. */
  lemma {:induction false} SortKeepsDistinct<T, K>(s: seq<T>, key: T -> int, id: T -> K)
    requires DistinctBy(s, id)
    ensures DistinctBy(SortBy(s, key), id)
    decreases |s|
  {
    if |s| > 0 {
      assert s == [s[0]] + s[1..];
      DistinctCons(s[0], s[1..], id);
      SortKeepsDistinct(s[1..], key, id);
      var rest := SortBy(s[1..], key);
      forall y | y in rest
        ensures id(y) != id(s[0])
      {
        assert y in multiset(rest);
        assert y in multiset(s[1..]);
      }
      InsertKeepsDistinct(s[0], rest, key, id);
    }
  }

  /** Index of the first element with the smallest key. */
  function FirstMinIndex<T>(s: seq<T>, key: T -> int): (k: nat)
    requires |s| > 0
    ensures k < |s|
    ensures forall i :: 0 <= i < |s| ==> key(s[k]) <= key(s[i])
    ensures forall i :: 0 <= i < k ==> key(s[i]) > key(s[k])
  {
    if |s| == 1 then 0
    else
      var j := FirstMinIndex(s[1..], key);
      assert forall i :: 1 <= i < |s| ==> s[i] == s[1..][i - 1];
      if key(s[0]) <= key(s[1..][j]) then 0 else j + 1
  }

  /** Stability, as far as the head is concerned: the first element of the
      sorted sequence is the earliest element with the smallest key. */
  lemma {:induction false} SortByHead<T>(s: seq<T>, key: T -> int)
    requires |s| > 0
    ensures SortBy(s, key)[0] == s[FirstMinIndex(s, key)]
    decreases |s|
  {
    if |s| > 1 {
      SortByHead(s[1..], key);
      var rest := SortBy(s[1..], key);
      assert forall i :: 1 <= i < |s| ==> s[i] == s[1..][i - 1];
    }
  }
}
