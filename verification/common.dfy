/** Small generic vocabulary shared by every other module: an optional value,
    an order-preserving filter over sequences, substring search and
    distinctness of a key over a sequence. */
module Common {

  /** A value that may be absent; stands for TypeScript's `T | null` and
      `T | undefined`. */
  datatype Option<+T> = None | Some(value: T) {
    function GetOr(default: T): T {
      match this
      case Some(v) => v
      case None => default
    }
  }

  /** `Array.prototype.filter`: keeps, in order, the elements satisfying `p`. */
  function Filter<T>(p: T -> bool, s: seq<T>): (r: seq<T>)
    ensures |r| <= |s|
    ensures forall x :: x in r ==> x in s && p(x)
    ensures forall x :: x in s && p(x) ==> x in r
    ensures forall i :: 0 <= i < |r| ==> p(r[i])
    ensures multiset(r) <= multiset(s)
  {
    if |s| == 0 then []
    else
      assert s == [s[0]] + s[1..];
      (if p(s[0]) then [s[0]] else []) + Filter(p, s[1..])
  }

  /** Filtering a concatenation filters each part: the filter keeps the
      relative order of the elements it keeps. */
  lemma {:induction false} FilterAppend<T>(p: T -> bool, a: seq<T>, b: seq<T>)
    ensures Filter(p, a + b) == Filter(p, a) + Filter(p, b)
    decreases |a|
  {
    if |a| == 0 {
      assert a + b == b;
    } else {
      assert (a + b)[1..] == a[1..] + b;
      FilterAppend(p, a[1..], b);
    }
  }

  /** A filter whose predicate holds everywhere is the identity. */
  lemma {:induction false} FilterAll<T>(p: T -> bool, s: seq<T>)
    requires forall x :: x in s ==> p(x)
    ensures Filter(p, s) == s
    decreases |s|
  {
    if |s| > 0 {
      assert s == [s[0]] + s[1..];
      assert Filter(p, s) == [s[0]] + Filter(p, s[1..]);
      FilterAll(p, s[1..]);
    }
  }

  /** One step of the filter: a kept head comes first, followed by the
      filtered tail; a dropped head leaves just the filtered tail. */
  lemma FilterStep<T>(p: T -> bool, s: seq<T>)
    requires |s| > 0
    ensures p(s[0]) ==> && |Filter(p, s)| == |Filter(p, s[1..])| + 1
                        && Filter(p, s)[0] == s[0]
                        && forall i :: 0 < i < |Filter(p, s)| ==> Filter(p, s)[i] == Filter(p, s[1..])[i - 1]
    ensures !p(s[0]) ==> Filter(p, s) == Filter(p, s[1..])
  {
    if p(s[0]) {
      assert Filter(p, s) == [s[0]] + Filter(p, s[1..]);
    } else {
      assert Filter(p, s) == [] + Filter(p, s[1..]);
    }
  }

  /** The input position of the `i`-th element `p` keeps, counting from
      0; past the last kept element it keeps counting beyond the input. */
  ghost function Origin<T>(p: T -> bool, s: seq<T>, i: nat): nat
    decreases |s|
  {
    if |s| == 0 then i
    else if p(s[0]) then (if i == 0 then 0 else Origin(p, s[1..], i - 1) + 1)
    else Origin(p, s[1..], i) + 1
  }

  /** A later kept element comes from a later position. */
  lemma {:induction false} OriginMonotone<T>(p: T -> bool, s: seq<T>, i: nat, j: nat)
    requires i < j
    ensures Origin(p, s, i) < Origin(p, s, j)
    decreases |s|
  {
    if |s| > 0 {
      if p(s[0]) && i > 0 {
        OriginMonotone(p, s[1..], i - 1, j - 1);
      } else if !p(s[0]) {
        OriginMonotone(p, s[1..], i, j);
      }
    }
  }

  /** The `i`-th kept element is the input's element at its origin. */
  lemma {:induction false} OriginIndex<T>(p: T -> bool, s: seq<T>, i: nat)
    requires i < |Filter(p, s)|
    ensures Origin(p, s, i) < |s| && s[Origin(p, s, i)] == Filter(p, s)[i]
    decreases |s|
  {
    FilterStep(p, s);
    if !(p(s[0]) && i == 0) {
      var i' := if p(s[0]) then i - 1 else i;
      OriginIndex(p, s[1..], i');
      assert s[Origin(p, s[1..], i') + 1] == s[1..][Origin(p, s[1..], i')];
    }
  }

  /** Where two kept elements came from: two positions of the input, in
      the same order. */
  lemma FilterOrderPair<T>(p: T -> bool, s: seq<T>, i: nat, j: nat) returns (a: nat, b: nat)
    requires i < j < |Filter(p, s)|
    ensures a < b < |s| && s[a] == Filter(p, s)[i] && s[b] == Filter(p, s)[j]
  {
    a, b := Origin(p, s, i), Origin(p, s, j);
    OriginIndex(p, s, i);
    OriginIndex(p, s, j);
    OriginMonotone(p, s, i, j);
  }

  /** `String.prototype.includes`: `sub` occurs in `s` at some position
      (the empty string occurs in every string). */
  predicate Contains(s: string, sub: string) {
    exists i :: 0 <= i <= |s| - |sub| && OccursAt(s, sub, i)
  }

  /** `sub` occurs in `s` starting at position `i`. */
  predicate OccursAt(s: string, sub: string, i: nat)
    requires i <= |s| - |sub|
  {
    s[i..i + |sub|] == sub
  }

  lemma ContainsSelf(s: string)
    ensures Contains(s, s)
  {
    assert OccursAt(s, s, 0);
  }

  /** No two positions of `s` carry the same key. */
  ghost predicate DistinctBy<T, K>(s: seq<T>, key: T -> K) {
    forall i, j :: 0 <= i < j < |s| ==> key(s[i]) != key(s[j])
  }

  /** Keeping a sub-sequence keeps keys distinct. */
  lemma {:induction false} FilterKeepsDistinct<T, K>(p: T -> bool, s: seq<T>, key: T -> K)
    requires DistinctBy(s, key)
    ensures DistinctBy(Filter(p, s), key)
    decreases |s|
  {
    if |s| > 0 {
      var rest := Filter(p, s[1..]);
      FilterKeepsDistinct(p, s[1..], key);
      if p(s[0]) {
        forall y | y in rest
          ensures key(y) != key(s[0])
        {
          assert y in s[1..];
          var j :| 0 <= j < |s[1..]| && s[1..][j] == y;
          assert s[j + 1] == y;
        }
        var r := [s[0]] + rest;
        forall i, j | 0 <= i < j < |r|
          ensures key(r[i]) != key(r[j])
        {
          if i == 0 {
            assert r[j] == rest[j - 1];
            assert r[j] in rest;
          } else {
            assert r[i] == rest[i - 1] && r[j] == rest[j - 1];
          }
        }
      } else {
        assert Filter(p, s) == [] + rest;
        assert Filter(p, s) == rest;
      }
    }
  }

  /** No element occurs twice. */
  ghost predicate NoDuplicates<T>(s: seq<T>) {
    forall i, j :: 0 <= i < j < |s| ==> s[i] != s[j]
  }
}
