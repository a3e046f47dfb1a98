/** A stable insertion sort on sequences, used for Python's `sorted(..., reverse=True)` /
    `list.sort(..., reverse=True)` and for JavaScript's `Array.prototype.sort`.
    `before(a, b)` says that an element with key `a` may stand before one with key `b`. */
module Sorting {

  /** `before` is total and transitive, as the comparisons the sources use are. */
  ghost predicate TotalPreorder<K(!new)>(before: (K, K) -> bool) {
    && (forall a, b :: before(a, b) || before(b, a))
    && (forall a, b, c :: before(a, b) && before(b, c) ==> before(a, c))
  }

  ghost predicate SortedBy<T, K>(s: seq<T>, key: T -> K, before: (K, K) -> bool) {
    forall i, j :: 0 <= i < j < |s| ==> before(key(s[i]), key(s[j]))
  }

  /** Puts `x` in front of the first element it may precede; earlier elements of equal key
      therefore stay in front, which makes Sort stable. */
  function Insert<T, K>(x: T, s: seq<T>, key: T -> K, before: (K, K) -> bool): (r: seq<T>)
    ensures |r| == |s| + 1
    ensures multiset(r) == multiset(s) + multiset{x}
  {
    if s == [] || before(key(x), key(s[0])) then [x] + s
    else
      assert s == [s[0]] + s[1..];
      [s[0]] + Insert(x, s[1..], key, before)
  }

  function Sort<T, K>(s: seq<T>, key: T -> K, before: (K, K) -> bool): (r: seq<T>)
    ensures |r| == |s|
    ensures multiset(r) == multiset(s)
  {
    if s == [] then []
    else
      assert s == [s[0]] + s[1..];
      Insert(s[0], Sort(s[1..], key, before), key, before)
  }

  lemma {:induction false} InsertSorted<T, K(!new)>(x: T, s: seq<T>, key: T -> K, before: (K, K) -> bool)
    requires TotalPreorder(before)
    requires SortedBy(s, key, before)
    ensures SortedBy(Insert(x, s, key, before), key, before)
  {
    if s != [] && !before(key(x), key(s[0])) {
      var rest := Insert(x, s[1..], key, before);
      InsertSorted(x, s[1..], key, before);
      var r := [s[0]] + rest;
      forall j | 0 <= j < |rest|
        ensures before(key(s[0]), key(rest[j]))
      {
        assert rest[j] in multiset(rest);
        if rest[j] != x {
          assert rest[j] in multiset(s[1..]);
          var k :| 0 <= k < |s[1..]| && s[1..][k] == rest[j];
          assert s[k + 1] == rest[j];
        }
      }
      forall i, j | 0 <= i < j < |r|
        ensures before(key(r[i]), key(r[j]))
      {
        if i > 0 {
          assert r[i] == rest[i - 1] && r[j] == rest[j - 1];
        } else {
          assert r[j] == rest[j - 1];
        }
      }
    }
  }

  lemma {:induction false} SortSorted<T, K(!new)>(s: seq<T>, key: T -> K, before: (K, K) -> bool)
    requires TotalPreorder(before)
    ensures SortedBy(Sort(s, key, before), key, before)
  {
    if s != [] {
      SortSorted(s[1..], key, before);
      InsertSorted(s[0], Sort(s[1..], key, before), key, before);
    }
  }

  /** Python slicing `s[:n]` for a non-negative `n`. */
  function Take<T>(s: seq<T>, n: nat): (r: seq<T>)
    ensures |r| == if n < |s| then n else |s|
    ensures r == s[..|r|]
  {
    if n < |s| then s[..n] else s
  }

  lemma TakeSorted<T, K>(s: seq<T>, n: nat, key: T -> K, before: (K, K) -> bool)
    requires SortedBy(s, key, before)
    ensures SortedBy(Take(s, n), key, before)
  {
  }

  /** The first `n` elements after sorting are taken from the input, in order, and every
      element left out may stand after each of them: nothing better was dropped. */
  lemma TakeSortTop<T, K(!new)>(s: seq<T>, n: nat, key: T -> K, before: (K, K) -> bool)
    requires TotalPreorder(before)
    ensures var t := Take(Sort(s, key, before), n);
      && multiset(t) <= multiset(s)
      && SortedBy(t, key, before)
      && forall x, i :: x in multiset(s) - multiset(t) && 0 <= i < |t| ==> before(key(t[i]), key(x))
  {
    var sorted := Sort(s, key, before);
    SortSorted(s, key, before);
    var t := Take(sorted, n);
    var rest := sorted[|t|..];
    assert sorted == t + rest;
    assert multiset(sorted) == multiset(t) + multiset(rest);
    forall x, i | x in multiset(s) - multiset(t) && 0 <= i < |t|
      ensures before(key(t[i]), key(x))
    {
      assert x in rest;
      var k :| 0 <= k < |rest| && rest[k] == x;
      assert sorted[|t| + k] == x && sorted[i] == t[i];
    }
  }
}
