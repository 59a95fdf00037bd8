/**
 * Newest-first ordering. The source sorts its lists with the built-in,
 * stable `Array.prototype.sort` and the comparator `(a, b) => b.timestamp - a.timestamp`;
 * the model is a stable insertion sort over sequences, keyed by a timestamp.
 */
module Ordering {

  /** Every element is at least as recent as every element after it. */
  ghost predicate NewestFirst<T>(s: seq<T>, key: T -> int) {
    forall i, j :: 0 <= i < j < |s| ==> key(s[i]) >= key(s[j])
  }

  /** Put `x` in front of the first element that is not newer than it. */
  function Insert<T>(x: T, s: seq<T>, key: T -> int): (r: seq<T>)
    requires NewestFirst(s, key)
    ensures NewestFirst(r, key)
    ensures multiset(r) == multiset(s) + multiset{x}
    ensures |r| == |s| + 1
    ensures key(r[0]) == key(x) || (s != [] && key(r[0]) == key(s[0]))
  {
    if s == [] || key(x) >= key(s[0]) then [x] + s
    else
      var rest := Insert(x, s[1..], key);
      assert s == [s[0]] + s[1..];
      assert key(rest[0]) <= key(s[0]);
      [s[0]] + rest
  }

  /** The list sorted by `key`, largest (newest) first; ties keep their order (`SortIsStable`). */
  function SortNewestFirst<T>(s: seq<T>, key: T -> int): (r: seq<T>)
    ensures NewestFirst(r, key)
    ensures multiset(r) == multiset(s)
    ensures |r| == |s|
  {
    if s == [] then []
    else
      assert s == [s[0]] + s[1..];
      Insert(s[0], SortNewestFirst(s[1..], key), key)
  }

  /** A list that is already newest first is left as it is. */
  lemma {:induction false} SortKeepsSorted<T>(s: seq<T>, key: T -> int)
    requires NewestFirst(s, key)
    ensures SortNewestFirst(s, key) == s
  {
    if s != [] {
      SortKeepsSorted(s[1..], key);
      assert s == [s[0]] + s[1..];
    }
  }

  /** The elements of `s` whose key is `k`, in their order in `s`. */
  function WithKey<T>(s: seq<T>, key: T -> int, k: int): seq<T> {
    if s == [] then []
    else if key(s[0]) == k then [s[0]] + WithKey(s[1..], key, k)
    else WithKey(s[1..], key, k)
  }

  /** `WithKey` of a list with a known head. */
  lemma WithKeyCons<T>(y: T, t: seq<T>, key: T -> int, k: int)
    ensures key(y) == k ==> WithKey([y] + t, key, k) == [y] + WithKey(t, key, k)
    ensures key(y) != k ==> WithKey([y] + t, key, k) == WithKey(t, key, k)
  {
    assert ([y] + t)[1..] == t;
  }

  /** An element older than the head is inserted into the tail. */
  lemma InsertPastHead<T>(x: T, s: seq<T>, key: T -> int)
    requires NewestFirst(s, key) && s != [] && key(x) < key(s[0])
    ensures NewestFirst(s[1..], key)
    ensures Insert(x, s, key) == [s[0]] + Insert(x, s[1..], key)
  {}

  /** Inserting `x` puts it in front of every element with the same key. */
  lemma {:induction false} InsertWithKey<T>(x: T, s: seq<T>, key: T -> int, k: int)
    requires NewestFirst(s, key)
    ensures key(x) == k ==> WithKey(Insert(x, s, key), key, k) == [x] + WithKey(s, key, k)
    ensures key(x) != k ==> WithKey(Insert(x, s, key), key, k) == WithKey(s, key, k)
  {
    if s == [] || key(x) >= key(s[0]) {
      WithKeyCons(x, s, key, k);
    } else {
      InsertPastHead(x, s, key);
      var rest := Insert(x, s[1..], key);
      WithKeyCons(s[0], rest, key, k);
      InsertWithKey(x, s[1..], key, k);
      assert key(x) == k ==> key(s[0]) != k;
    }
  }

  /** The sort is stable: elements with equal keys keep their relative input order. */
  lemma {:induction false} SortIsStable<T>(s: seq<T>, key: T -> int, k: int)
    ensures WithKey(SortNewestFirst(s, key), key, k) == WithKey(s, key, k)
  {
    if s != [] {
      SortIsStable(s[1..], key, k);
      InsertWithKey(s[0], SortNewestFirst(s[1..], key), key, k);
    }
  }
}
