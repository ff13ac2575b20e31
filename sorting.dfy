/**
 * Stable sorting by a key, the behaviour of Python's list.sort(key=..., reverse=...) and of
 * JavaScript's Array.prototype.sort with a consistent comparator (stable since ES2019).
 * The sort is given as insertion sort; what matters is what it is proved to produce.
 */
module Sorting {
  import opened Common

  /** `lt` is a strict order: irreflexive and transitive. */
  ghost predicate StrictOrder<K(!new)>(lt: (K, K) -> bool) {
    (forall a :: !lt(a, a)) &&
    (forall a, b, c :: lt(a, b) && lt(b, c) ==> lt(a, c))
  }

  /** No element is strictly before an element to its left. */
  ghost predicate SortedBy<T, K>(s: seq<T>, key: T -> K, lt: (K, K) -> bool) {
    forall i, j :: 0 <= i < j < |s| ==> !lt(key(s[j]), key(s[i]))
  }

  /** Places x after every element of the sorted s that it is not strictly before. */
  function Insert<T, K>(x: T, s: seq<T>, key: T -> K, lt: (K, K) -> bool): (r: seq<T>)
    ensures multiset(r) == multiset(s) + multiset{x}
  {
    if s == [] then [x]
    else if lt(key(x), key(s[0])) then [x] + s
    else
      assert s == [s[0]] + s[1..];
      [s[0]] + Insert(x, s[1..], key, lt)
  }

  /** Stable sort: elements of equal key keep their input order. */
  function SortBy<T, K>(s: seq<T>, key: T -> K, lt: (K, K) -> bool): seq<T>
  {
    if s == [] then [] else Insert(s[|s| - 1], SortBy(s[..|s| - 1], key, lt), key, lt)
  }

  /** The elements of s whose key is v, in order. */
  function WithKey<T, K(==)>(s: seq<T>, key: T -> K, v: K): seq<T> {
    Filter(s, x => key(x) == v)
  }

  lemma {:induction false} SortByPermutes<T, K>(s: seq<T>, key: T -> K, lt: (K, K) -> bool)
    ensures multiset(SortBy(s, key, lt)) == multiset(s)
    ensures |SortBy(s, key, lt)| == |s|
  {
    if s != [] {
      var init := s[..|s| - 1];
      SortByPermutes(init, key, lt);
      assert s == init + [s[|s| - 1]];
    }
    assert |multiset(SortBy(s, key, lt))| == |SortBy(s, key, lt)|;
  }

  lemma {:induction false} InsertSorted<T, K(!new)>(x: T, s: seq<T>, key: T -> K, lt: (K, K) -> bool)
    requires StrictOrder(lt) && SortedBy(s, key, lt)
    ensures SortedBy(Insert(x, s, key, lt), key, lt)
  {
    if s == [] {
    } else if lt(key(x), key(s[0])) {
      var r := [x] + s;
      forall i, j | 0 <= i < j < |r| ensures !lt(key(r[j]), key(r[i])) {
        if i == 0 {
          assert !lt(key(s[j - 1]), key(s[0]));
        }
      }
    } else {
      var rest := Insert(x, s[1..], key, lt);
      SortedTail(s, key, lt);
      InsertSorted(x, s[1..], key, lt);
      var r := [s[0]] + rest;
      forall j | 0 <= j < |rest| ensures !lt(key(rest[j]), key(s[0])) {
        assert rest[j] in multiset(rest);
        assert rest[j] == x || rest[j] in multiset(s[1..]);
        if rest[j] != x {
          var k :| 0 <= k < |s[1..]| && s[1..][k] == rest[j];
          assert s[k + 1] == rest[j];
        }
      }
      forall i, j | 0 <= i < j < |r| ensures !lt(key(r[j]), key(r[i])) {
        if i == 0 {
          assert r[j] == rest[j - 1];
        } else {
          assert r[j] == rest[j - 1] && r[i] == rest[i - 1];
        }
      }
    }
  }

  /** The sort orders its output. */
  lemma {:induction false} SortBySorted<T, K(!new)>(s: seq<T>, key: T -> K, lt: (K, K) -> bool)
    requires StrictOrder(lt)
    ensures SortedBy(SortBy(s, key, lt), key, lt)
  {
    if s != [] {
      SortBySorted(s[..|s| - 1], key, lt);
      InsertSorted(s[|s| - 1], SortBy(s[..|s| - 1], key, lt), key, lt);
    }
  }

  lemma {:induction false} NoneWithKey<T, K>(s: seq<T>, key: T -> K, v: K)
    requires forall i :: 0 <= i < |s| ==> key(s[i]) != v
    ensures WithKey(s, key, v) == []
  {
    if s != [] {
      NoneWithKey(s[1..], key, v);
    }
  }

  lemma WithKeyAppend<T, K>(a: seq<T>, b: seq<T>, key: T -> K, v: K)
    ensures WithKey(a + b, key, v) == WithKey(a, key, v) + WithKey(b, key, v)
  {
    FilterAppend(a, b, x => key(x) == v);
  }

  lemma SortedTail<T, K>(s: seq<T>, key: T -> K, lt: (K, K) -> bool)
    requires s != [] && SortedBy(s, key, lt)
    ensures SortedBy(s[1..], key, lt)
  {
    forall i, j | 0 <= i < j < |s[1..]| ensures !lt(key(s[1..][j]), key(s[1..][i])) {
      assert s[1..][j] == s[j + 1] && s[1..][i] == s[i + 1];
    }
  }

  /** Inserting in front of a sorted sequence whose first key is strictly after x's. */
  lemma InsertStableFront<T, K>(x: T, s: seq<T>, key: T -> K, lt: (K, K) -> bool, v: K)
    requires s != [] && !lt(key(x), key(x)) && SortedBy(s, key, lt) && lt(key(x), key(s[0]))
    ensures WithKey([x] + s, key, v) == WithKey(s, key, v) + (if key(x) == v then [x] else [])
  {
    WithKeyAppend([x], s, key, v);
    if key(x) == v {
      forall i | 0 <= i < |s| ensures key(s[i]) != v {
        if i > 0 {
          assert !lt(key(s[i]), key(s[0]));
        }
      }
      NoneWithKey(s, key, v);
    }
  }

  /** Inserting after the first element, given the result for the rest. */
  lemma InsertStableLater<T, K>(x: T, s: seq<T>, rest: seq<T>, key: T -> K, v: K)
    requires s != []
    requires WithKey(rest, key, v) == WithKey(s[1..], key, v) + (if key(x) == v then [x] else [])
    ensures WithKey([s[0]] + rest, key, v) == WithKey(s, key, v) + (if key(x) == v then [x] else [])
  {
    WithKeyAppend([s[0]], rest, key, v);
    WithKeyAppend([s[0]], s[1..], key, v);
    assert [s[0]] + s[1..] == s;
  }

  lemma {:induction false} InsertStable<T, K>(x: T, s: seq<T>, key: T -> K, lt: (K, K) -> bool, v: K)
    requires !lt(key(x), key(x)) && SortedBy(s, key, lt)
    ensures WithKey(Insert(x, s, key, lt), key, v) == WithKey(s, key, v) + (if key(x) == v then [x] else [])
  {
    if s == [] {
    } else if lt(key(x), key(s[0])) {
      InsertStableFront(x, s, key, lt, v);
    } else {
      SortedTail(s, key, lt);
      InsertStable(x, s[1..], key, lt, v);
      InsertStableLater(x, s, Insert(x, s[1..], key, lt), key, v);
    }
  }

  /** Stability: for every key, the elements with that key appear in their input order. */
  lemma {:induction false} SortByStable<T, K(!new)>(s: seq<T>, key: T -> K, lt: (K, K) -> bool, v: K)
    requires StrictOrder(lt)
    ensures WithKey(SortBy(s, key, lt), key, v) == WithKey(s, key, v)
    decreases |s|, 1
  {
    if s != [] {
      var init, last := s[..|s| - 1], s[|s| - 1];
      SortByStableStep(init, last, key, lt, v);
      assert s == init + [last];
    }
  }

  /** The induction step of SortByStable: appending one element. */
  lemma {:induction false} SortByStableStep<T, K(!new)>(init: seq<T>, last: T, key: T -> K, lt: (K, K) -> bool, v: K)
    requires StrictOrder(lt)
    ensures WithKey(SortBy(init + [last], key, lt), key, v) == WithKey(init + [last], key, v)
    decreases |init| + 1, 0
  {
    SortByStable(init, key, lt, v);
    SortBySorted(init, key, lt);
    assert !lt(key(last), key(last));
    var s := init + [last];
    var sorted := SortBy(init, key, lt);
    var tail := if key(last) == v then [last] else [];
    assert s[..|s| - 1] == init && s[|s| - 1] == last;
    InsertStable(last, sorted, key, lt, v);
    WithKeyAppend(init, [last], key, v);
    calc {
      WithKey(SortBy(s, key, lt), key, v);
      WithKey(Insert(last, sorted, key, lt), key, v);
      WithKey(sorted, key, v) + tail;
      WithKey(init, key, v) + tail;
      WithKey(s, key, v);
    }
  }
}
