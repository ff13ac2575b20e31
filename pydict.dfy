/**
 * A Python dict as an association list in insertion order. `d[k] = v` replaces the value of a
 * present key where it stands and appends a new key at the end, so a dict comprehension over a
 * list keeps, for each key, the value of its last occurrence. JSON.parse builds a JavaScript
 * object from repeated keys the same way.
 */
module PyDict {
  import opened Common

  type Dict<K, V> = seq<(K, V)>

  ghost predicate DistinctKeys<K, V>(d: Dict<K, V>) {
    forall i, j :: 0 <= i < j < |d| ==> d[i].0 != d[j].0
  }

  /** `k in d` and `d[k]`: the value stored under k, if any. */
  function Get<K(==), V>(d: Dict<K, V>, k: K): (r: Option<V>)
    ensures r.None? <==> forall i :: 0 <= i < |d| ==> d[i].0 != k
    ensures r.Some? ==> exists i :: 0 <= i < |d| && d[i] == (k, r.value)
  {
    if d == [] then None
    else if d[0].0 == k then
      assert d[0] == (k, d[0].1);
      Some(d[0].1)
    else
      var r := Get(d[1..], k);
      assert forall i :: 0 < i < |d| ==> d[i] == d[1..][i - 1];
      r
  }

  /** `d[k] = v` */
  function Put<K(==), V>(d: Dict<K, V>, k: K, v: V): (r: Dict<K, V>)
    ensures |r| == |d| || |r| == |d| + 1
  {
    if d == [] then [(k, v)]
    else if d[0].0 == k then [(k, v)] + d[1..]
    else [d[0]] + Put(d[1..], k, v)
  }

  lemma {:induction false} PutGet<K, V>(d: Dict<K, V>, k: K, v: V, k2: K)
    ensures Get(Put(d, k, v), k2) == if k2 == k then Some(v) else Get(d, k2)
  {
    if d != [] && d[0].0 != k {
      PutGet(d[1..], k, v, k2);
    }
  }

  lemma {:induction false} PutKeepsDistinct<K, V>(d: Dict<K, V>, k: K, v: V)
    requires DistinctKeys(d)
    ensures DistinctKeys(Put(d, k, v))
    ensures forall i :: 0 <= i < |Put(d, k, v)| ==> Put(d, k, v)[i].0 == k || Get(d, Put(d, k, v)[i].0).Some?
  {
    if d != [] {
      assert DistinctKeys(d[1..]) by {
        forall i, j | 0 <= i < j < |d[1..]| ensures d[1..][i].0 != d[1..][j].0 {
          assert d[1..][i] == d[i + 1] && d[1..][j] == d[j + 1];
        }
      }
      if d[0].0 != k {
        PutKeepsDistinct(d[1..], k, v);
        var rest := Put(d[1..], k, v);
        forall i | 0 <= i < |rest| ensures rest[i].0 != d[0].0 {
          if rest[i].0 != k {
            var g := Get(d[1..], rest[i].0);
            assert g.Some?;
            var j :| 0 <= j < |d[1..]| && d[1..][j] == (rest[i].0, g.value);
            assert d[j + 1].0 == rest[i].0;
          }
        }
        var r := Put(d, k, v);
        assert r == [d[0]] + rest;
        forall i, j | 0 <= i < j < |r| ensures r[i].0 != r[j].0 {
          if i == 0 {
            assert r[j] == rest[j - 1];
          } else {
            assert r[i] == rest[i - 1] && r[j] == rest[j - 1];
          }
        }
        forall i | 0 <= i < |Put(d, k, v)| ensures Put(d, k, v)[i].0 == k || Get(d, Put(d, k, v)[i].0).Some? {
          if i > 0 {
            assert Put(d, k, v)[i] == rest[i - 1];
          }
        }
      } else {
        var r := Put(d, k, v);
        forall i, j | 0 <= i < j < |r| ensures r[i].0 != r[j].0 {
          assert r[j] == d[j];
          if i > 0 {
            assert r[i] == d[i];
          }
        }
        forall i | 0 <= i < |r| ensures r[i].0 == k || Get(d, r[i].0).Some? {
          if i > 0 {
            assert r[i] == d[i];
          }
        }
      }
    }
  }

  /** `{key(x): x for x in xs}` */
  function Comprehension<T, K(==)>(xs: seq<T>, key: T -> K): Dict<K, T> {
    if xs == [] then []
    else
      var init := xs[..|xs| - 1];
      var x := xs[|xs| - 1];
      Put(Comprehension(init, key), key(x), x)
  }

  /** The last element with a given key. */
  function LastWithKey<T, K(==)>(xs: seq<T>, key: T -> K, k: K): Option<T> {
    if xs == [] then None
    else if key(xs[|xs| - 1]) == k then Some(xs[|xs| - 1])
    else LastWithKey(xs[..|xs| - 1], key, k)
  }

  /** Looking a key up in the comprehension finds the last element with that key, and nothing for a
      key no element has; the keys are distinct. */
  lemma {:induction false} ComprehensionGet<T, K>(xs: seq<T>, key: T -> K, k: K)
    ensures Get(Comprehension(xs, key), k) == LastWithKey(xs, key, k)
    ensures DistinctKeys(Comprehension(xs, key))
  {
    if xs != [] {
      var init := xs[..|xs| - 1];
      var x := xs[|xs| - 1];
      ComprehensionGet(init, key, k);
      PutGet(Comprehension(init, key), key(x), x, k);
      PutKeepsDistinct(Comprehension(init, key), key(x), x);
    }
  }

  /** The last element with a key is an element with that key; there is none exactly when no
      element has the key. */
  lemma {:induction false} LastWithKeyFound<T, K>(xs: seq<T>, key: T -> K, k: K)
    ensures LastWithKey(xs, key, k).Some? ==>
      LastWithKey(xs, key, k).value in xs && key(LastWithKey(xs, key, k).value) == k
    ensures LastWithKey(xs, key, k).None? <==> forall i :: 0 <= i < |xs| ==> key(xs[i]) != k
  {
    if xs != [] {
      var init := xs[..|xs| - 1];
      LastWithKeyFound(init, key, k);
      assert forall i :: 0 <= i < |init| ==> init[i] == xs[i];
    }
  }
}
