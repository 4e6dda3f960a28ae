/**
 * A Python `dict` as the model sees it: key/value pairs in insertion order,
 * no key twice. Assigning to a present key replaces its value where it
 * stands; assigning to a new key appends it.
 */
module Dict {
  import opened Wrappers

  type Dict<K, V> = seq<(K, V)>

  predicate DistinctKeys<K(==), V>(d: Dict<K, V>) {
    forall i, j :: 0 <= i < j < |d| ==> d[i].0 != d[j].0
  }

  predicate HasKey<K(==), V>(d: Dict<K, V>, k: K) {
    exists i :: 0 <= i < |d| && d[i].0 == k
  }

  /** `d.values()`, in insertion order. */
  function Values<K, V>(d: Dict<K, V>): seq<V> {
    seq(|d|, i requires 0 <= i < |d| => d[i].1)
  }

  /** `list(d)`: the keys, in insertion order. */
  function Keys<K, V>(d: Dict<K, V>): seq<K> {
    seq(|d|, i requires 0 <= i < |d| => d[i].0)
  }

  /** A key is in a non-empty dict when it is the first key or a key of the rest. */
  lemma HasKeyTail<K, V>(d: Dict<K, V>, k: K)
    requires d != []
    ensures HasKey(d, k) <==> d[0].0 == k || HasKey(d[1..], k)
  {
    if d[0].0 != k && HasKey(d, k) {
      var i :| 0 <= i < |d| && d[i].0 == k;
      assert d[1..][i - 1].0 == k;
    }
    if HasKey(d[1..], k) {
      var i :| 0 <= i < |d[1..]| && d[1..][i].0 == k;
      assert d[i + 1].0 == k;
    }
  }

  /** Extending a non-empty sequence, seen from its first element. */
  lemma ConsAppend<T>(s: seq<T>, x: T)
    requires s != []
    ensures s + [x] == [s[0]] + (s[1..] + [x])
  {
  }

  /** `d.get(k)`: the value stored under `k`, absent exactly when `k` is not a key. */
  function Get<K(==), V>(d: Dict<K, V>, k: K): (r: Option<V>)
    ensures r.None? <==> !HasKey(d, k)
    ensures r.Some? ==> exists i :: 0 <= i < |d| && d[i] == (k, r.value)
  {
    if d == [] then None
    else if d[0].0 == k then Some(d[0].1)
    else HasKeyTail(d, k); Get(d[1..], k)
  }

  /** In a dict with distinct keys, looking up the key of any pair gives that pair's value. */
  lemma {:induction false} GetAt<K, V>(d: Dict<K, V>, i: nat)
    requires DistinctKeys(d) && i < |d|
    ensures Get(d, d[i].0) == Some(d[i].1)
  {
    if i > 0 {
      assert d[1..][i - 1] == d[i];
      GetAt(d[1..], i - 1);
    }
  }

  /** `d[k] = v`. */
  function Put<K(==), V>(d: Dict<K, V>, k: K, v: V): (r: Dict<K, V>)
    requires DistinctKeys(d)
    ensures DistinctKeys(r)
    ensures forall i :: 0 <= i < |d| && d[i].0 == k ==> r == d[i := (k, v)]
    ensures !HasKey(d, k) ==> r == d + [(k, v)]
  {
    if d == [] then [(k, v)]
    else if d[0].0 == k then [(k, v)] + d[1..]
    else
      HasKeyTail(d, k);
      ConsAppend(d, (k, v));
      [d[0]] + Put(d[1..], k, v)
  }

  /** Reading back the key just assigned gives the assigned value. */
  lemma {:induction false} GetPutSame<K, V>(d: Dict<K, V>, k: K, v: V)
    requires DistinctKeys(d)
    ensures Get(Put(d, k, v), k) == Some(v)
  {
    if d != [] && d[0].0 != k {
      GetPutSame(d[1..], k, v);
    }
  }

  /** Assigning one key leaves every other key's value as it was. */
  lemma {:induction false} GetPutOther<K, V>(d: Dict<K, V>, k: K, v: V, k': K)
    requires DistinctKeys(d) && k' != k
    ensures Get(Put(d, k, v), k') == Get(d, k')
  {
    if d != [] && d[0].0 != k {
      GetPutOther(d[1..], k, v, k');
    }
  }

  /** The keys after an assignment are the keys before plus the assigned one. */
  lemma {:induction false} HasKeyPut<K, V>(d: Dict<K, V>, k: K, v: V, k': K)
    requires DistinctKeys(d)
    ensures HasKey(Put(d, k, v), k') <==> HasKey(d, k') || k' == k
  {
    var r := Put(d, k, v);
    if HasKey(d, k) {
      var i :| 0 <= i < |d| && d[i].0 == k;
      assert r == d[i := (k, v)];
      if HasKey(d, k') {
        var j :| 0 <= j < |d| && d[j].0 == k';
        assert r[j].0 == k';
      }
      if HasKey(r, k') {
        var j :| 0 <= j < |r| && r[j].0 == k';
        assert j == i || d[j].0 == k';
      }
    } else {
      assert r == d + [(k, v)];
      assert r[|d|].0 == k;
      if HasKey(d, k') {
        var j :| 0 <= j < |d| && d[j].0 == k';
        assert r[j].0 == k';
      }
      if HasKey(r, k') {
        var j :| 0 <= j < |r| && r[j].0 == k';
        assert j == |d| || d[j].0 == k';
      }
    }
  }

  /** The keys after an assignment: unchanged for a present key, the new key appended otherwise. */
  lemma KeysPut<K, V>(d: Dict<K, V>, k: K, v: V)
    requires DistinctKeys(d)
    ensures Keys(Put(d, k, v)) == if k in Keys(d) then Keys(d) else Keys(d) + [k]
  {
    if HasKey(d, k) {
      var i :| 0 <= i < |d| && d[i].0 == k;
      assert Keys(d)[i] == k;
      assert Put(d, k, v) == d[i := (k, v)];
    } else {
      assert Put(d, k, v) == d + [(k, v)];
    }
  }
}
