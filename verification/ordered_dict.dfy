/**
 * Python dictionaries as association lists in insertion order: iteration
 * (`items()`, `keys()`) visits the entries from first to last, and assigning
 * to a key that is present keeps its place.
 */
module OrderedDict {
  import opened Wrappers

  type Dict<K, V> = seq<(K, V)>

  function Keys<K(==), V(==)>(d: Dict<K, V>): (ks: seq<K>)
    ensures |ks| == |d|
  {
    seq(|d|, i requires 0 <= i < |d| => d[i].0)
  }

  predicate DistinctKeys<K(==), V(==)>(d: Dict<K, V>) {
    forall i, j :: 0 <= i < j < |d| ==> d[i].0 != d[j].0
  }

  predicate HasKey<K(==), V(==)>(d: Dict<K, V>, k: K) {
    exists i :: 0 <= i < |d| && d[i].0 == k
  }

  /** `d[k]`, or None when `k` is not a key. */
  function Get<K(==), V(==)>(d: Dict<K, V>, k: K): (r: Option<V>)
    ensures r.Some? <==> HasKey(d, k)
    ensures r.Some? ==> (k, r.value) in d
    ensures DistinctKeys(d) ==> forall i :: 0 <= i < |d| && d[i].0 == k ==> r == Some(d[i].1)
  {
    if |d| == 0 then None
    else if d[0].0 == k then Some(d[0].1)
    else
      var r := Get(d[1..], k);
      assert HasKey(d[1..], k) ==> HasKey(d, k) by {
        if HasKey(d[1..], k) {
          var i :| 0 <= i < |d| - 1 && d[1..][i].0 == k;
          assert d[i + 1].0 == k;
        }
      }
      r
  }

  /** `d[k] = v`: the entry for `k` becomes `(k, v)`; every other entry is one of `d`'s. */
  function Put<K(==), V(==)>(d: Dict<K, V>, k: K, v: V): (r: Dict<K, V>)
    ensures (k, v) in r
    ensures forall e :: e in r ==> e == (k, v) || e in d
  {
    if |d| == 0 then [(k, v)]
    else if d[0].0 == k then [(k, v)] + d[1..]
    else [d[0]] + Put(d[1..], k, v)
  }

  /**
   * Assignment keeps the dictionary's order: a present key is overwritten in
   * its place, a new key is appended last, and no other entry changes.
   */
  lemma {:induction false} PutInPlace<K, V>(d: Dict<K, V>, k: K, v: V)
    ensures HasKey(d, k) ==> |Put(d, k, v)| == |d|
    ensures !HasKey(d, k) ==> Put(d, k, v) == d + [(k, v)]
    ensures forall i :: 0 <= i < |d| ==> Put(d, k, v)[i].0 == d[i].0
    ensures forall i :: 0 <= i < |d| && d[i].0 != k ==> Put(d, k, v)[i] == d[i]
  {
    if |d| > 0 && d[0].0 != k {
      PutInPlace(d[1..], k, v);
      assert HasKey(d, k) ==> HasKey(d[1..], k) by {
        if HasKey(d, k) {
          var i :| 0 <= i < |d| && d[i].0 == k;
          assert i > 0 && d[1..][i - 1].0 == k;
        }
      }
      assert HasKey(d[1..], k) ==> HasKey(d, k) by {
        if HasKey(d[1..], k) {
          var i :| 0 <= i < |d| - 1 && d[1..][i].0 == k;
          assert d[i + 1].0 == k;
        }
      }
    }
  }

  /** Assignment keeps the keys distinct. */
  lemma PutKeepsDistinct<K, V>(d: Dict<K, V>, k: K, v: V)
    requires DistinctKeys(d)
    ensures DistinctKeys(Put(d, k, v))
  {
    PutInPlace(d, k, v);
  }

  /** Assigning to a key never removes another key, and the new value is what `Get` returns. */
  lemma {:induction false} PutThenGet<K, V>(d: Dict<K, V>, k: K, v: V, k': K)
    ensures Get(Put(d, k, v), k) == Some(v)
    ensures k' != k ==> Get(Put(d, k, v), k') == Get(d, k')
  {
    if |d| == 0 {
    } else if d[0].0 == k {
      assert Put(d, k, v)[1..] == d[1..];
    } else {
      PutThenGet(d[1..], k, v, k');
      assert Put(d, k, v)[1..] == Put(d[1..], k, v);
    }
  }
}
