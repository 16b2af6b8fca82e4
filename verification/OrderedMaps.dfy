/** Insertion-ordered maps: the browser's Map and Python's dict. */
module OrderedMaps {

  datatype Entry<K, V> = Entry(key: K, value: V)

  type OrderedMap<K, V> = seq<Entry<K, V>>

  predicate Has<K(==), V>(m: OrderedMap<K, V>, k: K) {
    exists i | 0 <= i < |m| :: m[i].key == k
  }

  /** `m.set(k, v)` / `m[k] = v`: a key already present keeps its place. */
  function Put<K(==), V>(m: OrderedMap<K, V>, k: K, v: V): OrderedMap<K, V> {
    if |m| == 0 then [Entry(k, v)]
    else if m[0].key == k then [Entry(k, v)] + m[1..]
    else [m[0]] + Put(m[1..], k, v)
  }

  function Delete<K(==), V>(m: OrderedMap<K, V>, k: K): OrderedMap<K, V> {
    if |m| == 0 then []
    else if m[0].key == k then Delete(m[1..], k)
    else [m[0]] + Delete(m[1..], k)
  }

  lemma {:induction false} PutFresh<K, V>(m: OrderedMap<K, V>, k: K, v: V)
    requires !Has(m, k)
    ensures Put(m, k, v) == m + [Entry(k, v)]
  {
    if |m| > 0 {
      assert m[0].key != k;
      forall i | 0 <= i < |m[1..]| ensures m[1..][i].key != k {
        assert m[i + 1].key != k;
      }
      PutFresh(m[1..], k, v);
    }
  }

  lemma {:induction false} DeletedKeys<K, V>(m: OrderedMap<K, V>, k: K)
    ensures !Has(Delete(m, k), k)
    ensures forall e | e in Delete(m, k) :: e in m
    ensures forall e | e in m && e.key != k :: e in Delete(m, k)
  {
    if |m| > 0 {
      DeletedKeys(m[1..], k);
      forall e | e in m && e.key != k ensures e in Delete(m, k) {
        if e != m[0] {
          assert e in m[1..];
        }
      }
    }
  }
}
