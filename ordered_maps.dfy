/**
 * Insertion-ordered dictionaries, as Python's `dict` behaves: a key sequence
 * without repetitions plus the map from those keys to their values.  Storing
 * under a new key appends it; storing under a present key keeps its position.
 */
module OrderedMaps {
  import opened Wrappers

  datatype OrderedMap<K(==), V> = OrderedMap(keys: seq<K>, entries: map<K, V>) {
    ghost predicate Valid() {
      && (forall i, j :: 0 <= i < j < |keys| ==> keys[i] != keys[j])
      && (forall k :: k in entries ==> k in keys)
      && (forall i :: 0 <= i < |keys| ==> keys[i] in entries)
    }
  }

  type OMap<K(==), V> = m: OrderedMap<K, V> | m.Valid() witness OrderedMap([], map[])

  function Empty<K(==), V>(): (r: OMap<K, V>)
    ensures r.keys == [] && r.entries == map[]
  {
    OrderedMap([], map[])
  }

  /** `d[k] = v` */
  function Put<K(==), V>(m: OMap<K, V>, k: K, v: V): (r: OMap<K, V>)
    ensures r.entries == m.entries[k := v]
    ensures k in m.entries ==> r.keys == m.keys
    ensures k !in m.entries ==> r.keys == m.keys + [k]
  {
    if k in m.entries then OrderedMap(m.keys, m.entries[k := v])
    else
      var keys := m.keys + [k];
      assert forall i :: 0 <= i < |m.keys| ==> keys[i] == m.keys[i];
      OrderedMap(keys, m.entries[k := v])
  }

  /** `d.get(k)` */
  function Get<K(==), V>(m: OMap<K, V>, k: K): (r: Option<V>)
    ensures r.Some? <==> k in m.keys
    ensures r.Some? ==> r.value == m.entries[k]
  {
    if k in m.entries then Some(m.entries[k]) else None
  }

  /** `list(d.values())`, in key order. */
  function ValuesOf<K(==), V>(m: OMap<K, V>): (r: seq<V>)
    ensures |r| == |m.keys|
    ensures forall i :: 0 <= i < |m.keys| ==> r[i] == m.entries[m.keys[i]]
  {
    seq(|m.keys|, i requires 0 <= i < |m.keys| => m.entries[m.keys[i]])
  }

  /** Replaces every value through `f`, keeping the keys and their order. */
  function MapValues<K(==), V, W>(m: OMap<K, V>, f: V -> W): (r: OMap<K, W>)
    ensures r.keys == m.keys && r.entries.Keys == m.entries.Keys
    ensures forall k :: k in m.entries ==> r.entries[k] == f(m.entries[k])
  {
    OrderedMap(m.keys, map k | k in m.entries :: f(m.entries[k]))
  }

  /** Two ordered maps with the same key order and the same value under every key are equal. */
  lemma SameEntries<K, V>(a: OMap<K, V>, b: OMap<K, V>)
    requires a.keys == b.keys && a.entries.Keys == b.entries.Keys
    requires forall k :: k in a.entries ==> a.entries[k] == b.entries[k]
    ensures a == b
  {
  }

  /** The position of a present key. */
  function IndexOf<K(==), V>(m: OMap<K, V>, k: K): (i: nat)
    requires k in m.entries
    ensures i < |m.keys| && m.keys[i] == k
  {
    IndexIn(m.keys, k)
  }

  function IndexIn<K(==)>(s: seq<K>, k: K): (i: nat)
    requires k in s
    ensures i < |s| && s[i] == k
  {
    if s[0] == k then 0 else 1 + IndexIn(s[1..], k)
  }
}
