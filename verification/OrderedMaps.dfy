/** Maps that remember the order of insertion. */
module OrderedMaps {
  datatype OrderedMap<K, V> = OrderedMap(keys: seq<K>, at: map<K, V>)

  /** A key keeps its place when it is set again. */
  function Set<K, V>(m: OrderedMap<K, V>, k: K, v: V): OrderedMap<K, V> {
    OrderedMap(if k in m.at then m.keys else m.keys + [k], m.at[k := v])
  }
}
