/** A value that may be missing: an absent key, column or row. */
module Options {

  datatype Option<T> = None | Some(value: T)

  function Get<K, V>(m: map<K, V>, k: K): Option<V> {
    if k in m then Some(m[k]) else None
  }
}
