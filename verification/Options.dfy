/** The one helper datatype shared by every model. */
module Options {
  datatype Option<+T> = None | Some(value: T)

  /** Map lookup that answers `None` for a missing key. */
  function Get<K, V>(m: map<K, V>, k: K): Option<V> {
    if k in m then Some(m[k]) else None
  }
}
