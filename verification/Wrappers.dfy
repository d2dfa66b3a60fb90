/** The option type and the map lookup shared by every model in this project. */
module Wrappers {

  datatype Option<+T> = None | Some(value: T)

  /** A row looked up by its key: the shape of a unique-index read. */
  function Get<K, V>(m: map<K, V>, k: K): Option<V> {
    if k in m then Some(m[k]) else None
  }
}
