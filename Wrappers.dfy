/** Option and Result, used for Python's "value or None" and for calls that may raise. */
module Wrappers {

  datatype Option<+T> = None | Some(value: T) {
    /** Python's `d.get(key, default)` once the lookup has been done. */
    function GetOr(default: T): T {
      match this
      case Some(v) => v
      case None => default
    }
  }

  /** The outcome of a collaborator call: a value, or the exception it raised. */
  datatype Result<+R, +E> = Ok(value: R) | Err(error: E)

  /** `m.get(k, default)` on a Python dictionary. */
  function Get<K, V>(m: map<K, V>, k: K, default: V): V {
    if k in m then m[k] else default
  }

  /** `m.get(k)` on a Python dictionary: None when the key is missing. */
  function Lookup<K, V>(m: map<K, V>, k: K): Option<V> {
    if k in m then Some(m[k]) else None
  }
}
