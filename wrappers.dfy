/** Optional values: `None` stands for JavaScript's `undefined` (a missing map entry,
    an array search that found nothing, a payload field that is not there). */
module Wrappers {

  datatype Option<+T> = None | Some(value: T)

  /** `Map.prototype.get`: the entry for `k`, or `None`. */
  function Get<K, V>(m: map<K, V>, k: K): Option<V>
  {
    if k in m then Some(m[k]) else None
  }
}
