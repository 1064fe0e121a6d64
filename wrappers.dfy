/** Optional values: a pending tool kind that may be absent. */
module Wrappers {

  datatype Option<+T> = None | Some(value: T)

  /** The entry of `m` at `k`, or None when `k` is not a key. */
  function Get<K, V>(m: map<K, V>, k: K): (r: Option<V>)
    ensures r.Some? <==> k in m
    ensures r.Some? ==> r.value == m[k]
  {
    if k in m then Some(m[k]) else None
  }
}
