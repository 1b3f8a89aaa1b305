/** Small shared vocabulary. */
module Options {
  datatype Option<T> = None | Some(value: T) {
    function Or(other: Option<T>): Option<T> { if Some? then this else other }
  }

  function Lookup<K, V>(m: map<K, V>, k: K): (r: Option<V>)
    ensures r.Some? <==> k in m
  {
    if k in m then Some(m[k]) else None
  }
}
