/** Browser facilities the landing-page script reads, as plain values. */
module Dom {

  /** A value that may be missing; `None` stands for JavaScript's `null`. */
  datatype Option<T> = None | Some(value: T)

  /** `localStorage.getItem(key)` and `element.getAttribute(key)`: the value kept
      under `key`, or `null` when there is none. */
  function Lookup(m: map<string, string>, key: string): (r: Option<string>)
    ensures r.Some? <==> key in m
    ensures r.Some? ==> r.value == m[key]
  {
    if key in m then Some(m[key]) else None
  }

  /** JavaScript truthiness of a `string | null`: both `null` and `""` are falsy. */
  predicate Truthy(v: Option<string>)
  {
    v.Some? && v.value != ""
  }
}
