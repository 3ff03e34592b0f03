/** Rust's `Option<T>` and the handful of combinators the resolver is built from. */
module Options {

  datatype Option<T> = None | Some(value: T) {

    /** `Option::and_then`: feed the value, if any, to `f`. */
    function AndThen<U>(f: T -> Option<U>): (r: Option<U>)
      ensures None? ==> r == None
    {
      match this
      case Some(v) => f(v)
      case None => None
    }

    /** `Option::or_else`: keep a present value, otherwise ask `f` for one. */
    function OrElse(f: () -> Option<T>): (r: Option<T>)
      ensures Some? ==> r == this
    {
      match this
      case Some(_) => this
      case None => f()
    }

    /** `Option::map_or`: apply `f` to a present value, otherwise `default`. */
    function MapOr<U>(default: U, f: T -> U): (r: U)
      ensures None? ==> r == default
    {
      match this
      case Some(v) => f(v)
      case None => default
    }

    /** `Option::unwrap_or`: the value, or `default` when there is none. */
    function UnwrapOr(default: T): (r: T)
      ensures None? ==> r == default
    {
      match this
      case Some(v) => v
      case None => default
    }
  }

  /** `HashMap::get`: the entry stored under `k`, if there is one. */
  function Get<K, V>(m: map<K, V>, k: K): (r: Option<V>)
    ensures r.Some? <==> k in m
  {
    if k in m then Some(m[k]) else None
  }
}
