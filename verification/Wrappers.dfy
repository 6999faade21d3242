/** Optional values. */
module Wrappers {

  datatype Option<+T> = None | Some(value: T)

  /** Both parts of a two-part computation, or nothing when either failed. */
  function Both<T>(a: Option<seq<T>>, b: Option<seq<T>>): Option<seq<T>> {
    if a.Some? && b.Some? then Some(a.value + b.value) else None
  }
}
