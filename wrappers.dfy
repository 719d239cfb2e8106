/** Optional values: Swift's `nil` and `T?`. */
module Wrappers {

  datatype Option<+T> = None | Some(value: T)

  /** Swift's nil-coalescing operator `a ?? b`. */
  function Coalesce<T>(a: Option<T>, b: Option<T>): (r: Option<T>)
    ensures a.Some? ==> r == a
    ensures a.None? ==> r == b
  {
    if a.Some? then a else b
  }
}
