/** Option and Result, the two failure-carrying shapes the Rust code uses. */
module Wrappers {

  datatype Option<+T> = None | Some(value: T)

  /** `Result<T, E>`: the value of a successful call, or the error it returned. */
  datatype Result<+T, +E> = Success(value: T) | Failure(error: E)

  /** `Option::unwrap_or`. */
  function UnwrapOr<T>(o: Option<T>, default: T): (r: T)
    ensures o.Some? ==> r == o.value
    ensures o.None? ==> r == default
  {
    match o
    case Some(v) => v
    case None => default
  }
}
