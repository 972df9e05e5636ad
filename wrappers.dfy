/** Option and Result, the two failure-carrying shapes the gateway uses. */
module Wrappers {

  datatype Option<+T> = None | Some(value: T)

  /** Rust's `Result<T, E>`: a value or the error that stopped the request. */
  datatype Result<+T, +E> = Success(value: T) | Failure(error: E)
}
