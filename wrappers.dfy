/** Optional values and error-carrying results, used for the request checks. */
module Wrappers {

  datatype Option<+T> = None | Some(value: T)

  /** The outcome of an operation that may throw: either its value or the error it raised. */
  datatype Result<+T, +E> = Ok(value: T) | Err(error: E)
}
