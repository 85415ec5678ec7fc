/** Optional values and success/failure results, standing in for Python's
    `None` arguments and raised exceptions. */
module Wrappers {

  /** An argument that may have been left as `None`. */
  datatype Option<+T> = None | Some(value: T)

  /** A computation that either returns a value or raises an error. */
  datatype Result<+T, +E> = Success(value: T) | Failure(error: E)
}
