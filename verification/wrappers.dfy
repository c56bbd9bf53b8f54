/** Optional values and success/failure results used across the model. */
module Wrappers {

  /** A value that may be absent: a missing JSON field or map entry. */
  datatype Option<+T> = None | Some(value: T)

  /** The outcome of a request handler: a value, or the error it answers with. */
  datatype Result<+R, +E> = Success(value: R) | Failure(error: E)
}
