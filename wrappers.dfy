/** Optional values and success/failure results shared by the models. */
module Wrappers {

  /** A value that may be absent (JavaScript `undefined`/`null`, a missing query parameter). */
  datatype Option<+T> = None | Some(value: T)

  /** The outcome of an operation that either produces a value or reports an error. */
  datatype Result<+R, +E> = Success(value: R) | Failure(error: E)
}
