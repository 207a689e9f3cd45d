/** Optional values and results shared by every module of the model. */
module Wrappers {

  /** An absent (`None`) or present (`Some`) value: JavaScript's `undefined`
      field, a missing environment variable, a lookup without a match. */
  datatype Option<+T> = None | Some(value: T)

  /** The outcome of an operation that either succeeds with a value or fails
      with an error the caller sees. */
  datatype Result<+T, +E> = Success(value: T) | Failure(error: E)
}
