/** Optional values and error-carrying results, used for Python's None and raised exceptions. */
module Wrappers {

  /** A value that may be absent (Python's None). */
  datatype Option<+T> = None | Some(value: T)

  /** Either a value or the error that prevented it. */
  datatype Result<+T, +E> = Success(value: T) | Failure(error: E)
}
