/** Optional values and results with an error, shared by the other modules. */
module Wrappers {

  /** Python's `None` or a value. */
  datatype Option<+T> = None | Some(value: T)

  /** A value, or the error an exception would have carried. */
  datatype Result<+R, +E> = Success(value: R) | Failure(error: E)
}
