/** Optional values and results shared by the two modules of the model. */
module Wrappers {

  /** A value that may be absent: JavaScript's `null`/`undefined` or a missing match. */
  datatype Option<+T> = None | Some(value: T)

  /** A computation that either produced a value or threw an error. */
  datatype Result<+R, +E> = Success(value: R) | Failure(error: E)
}
