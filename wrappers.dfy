/** Optional values and results shared by the other modules. */
module Wrappers {

  /** A value that may be absent, as a missing dictionary key or a failed parse. */
  datatype Option<+T> = None | Some(value: T)

  /** The result of an operation that may raise: a value, or the error it raises. */
  datatype Result<+R, +E> = Success(value: R) | Failure(error: E)
}
