/** Optional values and success/failure results shared by the other modules. */
module Wrappers {

  /** A value that may be absent, like an optional property in the application. */
  datatype Option<+T> = None | Some(value: T)

  /** The outcome of an operation that can be refused with a reason. */
  datatype Result<+T, +E> = Success(value: T) | Failure(error: E)
}
