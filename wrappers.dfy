/** Optional values and results that carry an error instead of throwing. */
module Wrappers {

  /** A value that may be absent: a C# reference that may be `null`. */
  datatype Option<+T> = None | Some(value: T)

  /** The outcome of an operation that may throw: its value, or the exception. */
  datatype Result<+R, +E> = Success(value: R) | Failure(error: E)
}
