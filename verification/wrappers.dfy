/** Failure-compatible wrappers used throughout the model: `Option` stands in for
    a Java reference that may be null, `Result` for a return value or a thrown exception. */
module Wrappers {

  /** A value that may be absent (a Java `null`). */
  datatype Option<+T> = None | Some(value: T)

  /** Either a returned value or the exception that was thrown instead. */
  datatype Result<+T, +E> = Success(value: T) | Failure(error: E)
}
