/** Nullable values and success-or-error values, shared by every module. */
module Wrappers {

  /** A value that may be absent: Python's `Optional[T]` / a nullable column. */
  datatype Option<+T> = None | Some(value: T)

  /** The outcome of an endpoint: a value, or the HTTP error it raised. */
  datatype Result<+T, +E> = Success(value: T) | Failure(error: E)
}
