/** Option and Result, standing for Go's nil and its `(T, error)` pairs. */
module Wrappers {

  /** A value that may be missing: Go's nil pointer or an unset input. */
  datatype Option<+T> = None | Some(value: T)

  /** A value or the error that prevented computing it: Go's `(T, error)` pair. */
  datatype Result<+T, +E> = Success(value: T) | Failure(error: E)
}
