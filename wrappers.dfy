/** Option and Result: absent values and error returns shared by every service model. */
module Wrappers {

  /** A value that may be absent (Go's nil pointer, Python's None in a typed position). */
  datatype Option<+T> = None | Some(value: T)

  /** The outcome of an operation that either yields a value or reports an error. */
  datatype Result<+T, +E> = Success(value: T) | Failure(error: E)
}
