/** Option and Result datatypes standing for Go's nil pointers and panics. */
module Wrappers {

  /** A Go pointer that may be nil: None is nil, Some(v) points at v. */
  datatype Option<+T> = None | Some(value: T)

  /** The outcome of an operation that either yields a value or fails. */
  datatype Result<+R, +E> = Success(value: R) | Failure(error: E)
}
