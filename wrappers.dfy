/** Failure-carrying values for the error returns of the library. */
module Wrappers {

  /** A value that may be absent; `None` stands for Go's `nil`. */
  datatype Option<+T> = None | Some(value: T)

  /** An error reported by a library call whose internals are not modelled. */
  datatype Error = Error(message: string)

  /** A Go `(value, error)` pair in which exactly one side is meaningful. */
  datatype Result<+T> = Success(value: T) | Failure(error: Error)
}
