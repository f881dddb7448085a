/** Failure-carrying return values: Go's `(value, error)` pairs and `error` results. */
module Wrappers {

  /** An optional value; `None` stands for Go's `nil` error (success). */
  datatype Option<+T> = None | Some(value: T)

  /** Either a value or the error that prevented computing it. */
  datatype Result<+R, +E> = Success(value: R) | Failure(error: E)
}
