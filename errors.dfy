/** Go `error` values and the value-or-error results of the HDFS client calls. */
module Errors {

  /** A non-nil Go `error`; the adapter only ever looks at its text, `err.Error()`. */
  datatype Error = Error(msg: string)

  /** A possibly nil value; `None` is Go's `nil`. */
  datatype Option<+T> = None | Some(value: T)

  /** A Go `(T, error)` pair in which exactly one half is meaningful. */
  datatype Result<+T> = Success(value: T) | Failure(error: Error)
}
