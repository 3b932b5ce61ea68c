/** Failure-compatible result shapes shared by every layer of the model. */
module Wrappers {

  /** A value that may be absent: a nil Go pointer or a nil slice is `None`. */
  datatype Option<+T> = None | Some(value: T)

  /** The outcome of an operation that returns only a Go `error`: `Pass` is `nil`. */
  datatype Outcome<+E> = Pass | Fail(error: E)
}
