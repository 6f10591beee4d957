/** Option and Result, the shapes of Go's "nil or value" and "(value, error)" returns. */
module Wrappers {

  /** A Go error value is either nil (None) or carries a message (Some). */
  datatype Option<+T> = None | Some(value: T)

  /** A Go `(value, error)` pair where exactly one side is meaningful. */
  datatype Result<+T> = Ok(value: T) | Err(error: string)

  type Error = string

  /** Go's `error` return: None is `nil`. */
  type MaybeError = Option<Error>

  /**
   * A Go `(value, error)` pair where the value is returned whatever the
   * error: the zero value beside a non-nil error, or a value beside nil.
   */
  datatype Reply<+T, +E> = Reply(value: T, err: Option<E>)
}
