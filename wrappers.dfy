/** Option and Result values used in place of Go's nil and (value, error) pairs. */
module Wrappers {

  datatype Option<T> = None | Some(value: T)

  /** A Go `(T, error)` return: either a value or the error's text. */
  datatype Result<T, E> = Ok(value: T) | Err(error: E)
}
