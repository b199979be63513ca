/** Wrappers used across the model: an optional value (Go's nil
    reference) and a value-or-error result (Go's `(T, error)` return pair). */
module Wrappers {

  /** A value that may be absent; `None` plays the role of Go's nil. */
  datatype Option<+T> = None | Some(value: T)

  /** Either a value or an error, as returned by the fetch functions. */
  datatype Result<+T, +E> = Ok(value: T) | Err(error: E)
}
