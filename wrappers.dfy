/** Ruby's `nil`-or-value and raise-or-return, as values. */
module Wrappers {

  /** A value that may be Ruby `nil`. */
  datatype Option<+T> = None | Some(value: T)

  /** The outcome of an operation that either returns or raises. */
  datatype Result<+T, +E> = Ok(value: T) | Err(error: E)
}
