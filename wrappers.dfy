/** Python's `None`-or-value arguments and the error exits of the generator. */
module Wrappers {

  /** An optional value: `None` stands for Python's `None`. */
  datatype Option<+T> = None | Some(value: T)

  /** A computation that either yields a value or fails with an error. */
  datatype Result<+T, +E> = Ok(value: T) | Err(error: E)
}
