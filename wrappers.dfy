/** Option and Result datatypes and the byte type shared by the other modules. */
module Wrappers {

  datatype Option<+T> = None | Some(value: T)

  /** The outcome of an operation that either yields a value or throws. */
  datatype Result<+R, +E> = Ok(value: R) | Err(error: E)

  /** An unsigned byte; Java's signed bytes are shown by their unsigned value. */
  newtype byte = x: int | 0 <= x < 256
}
