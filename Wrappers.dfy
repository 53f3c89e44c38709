/** Option and Result, shared by every module of the model. */
module Wrappers {

  /** A value that may be absent: `undefined` in TypeScript, `None` in Python and Rust. */
  datatype Option<+T> = None | Some(value: T)

  /** The outcome of an operation that may fail: Rust's `Result`, or a Python call that may raise. */
  datatype Result<+T, +E> = Ok(value: T) | Err(error: E)
}
