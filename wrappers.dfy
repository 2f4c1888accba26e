/** Option and Result: `undefined`-able values and settled promises. */
module Wrappers {

  datatype Option<+T> = None | Some(value: T)

  /** The outcome of a promise: `Ok` when it resolves, `Err` when it rejects. */
  datatype Result<+T, +E> = Ok(value: T) | Err(error: E)
}
