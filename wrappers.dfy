/** Option and Result values shared by the modules of the model. */
module Wrappers {

  /** An optional value: JavaScript's `T | null`. */
  datatype Option<+T> = None | Some(value: T)

  /** A settled promise: resolved with a value or rejected with an error. */
  datatype Result<+T, +E> = Ok(value: T) | Err(error: E)
}
