/** Option and Result, used for Python's None and for raised exceptions. */
module Wrappers {

  /** Python's None (None) or a present value (Some). */
  datatype Option<+T> = None | Some(value: T)

  /** A call that returns normally (Ok) or raises (Err). */
  datatype Result<+T, +E> = Ok(value: T) | Err(error: E)
}
