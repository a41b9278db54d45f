/** Option and Result values shared by the other modules. */
module Wrappers {

  datatype Option<+T> = None | Some(value: T)

  /** An outcome that either carries a value or the error that stopped the computation. */
  datatype Result<+T, +E> = Ok(value: T) | Err(error: E)
}
