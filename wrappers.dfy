/** Option and Result, used for the nullable values and the thrown errors of the
    modelled code. */
module Wrappers {

  datatype Option<+T> = None | Some(value: T)

  /** `Err` stands for an exception the modelled code throws or rethrows. */
  datatype Result<+T, +E> = Ok(value: T) | Err(error: E)
}
