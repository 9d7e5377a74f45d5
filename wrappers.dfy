/** Failure-carrying values used wherever the modelled code can throw. */
module Wrappers {

  datatype Option<+T> = None | Some(value: T)

  /** `Ok` is a normal return, `Err` an exception propagated to the caller. */
  datatype Result<+T, +E> = Ok(value: T) | Err(error: E)
}
