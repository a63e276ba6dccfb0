/** Failure-carrying results shared by every module. */
module Wrappers {

  datatype Option<+T> = None | Some(value: T)

  /** `Err` stands for an early return with an error in the modelled program. */
  datatype Result<+T, +E> = Ok(value: T) | Err(error: E)
}
