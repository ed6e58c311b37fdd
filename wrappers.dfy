/** Wrappers shared by every module: an optional value and the outcome of an
    operation that may throw. */
module Wrappers {

  datatype Option<+T> = None | Some(value: T)

  /** `Err` carries the message of the thrown error. */
  datatype Result<+T> = Ok(value: T) | Err(message: string)
}
