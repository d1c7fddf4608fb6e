/** Failure-compatible wrappers shared by every module of the model. */
module Wrappers {

  /** A value that may be absent (a JS `null` result). */
  datatype Option<+T> = None | Some(value: T) {
    function GetOr(default: T): T {
      if Some? then value else default
    }
  }

  /** The outcome of an operation that may throw: `Err` carries the message of the thrown `Error`. */
  datatype Result<+T> = Ok(value: T) | Err(error: string)
}
