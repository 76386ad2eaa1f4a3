/** Failure-carrying values: `undefined` results and thrown errors of the modelled code. */
module Wrappers {

  datatype Option<+T> = None | Some(value: T) {
    /** The value, or `default` for `None` (JavaScript's `??`). */
    function GetOr(default: T): T {
      match this
      case Some(v) => v
      case None => default
    }
  }

  /** `Err` carries the message of the error that the source throws. */
  datatype Result<+T> = Ok(value: T) | Err(error: string)
}
