/** Option and Result values shared by the modules of the model. */
module Wrappers {

  /** A value that may be absent: an `undefined` property or a `null` reference. */
  datatype Option<+T> = None | Some(value: T) {
    function GetOr(default: T): T {
      match this
      case Some(v) => v
      case None => default
    }
  }

  /** The outcome of an operation that may throw: a value or the error's message. */
  datatype Result<+T> = Ok(value: T) | Err(message: string)
}
