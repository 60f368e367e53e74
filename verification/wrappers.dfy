/** Option and Result, used for the source's `undefined` returns and thrown errors. */
module Wrappers {

  datatype Option<+T> = None | Some(value: T) {
    function GetOr(default: T): T {
      match this
      case Some(v) => v
      case None => default
    }
  }

  /** The outcome of a call that either returns a value or throws an error carrying a message. */
  datatype Result<+T, +E> = Ok(value: T) | Err(error: E)
}
