/** Option, Result and Outcome values standing for JavaScript's `null`/`undefined`,
    rejected promises and thrown errors. */
module Wrappers {

  datatype Option<+T> = None | Some(value: T) {
    /** `x || d` for an optional value */
    function GetOr(default: T): T {
      match this
      case Some(v) => v
      case None => default
    }
  }

  datatype Result<+T, +E> = Ok(value: T) | Err(error: E)

  datatype Outcome<+E> = Pass | Fail(error: E)
}
