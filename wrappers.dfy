/** Failure-carrying datatypes shared by every module of the model. */
module Wrappers {

  /** A JavaScript value that may be `null`/`undefined`, or a property that may be absent. */
  datatype Option<+T> = None | Some(value: T) {
    function GetOr(default: T): T {
      match this
      case Some(v) => v
      case None => default
    }
  }

  /** A call that either returns a value or throws an error. */
  datatype Result<+T, +E> = Ok(value: T) | Err(error: E)

  /** A call that either completes or throws an error, returning nothing. */
  datatype Outcome<+E> = Pass | Fail(error: E)
}
