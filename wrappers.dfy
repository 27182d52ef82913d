/** Option and Result values standing for JavaScript's `null`/`undefined` and for
    operations that either return a value or throw an error. */
module Wrappers {

  datatype Option<+T> = None | Some(value: T) {
    /** `x ?? d` */
    function GetOr(default: T): T {
      match this
      case Some(v) => v
      case None => default
    }
  }

  /** The value of an operation that returns or throws; the error is the thrown message. */
  datatype Result<+T, +E> = Ok(value: T) | Err(error: E)

  /** An operation with no value that resolves or rejects. */
  datatype Outcome<+E> = Pass | Fail(error: E)
}
