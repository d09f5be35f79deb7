/** Option and result types shared by every module of the model. */
module Wrappers {

  /** A value that may be absent (an optional field, a failed lookup). */
  datatype Option<+T> = None | Some(value: T) {
    function GetOr(default: T): T {
      match this
      case Some(v) => v
      case None => default
    }
  }

  /** The result of an operation that can be refused with an error. */
  datatype Result<+T, +E> = Ok(value: T) | Err(error: E)

  /** The result of an operation that returns nothing but can be refused. */
  datatype Outcome<+E> = Pass | Fail(error: E)
}
