/** Option, Result and Outcome: the model's stand-ins for Swift optionals and `throws`. */
module Wrappers {

  /** A Swift optional: `nil` or a value. */
  datatype Option<+T> = None | Some(value: T) {
    function GetOr(default: T): T {
      match this
      case Some(v) => v
      case None => default
    }
  }

  /** The outcome of a throwing Swift function that returns a value. */
  datatype Result<+R, +E> = Success(value: R) | Failure(error: E)

  /** The outcome of a throwing Swift function that returns nothing. */
  datatype Outcome<+E> = Pass | Fail(error: E)
}
