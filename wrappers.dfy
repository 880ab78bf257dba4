/** Option, Result and Outcome: the error paths of the two handlers as values. */
module Wrappers {

  datatype Option<+T> = None | Some(value: T) {
    /** The value, or `default` when there is none (Python's `dict.get(key, default)`). */
    function GetOr(default: T): T {
      match this
      case Some(v) => v
      case None => default
    }
  }

  /** A handler either answers (`Success`) or raises (`Failure`). */
  datatype Result<+R, +E> = Success(value: R) | Failure(error: E)

  /** A procedure that returns nothing either finishes (`Pass`) or raises (`Fail`). */
  datatype Outcome<+E> = Pass | Fail(error: E)
}
