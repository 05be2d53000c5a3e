/** Failure-carrying values shared by the three libraries.  A JavaScript
    `throw` (or a TypeError raised by using `undefined` as an object or a function) becomes an
    `Error` value returned to the caller. */
module Outcomes {

  /** A value that may be absent: `null` or `undefined` in the source. */
  datatype Option<+T> = None | Some(value: T) {
    function GetOr(default: T): T {
      match this
      case Some(v) => v
      case None => default
    }
  }

  /** The two kinds of exception the libraries can raise. */
  datatype Error =
    | InvalidArgumentError  // thrown explicitly by PathDrawer.prune
    | TypeError             // raised by the runtime on a member access on, or a call of, `undefined`

  /** The result of an operation that returns a value or throws. */
  datatype Result<+R> = Success(value: R) | Failure(error: Error)

  /** The result of an operation that returns nothing or throws. */
  datatype Outcome = Pass | Fail(error: Error)
}
