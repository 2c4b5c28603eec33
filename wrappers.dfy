/** Option and Outcome, the two failure-carrying shapes the handlers need. */
module Wrappers {

  /** A value that may be missing: `undefined`/`null` in the original code. */
  datatype Option<+T> = None | Some(value: T) {
    function GetOr(default: T): T {
      match this
      case Some(v) => v
      case None => default
    }
  }

  /** The settled state of a promise that carries no value: resolved, or rejected with a message. */
  datatype Outcome = Pass | Fail(error: string)
}
