/** Optional values and results with an error, as the JavaScript code expresses them with
    `undefined` and with thrown exceptions. */
module Outcomes {

  /** A value that may be absent (`undefined` or `null` in the source). */
  datatype Option<+T> = None | Some(value: T) {
    function GetOr(default: T): T {
      match this
      case Some(v) => v
      case None => default
    }
  }

  /** The outcome of an operation that may throw: `Err` carries the error message. */
  datatype Result<+T, +E> = Ok(value: T) | Err(error: E)
}
