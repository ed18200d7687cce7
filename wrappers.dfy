/** Option and Result, the two failure-carrying shapes the model uses. */
module Wrappers {

  /** `Some(v)` or `None`; for a JavaScript property read, `None` is `undefined`. */
  datatype Option<+T> = None | Some(value: T) {
    function GetOr(default: T): T {
      if Some? then value else default
    }
  }

  /** A successful value or an error message (an HTTP 500 reply in the routes). */
  datatype Result<+T, +E> = Ok(value: T) | Err(error: E)
}
