/** Optional values and error-or-value results, used wherever the source
    has `undefined`/`null` or throws. */
module Wrappers {

  /** `None` stands for JavaScript's `undefined` or `null` where the source
      treats the two alike (`??`, `?.`). */
  datatype Option<+T> = None | Some(value: T) {
    function GetOr(default: T): T {
      match this
      case Some(v) => v
      case None => default
    }
  }

  /** A computation that either returns a value or throws `error`. */
  datatype Result<+T, +E> = Ok(value: T) | Err(error: E)

  /** A check that either passes or throws `error`. */
  datatype Outcome<+E> = Pass | Fail(error: E)
}
