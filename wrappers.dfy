/** Option and Result, the two failure-carrying shapes the model needs. */
module Wrappers {

  /** A value that may be missing: Ruby's `nil` against a present value. */
  datatype Option<+T> = None | Some(value: T) {

    /** The value, or `default` when it is missing (Ruby's `x || default`). */
    function GetOr(default: T): T {
      match this
      case Some(v) => v
      case None => default
    }
  }

  /** The outcome of a step that may raise: `Ok` carries its value, `Err` the exception. */
  datatype Result<+T, +E> = Ok(value: T) | Err(error: E)
}
