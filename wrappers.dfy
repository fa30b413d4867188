/** Option and Result, the two failure-carrying shapes the model needs. */
module Wrappers {

  /** A value that may be absent: a SQL NULL, or a query that matched no row. */
  datatype Option<+T> = None | Some(value: T) {

    /** The value when present, `default` otherwise (a parameter's declared default). */
    function GetOr(default: T): T {
      match this
      case Some(v) => v
      case None => default
    }
  }

  /** The outcome of a step that can raise instead of returning. */
  datatype Result<+T, +E> = Ok(value: T) | Err(error: E)
}
