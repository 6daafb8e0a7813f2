/** Option and Result, the two failure-carrying shapes the Rust code uses. */
module Wrappers {

  datatype Option<T> = None | Some(value: T) {
    /** `unwrap_or` / `unwrap_or_default` with an explicit default. */
    function GetOr(default: T): T {
      match this
      case Some(v) => v
      case None => default
    }
  }

  /** `Result<T, E>`: `Ok` carries the value, `Err` the error. */
  datatype Result<T, E> = Ok(value: T) | Err(error: E)
}
