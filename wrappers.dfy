/** Option and Result, the two failure-carrying shapes the client uses everywhere. */
module Wrappers {

  datatype Option<+T> = None | Some(value: T) {
    /** The contained value, or `default` when there is none (Rust's `unwrap_or`). */
    function GetOr(default: T): T {
      match this
      case Some(v) => v
      case None => default
    }
  }

  datatype Result<+R, +E> = Ok(value: R) | Err(error: E) {
    /** Rewrites the error side and keeps a success as it is (Rust's `map_err`). */
    function MapErr<E2>(f: E -> E2): Result<R, E2> {
      match this
      case Ok(v) => Ok(v)
      case Err(e) => Err(f(e))
    }
  }
}
