/** Option and Result, the two failure-carrying types the collectors use. */
module Wrappers {

  datatype Option<+T> = None | Some(value: T) {
    /** The Rust `unwrap_or`: the carried value, or `default` when None. */
    function UnwrapOr(default: T): T {
      match this
      case Some(v) => v
      case None => default
    }
  }

  datatype Result<+T, +E> = Ok(value: T) | Err(error: E)
}
