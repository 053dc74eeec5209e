/** Optional values and results with an error, as used by every module of the model. */
module Wrappers {

  /** A value that may be missing: a dictionary key that is absent, or a Python `None`. */
  datatype Option<+T> = None | Some(value: T) {

    /** Python's `d.get(key, default)` when `this` is the looked-up key. */
    function GetOr(default: T): T {
      match this
      case Some(v) => v
      case None => default
    }
  }

  /** The outcome of a Python function that either returns a value or raises an exception with a message. */
  datatype Result<+T, +E> = Ok(value: T) | Err(error: E)
}
