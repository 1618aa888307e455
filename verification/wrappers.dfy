/** Optional values, for configuration keys that may be absent and lookups that may fail. */
module Wrappers {

  datatype Option<+T> = None | Some(value: T) {

    /** The value held, or the given default when there is none. */
    function GetOr(default: T): T {
      match this
      case Some(v) => v
      case None => default
    }
  }

  /** A value, or the error that was raised instead of producing it. */
  datatype Result<+R, +E> = Ok(value: R) | Err(error: E)
}
