/** Optional values and error-or-value results, standing in for Java's nulls
    and checked exceptions. */
module Wrappers {

  /** A value that may be absent (Java `null`). */
  datatype Option<+T> = None | Some(value: T) {
    function GetOr(default: T): T {
      match this
      case Some(v) => v
      case None => default
    }
  }

  /** Either a value or the error that a Java method would have thrown. */
  datatype Result<+R, +E> = Ok(value: R) | Err(error: E)
}
