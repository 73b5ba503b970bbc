/**
 * The nullable references of the Java code, as an explicit Option value, and calls that
 * may throw a checked exception, as a Result.
 */
module Wrappers {
  datatype Option<+T> = None | Some(value: T) {
    function GetOr(default: T): T {
      match this
      case Some(v) => v
      case None => default
    }
  }

  /** A value, or the message of the `IOException` thrown instead. */
  datatype Result<+T> = Ok(value: T) | Err(error: string)
}
