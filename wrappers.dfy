/** Optional values and the outcome of one asynchronous server call. */
module Wrappers {

  /** A value that may be absent (`undefined` / `null` in the client code). */
  datatype Option<+T> = None | Some(value: T) {
    /** The value, or `default` when absent (the `x ?? default` idiom). */
    function GetOr(default: T): T {
      match this
      case Some(v) => v
      case None => default
    }
  }

  /** The settled outcome of one awaited server call: the resolved payload,
      or the message of the rejection. */
  datatype Outcome<+T> = Ok(value: T) | Err(message: string)
}
