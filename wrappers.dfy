/** Optional and settled values shared by the modules of the geotargeting model. */
module Wrappers {

  /** A value that may be absent; `None` plays the part of JavaScript's `undefined`. */
  datatype Option<+T> = None | Some(value: T) {

    /** The value, or `default` when absent (a JavaScript default parameter). */
    function GetOr(default: T): T
    {
      match this
      case Some(v) => v
      case None => default
    }
  }

  /** A settled promise: fulfilled with a value, or rejected with an Error's message. */
  datatype Result<+T> = Ok(value: T) | Err(message: string) {

    /** The fulfilled value, or `default` when rejected (a `.catch(() => default)`). */
    function GetOr(default: T): T
    {
      match this
      case Ok(v) => v
      case Err(_) => default
    }
  }
}
