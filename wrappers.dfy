/** Option and Result, the model's stand-ins for Kotlin's nullable types and thrown errors. */
module Wrappers {

  /** A Kotlin `T?`: `None` is `null`. */
  datatype Option<T> = None | Some(value: T) {

    /** Kotlin's elvis operator `this ?: default`. */
    function GetOr(default: T): T {
      match this
      case Some(v) => v
      case None => default
    }
  }

  /** A call that either returns a value or throws an error. */
  datatype Result<T, E> = Ok(value: T) | Err(error: E)
}
