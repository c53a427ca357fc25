/** Option and Result, the failure-carrying values every operation of the model returns
    in place of the source's `null` and thrown exceptions. */
module Wrappers {

  datatype Option<+T> = None | Some(value: T) {

    /** The wrapped value, or `default` when there is none (the source's `??`). */
    function GetOr(default: T): T {
      match this
      case Some(v) => v
      case None => default
    }
  }

  /** `Ok` is a normal return, `Err` is a thrown error. */
  datatype Result<+T, +E> = Ok(value: T) | Err(error: E)
}
