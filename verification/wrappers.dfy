/** Option and Result datatypes shared by every module of the model. */
module Wrappers {

  /** A value that may be absent: an undefined or null field of a request
      body, or an optional field of a stored record. */
  datatype Option<+T> = None | Some(value: T) {

    /** The wrapped value, or `default` when absent (the `x || default` idiom
        for values whose falsy forms are all absent). */
    function GetOr(default: T): T {
      match this
      case Some(v) => v
      case None => default
    }
  }

  /** Either the value a request produced or the error it was answered with. */
  datatype Result<+T, +E> = Success(value: T) | Failure(error: E)
}
