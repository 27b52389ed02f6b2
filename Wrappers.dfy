/** Option and Result, the two failure-carrying datatypes the model uses
    for a missing JSON key and for a raised exception. */
module Wrappers {

  datatype Option<+T> = None | Some(value: T) {

    /** The value, or `default` when absent (Python's `dict.get(key, default)`). */
    function GetOr(default: T): T {
      match this
      case Some(v) => v
      case None => default
    }
  }

  /** `Err(message)` stands for an exception whose text is `message`. */
  datatype Result<+T, +E> = Ok(value: T) | Err(error: E)
}
