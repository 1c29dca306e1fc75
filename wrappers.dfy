/** Option and Result, the shapes Python's `None` and raised exceptions take in this model. */
module Wrappers {

  datatype Option<+T> = None | Some(value: T) {
    function GetOr(default: T): T {
      match this
      case Some(v) => v
      case None => default
    }
  }

  /** `Err` stands for an exception the Python code raises (and does not catch). */
  datatype Result<+T, +E> = Ok(value: T) | Err(error: E)
}
