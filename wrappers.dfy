/** The Option and Result datatypes that the rest of the model uses for Python's `None`
    and for operations that raise instead of returning. */
module Wrappers {

  datatype Option<+T> = None | Some(value: T) {
    function GetOr(default: T): T {
      match this
      case Some(v) => v
      case None => default
    }
  }

  /** `Failure` carries the text of the exception the Python code would raise. */
  datatype Result<+T> = Success(value: T) | Failure(error: string)
}
