/** Small failure-carrying datatypes shared by every module of the model. */
module Wrappers {

  /** An optional value: a missing JSON field, a missing file, Python's None. */
  datatype Option<+T> = None | Some(value: T) {
    /** The value, or `default` when there is none (Python's `dict.get(k, default)`). */
    function GetOr(default: T): T {
      match this
      case Some(v) => v
      case None => default
    }
  }

  /**
   * What one call into an external collaborator (the model provider, an image
   * decoder) yields: a value, or an exception that carries a message.
   */
  datatype Outcome<+R> = Ok(value: R) | Err(message: string)

  /** A value, or an error of a type of the caller's choosing. */
  datatype Result<+T, +E> = Success(value: T) | Failure(error: E)
}
