/** Optional values and results shared by every module of the model. */
module Base {

  /** A value that may be absent: JavaScript's `null`/`undefined` or a failed lookup. */
  datatype Option<+T> = None | Some(value: T) {
    function GetOr(default: T): T {
      match this
      case Some(v) => v
      case None => default
    }
  }

  /** The outcome of an operation that either returns a value or throws an error message. */
  datatype Result<+T> = Success(value: T) | Failure(error: string)
}
