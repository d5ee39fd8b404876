/** Option and Result values shared by the crawler and the staging buffer. */
module Common {

  /** Python's `None` or a present value. */
  datatype Option<+T> = None | Some(value: T) {
    /** The value, or `default` when absent (Python's `dict.get(key, default)`). */
    function GetOr(default: T): T {
      match this
      case Some(v) => v
      case None => default
    }
  }

  /** A normal return, or an exception raised to the caller. */
  datatype Result<+T, +E> = Ok(value: T) | Raised(error: E)
}
