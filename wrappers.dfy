/** Option and Result values shared by the client and the display driver. */
module Wrappers {

  /** A value that may be absent: a missing dictionary key or a JSON null. */
  datatype Option<+T> = None | Some(value: T) {

    /** The value when present, `default` otherwise (Python's `d.get(key, default)`). */
    function GetOr(default: T): T {
      match this
      case Some(v) => v
      case None => default
    }
  }

  /** The outcome of an operation that may raise: its value or the error raised. */
  datatype Result<+T, +E> = Success(value: T) | Failure(error: E)
}
