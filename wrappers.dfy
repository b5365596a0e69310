/** Option and Result values standing for Python's `None` and for raised exceptions. */
module Wrappers {

  datatype Option<+T> = None | Some(value: T) {

    /** The wrapped value, or `default` when absent (`dict.get(key, default)`). */
    function GetOr(default: T): T {
      match this
      case Some(v) => v
      case None => default
    }
  }

  /** A key of a JSON object: missing, present with `null`, or present with a value. */
  datatype Field<+T> = Absent | Null | Present(value: T) {

    /** `obj.get(key, default)`: the default only for a missing key; `null` reads as `None`. */
    function Get(default: T): Option<T> {
      match this
      case Absent => Some(default)
      case Null => None
      case Present(v) => Some(v)
    }
  }

  /** Either a value or the exception that stopped the computation. */
  datatype Result<+T, +E> = Success(value: T) | Failure(error: E)
}
