/** Option and Result, for the absent dictionary keys and the raised exceptions of the source. */
module Wrappers {

  datatype Option<+T> = None | Some(value: T) {
    /** The value, or the given default when absent (Python's `d.get(key, default)`). */
    function GetOr(default: T): T {
      match this
      case Some(v) => v
      case None => default
    }
  }

  datatype Result<+R, +E> = Success(value: R) | Failure(error: E)

  /** A list-valued entry read with `.get(key, [])`: an absent key reads as the empty list. */
  function OrEmpty<T>(o: Option<seq<T>>): seq<T> {
    match o
    case Some(s) => s
    case None => []
  }
}
