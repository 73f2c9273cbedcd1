/** Optional values, standing in for Swift's `T?`. */
module Wrappers {

  datatype Option<+T> = None | Some(value: T) {

    /** The unwrapped value, or `default` when absent (Swift's `x ?? default`). */
    function GetOr(default: T): T {
      match this
      case Some(v) => v
      case None => default
    }

    /** This value if present, otherwise `other` (Swift's `x ?? y` on two optionals). */
    function OrElse(other: Option<T>): Option<T> {
      match this
      case Some(_) => this
      case None => other
    }
  }
}
