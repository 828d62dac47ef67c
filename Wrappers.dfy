/** Option and Result, the two failure types the Rust code uses throughout. */
module Wrappers {

  datatype Option<+T> = None | Some(value: T) {

    /** `Option::and_then`. */
    function Bind<U>(f: T -> Option<U>): Option<U> {
      match this
      case None => None
      case Some(v) => f(v)
    }

    /** `Option::unwrap_or`. */
    function GetOr(default: T): T {
      match this
      case None => default
      case Some(v) => v
    }
  }

  datatype Result<+T, +E> = Success(value: T) | Failure(error: E)
}
