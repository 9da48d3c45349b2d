/** Failure-carrying values shared by the whole model: `Option` for lookups
    that may miss and `Result` for the fallible reads of the aggregator. */
module Wrappers {

  datatype Option<+T> = None | Some(value: T)

  datatype Result<+R, +E> = Success(value: R) | Failure(error: E) {

    /** The success value, or `default` on failure (Rust's `unwrap_or`). */
    function UnwrapOr(default: R): (r: R)
      ensures Success? ==> r == value
      ensures Failure? ==> r == default
    {
      match this
      case Success(v) => v
      case Failure(_) => default
    }
  }
}
