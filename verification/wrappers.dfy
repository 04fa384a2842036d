/** Failure-carrying datatypes shared by the trade-settlement model.
    `Option` stands for a Java reference that may be null; `Result` stands for
    an operation that either returns a value or aborts with an exception. */
module Wrappers {

  /** A possibly-null reference: `None` is Java's `null`. */
  datatype Option<+T> = None | Some(value: T) {

    /** The wrapped value, or `default` when there is none. */
    function GetOr(default: T): T {
      match this
      case Some(v) => v
      case None => default
    }
  }

  /** Either the value an operation returns or the error it aborts with. */
  datatype Result<+T, +E> = Success(value: T) | Failure(error: E)
}
