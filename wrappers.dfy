/** Option and Result, used for JavaScript's `null` and for the startup failure. */
module Wrappers {

  /** A value that may be absent; `None` plays the part of `null`. */
  datatype Option<+T> = None | Some(value: T) {

    predicate IsFailure() {
      None?
    }

    function PropagateFailure<U>(): Option<U>
      requires None?
    {
      None
    }

    function Extract(): T
      requires Some?
    {
      value
    }
  }

  /** The outcome of an operation that can fail with an error value. */
  datatype Result<+T, +E> = Ok(value: T) | Err(error: E)
}
