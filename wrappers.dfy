/** Option and Result, the two failure-compatible wrappers the model uses for
    Go's nil pointers and its (value, error) returns. */
module Wrappers {

  /** A value that may be absent: a Go pointer that may be nil. */
  datatype Option<+T> = None | Some(value: T)

  /** Either a value or an error: a Go call returning (value, err). */
  datatype Result<+T, +E> = Ok(value: T) | Err(error: E) {

    predicate IsFailure() {
      Err?
    }

    function PropagateFailure<U>(): Result<U, E>
      requires Err?
    {
      Err(error)
    }

    function Extract(): T
      requires Ok?
    {
      value
    }
  }
}
