/** Failure-compatible Option and Result types used by the pipeline. */
module Wrappers {

  datatype Option<+T> = None | Some(value: T)

  /** A value or the error the script would have raised. */
  datatype Result<+R, +E> = Ok(value: R) | Err(error: E) {
    predicate IsFailure() {
      Err?
    }

    function PropagateFailure<U>(): Result<U, E>
      requires Err?
    {
      Err(error)
    }

    function Extract(): R
      requires Ok?
    {
      value
    }
  }
}
