/** Failure-compatible wrappers used by every stage of the pipeline. */
module Wrappers {

  /** An optional value; the model of Rust's `Option`. */
  datatype Option<+T> = None | Some(value: T)

  /** A success value or an error value; the model of Rust's `Result`. */
  datatype Result<+T, +E> = Ok(value: T) | Err(error: E) {

    predicate IsFailure() {
      Err?
    }

    function PropagateFailure<U>(): Result<U, E>
      requires Err?
    {
      Err(error)
    }

    function Extract(): T
      requires Ok?
    {
      value
    }
  }
}
