/** Failure-compatible wrappers used throughout the model: Java's `null` becomes `None`,
    and a thrown exception becomes `Err`/`Fail`. */
module Wrappers {

  datatype Option<+T> = None | Some(value: T) {
    function GetOr(default: T): T {
      match this
      case Some(v) => v
      case None => default
    }
  }

  datatype Result<+T, +E> = Ok(value: T) | Err(error: E) {
    predicate IsFailure() {
      Err?
    }

    function PropagateFailure<U>(): Result<U, E>
      requires Err?
    {
      Err(error)
    }

    function Extract(): T
      requires Ok?
    {
      value
    }
  }

  /** The outcome of a Java method that returns normally or throws. */
  datatype Outcome<+E> = Pass | Fail(error: E)
}
