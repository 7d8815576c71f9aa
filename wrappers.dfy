/** Failure-compatible Option and Result, the shapes of Rust's Option and Result. */
module Wrappers {

  datatype Option<+T> = None | Some(value: T)

  datatype Result<+T, +E> = Ok(value: T) | Err(error: E) {

    predicate IsFailure() {
      Err?
    }

    function PropagateFailure<U>(): Result<U, E>
      requires Err?
    {
      Err(error)
    }

    function Extract(): T
      requires Ok?
    {
      value
    }
  }

  /** Rust's `Option::ok_or`: a missing value becomes the given error. */
  function OkOr<T, E>(o: Option<T>, error: E): Result<T, E>
  {
    match o
    case Some(v) => Ok(v)
    case None => Err(error)
  }
}
