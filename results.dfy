/** Option and Result, the failure-compatible wrappers used throughout the model. */
module Results {

  datatype Option<+T> = None | Some(value: T)

  /** A value or the error that was raised instead; usable with `:-`. */
  datatype Result<+T, +E> = Ok(value: T) | Err(error: E) {

    predicate IsFailure() {
      Err?
    }

    function PropagateFailure<U>(): Result<U, E>
      requires Err?
    {
      Err(error)
    }

    function Extract(): T
      requires Ok?
    {
      value
    }

    /** Re-labels the error of a failed result. */
    function MapError<F>(wrap: E -> F): Result<T, F>
    {
      match this
      case Ok(v) => Ok(v)
      case Err(e) => Err(wrap(e))
    }
  }
}
