/** Failure-compatible wrappers shared by every module of the model. */
module Results {

  /** An optional value: the Go code's nil pointers and absent clauses. */
  datatype Option<+T> = None | Some(value: T)

  /** The `(value, error)` pair Go functions return, as a sum type. */
  datatype Result<+T, +E> = Ok(value: T) | Err(error: E) {

    predicate IsFailure() {
      Err?
    }

    function PropagateFailure<U>(): Result<U, E>
      requires Err?
    {
      Err(error)
    }

    function Extract(): T
      requires Ok?
    {
      value
    }
  }
}
