/** Failure-compatible wrappers shared by the normaliser and the client model.
    `Option` stands for Python's `Optional[...]` (None or a value); `Result`
    stands for "returns a value or raises", the error being the exception. */
module Results {

  datatype Option<+T> = None | Some(value: T)

  datatype Result<+T, +E> = Ok(value: T) | Err(error: E) {

    predicate IsFailure() {
      Err?
    }

    function PropagateFailure<U>(): Result<U, E>
      requires Err?
    {
      Err(error)
    }

    function Extract(): T
      requires Ok?
    {
      value
    }
  }
}
