/** Failure-compatible wrappers used for the merge's exceptions. */
module Results {

  datatype Option<+T> = None | Some(value: T)

  /** A computation that either produces a value or aborts with an error. */
  datatype Result<+T, +E> = Ok(value: T) | Err(error: E) {
    predicate IsFailure() {
      Err?
    }

    function PropagateFailure<U>(): Result<U, E>
      requires Err?
    {
      Err(error)
    }

    function Extract(): T
      requires Ok?
    {
      value
    }
  }

  /** The outcome of a step that changes state and returns nothing. */
  datatype Outcome<+E> = Pass | Fail(error: E)

  function ErrorOf<T, E>(r: Result<T, E>): Option<E>
  {
    if r.Err? then Some(r.error) else None
  }
}
