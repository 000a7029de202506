/** Optional values and results: how the Go code's nil pointers and error returns are modelled. */
module Wrappers {

  datatype Option<+T> = None | Some(value: T)

  /** Either a value or the error that a Go function would return. */
  datatype Result<+T, +E> = Success(value: T) | Failure(error: E) {
    predicate IsFailure() {
      Failure?
    }

    function PropagateFailure<U>(): Result<U, E>
      requires Failure?
    {
      Failure(error)
    }

    function Extract(): T
      requires Success?
    {
      value
    }
  }

  /** The outcome of a guard: `:- Need(condition, error)` returns the error when the condition is false. */
  datatype Guard<+E> = Pass | Fail(error: E) {
    predicate IsFailure() {
      Fail?
    }

    function PropagateFailure<U>(): Result<U, E>
      requires Fail?
    {
      Failure(error)
    }
  }

  function Need<E>(condition: bool, error: E): Guard<E> {
    if condition then Pass else Fail(error)
  }
}
