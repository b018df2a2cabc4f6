/** Small result types shared by the models. */
module Wrappers {

  datatype Option<+T> = None | Some(value: T)

  datatype Result<+T, +E> = Success(value: T) | Failure(error: E) {
    predicate IsFailure() {
      Failure?
    }

    function PropagateFailure<U>(): Result<U, E>
      requires Failure?
    {
      Failure(error)
    }

    function Extract(): T
      requires Success?
    {
      value
    }
  }

  /**
   * The outcome of one awaited effect. `Crashed` is the process dying at that await,
   * `Failed` is the awaited promise rejecting; both leave the enclosing method at once (`:-`).
   */
  datatype Effect = Ok | Failed | Crashed {
    predicate IsFailure() {
      !Ok?
    }

    function PropagateFailure(): Effect
      requires !Ok?
    {
      this
    }
  }
}
