/** Failure-compatible result types shared by the parser, the validator and the lowering pass. */
module Results {

  datatype Option<+T> = None | Some(value: T)

  /** A value, or the message of an error that stops the current unit of work. */
  datatype Result<+T> = Success(value: T) | Failure(error: string) {
    predicate IsFailure() { Failure? }

    function PropagateFailure<U>(): Result<U>
      requires Failure?
    {
      Failure(error)
    }

    function Extract(): T
      requires Success?
    {
      value
    }
  }

  /** Success or failure without a value: `error()` in the lowering pass becomes `Fail`. */
  datatype Outcome = Pass | Fail(error: string) {
    predicate IsFailure() { Fail? }

    function PropagateFailure(): Outcome
      requires Fail?
    {
      this
    }
  }
}
