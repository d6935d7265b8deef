/** Optional values and the outcome of a call that may throw.
    `None` stands for a Java `null`; `Err` for an exception that unwinds the call. */
module Results {

  datatype Option<+T> = None | Some(value: T)

  /** The exceptions the modelled code can raise. Only `ApiError`, the client library's
      `TestLinkAPIException`, is ever caught and classified by the gateway. */
  datatype Error =
    | ApiError(message: string)
    | NullPointer
    | IndexOutOfBounds

  datatype Result<+T> = Ok(value: T) | Err(error: Error) {
    predicate IsFailure() {
      Err?
    }

    function PropagateFailure<U>(): Result<U>
      requires Err?
    {
      Err(error)
    }

    function Extract(): T
      requires Ok?
    {
      value
    }
  }

  /** A call without a value that may throw. */
  datatype Outcome = Pass | Fail(error: Error)

  function OutcomeOf(r: Result<()>): Outcome {
    if r.Ok? then Pass else Fail(r.error)
  }
}
