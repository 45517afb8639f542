/** Failure values shared by every operation: the business errors the engine returns, never exceptions. */
module Outcomes {

  datatype Error =
    | InvalidInput
    | NumericOverflow
    | NotFound
    | DataNotConfigured
    | DataStale
    | InsufficientUniverse
    | FactorUnavailable
    | ActionIncomplete
    | InsufficientCash
    | RiskLimit
    | VersionConflict
    | NotCancellable
    | StoreFailure

  datatype Option<+T> = None | Some(value: T)

  datatype Result<+T> = Ok(value: T) | Err(error: Error) {
    predicate IsFailure() {
      Err?
    }

    function PropagateFailure<U>(): Result<U>
      requires Err?
    {
      Err(error)
    }

    function Extract(): T
      requires Ok?
    {
      value
    }
  }
}
