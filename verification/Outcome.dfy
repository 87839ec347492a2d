/** The library's exceptions as values. */
module Outcome {
  datatype Error =
    | InvalidCommand(message: string)
    | DataQuality(message: string)
    | Internal(message: string)
    | InsufficientData(message: string)
    | InvalidPrices(message: string)
    | NotFound

  datatype Option<+T> = None | Some(value: T)

  datatype Result<+T> = Success(value: T) | Failure(error: Error) {
    predicate IsFailure() { Failure? }

    function PropagateFailure<U>(): Result<U>
      requires Failure?
    {
      Failure(error)
    }

    function Extract(): T
      requires Success?
    {
      value
    }
  }
}
