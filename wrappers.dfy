/** Failure values that stand for the Python exceptions the client catches. */
module Wrappers {

  /** The exceptions the modelled code can raise. */
  datatype Error =
    | KeyError(key: string)      // a dictionary lookup of a missing key
    | TypeError                  // e.g. subscripting None, or comparing str with int
    | Raised(message: string)    // any other exception raised by code outside this model

  /** Either a value or the exception that was raised instead. */
  datatype Result<+T> = Success(value: T) | Failure(error: Error) {
    predicate IsFailure() { Failure? }

    function PropagateFailure<U>(): Result<U>
      requires Failure?
    {
      Failure(error)
    }

    function Extract(): T
      requires Success?
    {
      value
    }
  }

  datatype Option<+T> = None | Some(value: T)
}
