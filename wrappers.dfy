/** Option and Result, the null-or-value and value-or-exception shapes of the model. */
module Wrappers {

  datatype Option<+T> = None | Some(value: T)

  /** A value, or the exception that the modelled code would have thrown instead. */
  datatype Result<+T, +E> = Success(value: T) | Failure(error: E) {

    predicate IsFailure() {
      Failure?
    }

    function PropagateFailure<U>(): Result<U, E>
      requires Failure?
    {
      Failure(error)
    }

    function Extract(): T
      requires Success?
    {
      value
    }
  }

  /** Completion of a call that returns nothing, or the exception it threw. */
  datatype Outcome<+E> = Pass | Fail(error: E) {

    predicate IsFailure() {
      Fail?
    }

    function PropagateFailure<U>(): Result<U, E>
      requires Fail?
    {
      Failure(error)
    }
  }
}

/** The exceptions the environment code can raise, as values. */
module Exceptions {

  datatype Exception =
    | InvalidOperation(message: string)  // thrown when no msbuild.exe can be located
    | SdkResolution(message: string)     // whatever the SDK path resolver throws, passed through
    | DuplicateKey(key: string)          // ArgumentException from Dictionary.Add
}
