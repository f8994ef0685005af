/** Failure-compatible wrappers shared by the model: a nullable value and an
    operation that either completes or throws. */
module Wrappers {

  /** A C# reference or nullable value: `None` stands for `null`. */
  datatype Option<+T> = None | Some(value: T)

  /** The outcome of an operation that may throw. */
  datatype Outcome<+E> = Pass | Fail(error: E)

  /** The result of a call that returns a value or throws. */
  datatype Result<+T, +E> = Success(value: T) | Failure(error: E)

  /** The .NET exceptions the modelled code can raise. */
  datatype Exception = NullReferenceException | NotImplementedException
}
