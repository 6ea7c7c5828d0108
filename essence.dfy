/** Failure values shared by the provider layer.
    Every failure in the provider layer is raised as an `Essence\Exception`
    carrying a human-readable message; the model turns the throw into the
    `Failure` arm of `Result`. */
module Essence {

  /** The exception type the providers throw. */
  datatype Exception = Exception(message: string)

  /** A value that may be absent. */
  datatype Option<+T> = None | Some(value: T)

  /** The outcome of an operation that may throw. */
  datatype Result<+T> = Success(value: T) | Failure(error: Exception)
}
