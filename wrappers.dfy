/** Option and Result values for the app's absent fields and rejected promises. */
module Wrappers {

  datatype Option<+T> = None | Some(value: T)

  /** A settled promise: resolved with a value, or rejected with a reason string. */
  datatype Result<+T> = Success(value: T) | Failure(error: string)

  /** A settled promise whose resolved value carries no information (`resolve(true)`). */
  datatype Outcome = Resolved | Rejected(reason: string)
}
