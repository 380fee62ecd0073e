/** Absent values and failures, as the TypeScript code expresses them with
    `undefined` and thrown errors. */
module Wrappers {

  /** `T | undefined`: None stands for `undefined`. */
  datatype Option<+T> = None | Some(value: T)

  /** The outcome of a call that either returns a value or throws an error
      carrying a message. */
  datatype Result<+T, +E> = Success(value: T) | Failure(error: E)
}
