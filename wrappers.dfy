/** Small failure-compatible wrappers shared by the other modules. */
module Wrappers {

  /** A value that may be absent (TypeScript's `T | undefined`). */
  datatype Option<+T> = None | Some(value: T)

  /** The outcome of an operation that returns nothing or throws an error. */
  datatype Outcome<+E> = Pass | Fail(error: E)
}
