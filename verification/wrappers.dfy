/** An optional value, for the source's `undefined`/`null` fields and optional arguments. */
module Wrappers {
  datatype Option<+T> = None | Some(value: T)

  /** The outcome of an operation that either succeeds or reports an error. */
  datatype Outcome<+E> = Pass | Fail(error: E)
}
