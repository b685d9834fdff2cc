/** Failure-compatible result types shared by both ledger models. */
module Wrappers {

  /** A value that may be absent. */
  datatype Option<+T> = None | Some(value: T)

  /** The outcome of an operation that has no result value but may fail
      with an error (a raised exception, or a Rust `Err`). */
  datatype Outcome<+E> = Pass | Fail(error: E)
}
