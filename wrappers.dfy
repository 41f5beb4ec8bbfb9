/** Small sum types used in place of JavaScript's untyped arguments and thrown values. */
module Wrappers {

  /** A value that may be absent; `None` stands for an argument of the wrong kind. */
  datatype Option<+T> = None | Some(value: T)

  /** Completion of an operation that either returns normally or throws `error`. */
  datatype Outcome<+E> = Pass | Fail(error: E)
}
