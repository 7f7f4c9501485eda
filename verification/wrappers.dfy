/** Failure-carrying datatypes shared by the other modules: `Option` stands for a
    JavaScript value that may be absent (`null`, `undefined`, a missing field),
    `Result` and `Outcome` for a computation that may throw. */
module Wrappers {

  /** An optional value. */
  datatype Option<+T> = None | Some(value: T)

  /** The value of a computation, or the error it threw. */
  datatype Result<+R, +E> = Success(value: R) | Failure(error: E)

  /** A check that either passes or throws an error. */
  datatype Outcome<+E> = Pass | Fail(error: E)
}
