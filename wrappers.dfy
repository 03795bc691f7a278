/** Failure-carrying datatypes shared by the other modules. */
module Wrappers {

  datatype Option<+T> = None | Some(value: T)

  /** The outcome of a step that may raise: `Failure` stands for a Python exception. */
  datatype Result<+R, +E> = Success(value: R) | Failure(error: E)
}
