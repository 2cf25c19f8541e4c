/** Option, Result and Outcome datatypes shared by the other modules. */
module Wrappers {

  /** An optional value; `None` stands for an attribute that is not set. */
  datatype Option<+T> = None | Some(value: T)

  /** A value or the error that stopped its computation. */
  datatype Result<+T, +E> = Success(value: T) | Failure(error: E)

  /** The outcome of an operation that returns nothing but may fail. */
  datatype Outcome<+E> = Pass | Fail(error: E)
}
