/** Small failure-carrying datatypes shared by the other modules. */
module Wrappers {

  /** A value that may be absent; stands in for a Java reference that may be null. */
  datatype Option<+T> = None | Some(value: T)

  /** The outcome of an operation that returns nothing but may fail with an error. */
  datatype Outcome<+E> = Pass | Fail(error: E)
}
