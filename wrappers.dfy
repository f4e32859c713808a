/** Failure-carrying values used in place of the exceptions the damper raises. */
module Wrappers {

  /** A value that may be absent; stands for Python's `None`. */
  datatype Option<T> = None | Some(value: T)

  /** The result of an operation that either yields a value or raises an error. */
  datatype Result<T, E> = Ok(value: T) | Err(error: E)

  /** The result of an operation that yields nothing or raises an error. */
  datatype Outcome<E> = Pass | Fail(error: E)
}
