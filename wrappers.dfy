/** Failure-compatible result types shared by the builders. */
module Wrappers {

  datatype Option<T> = None | Some(value: T)

  /** The outcome of a builder step: a value, or the exception the C# code throws. */
  datatype Result<T, E> = Ok(value: T) | Err(error: E)
}
