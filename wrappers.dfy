/** Failure-carrying return values: the model's stand-in for Java's null results and thrown exceptions. */
module Wrappers {

  /** A value that may be absent; `None` plays the part of a Java `null` result. */
  datatype Option<+T> = None | Some(value: T)

  /** Either a value or the error that the Java code would have thrown instead. */
  datatype Result<+T, +E> = Ok(value: T) | Err(error: E)
}
