/** Option and Result: Java's `null` and thrown exceptions, made explicit. */
module Wrappers {

  /** `None` stands for Java's `null`. */
  datatype Option<+T> = None | Some(value: T)

  /** `Failure` stands for an exception that leaves the Java method. */
  datatype Result<+T, +E> = Success(value: T) | Failure(error: E)
}
