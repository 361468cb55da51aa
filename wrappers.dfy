/** Option and Result values, used for nullable columns and for fallible operations. */
module Wrappers {

  /** A value that may be absent: a nullable SQL column, or `Vec::get` on a short vector. */
  datatype Option<+T> = None | Some(value: T)

  /** The outcome of an operation that may fail with an error of type `E`. */
  datatype Result<+R, +E> = Success(value: R) | Failure(error: E)
}
