/** Failure-compatible wrappers used for the error paths of the model. */
module Wrappers {

  /** A value that may be absent (a Java null, or an exception from a parser). */
  datatype Option<+T> = None | Some(value: T)
}
