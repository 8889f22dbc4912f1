/** Failure-compatible wrappers shared by every module of the model. */
module Wrappers {

  /** Python's `None` or a present value. */
  datatype Option<+T> = None | Some(value: T)

  /** The result of a call into code that may raise: it either returns a value or raises. */
  datatype Outcome<+T> = Returns(value: T) | Raises
}
