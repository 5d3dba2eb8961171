/** Small failure-carrying datatypes shared by the other modules. */
module Wrappers {

  /** A value that may be absent: Ruby's `nil` versus a present value. */
  datatype Option<+T> = None | Some(value: T)

  /** The outcome of a step that either completes or raises the error it carries. */
  datatype Outcome<+E> = Pass | Fail(error: E)
}
