/** Stock failure-carrying datatypes shared by the three components. */
module Wrappers {

  /** An optional value: JavaScript's "absent" (`undefined`) as opposed to a present value. */
  datatype Option<+T> = None | Some(value: T)

  /** The outcome of an awaited call: a value, or the error it was rejected with. */
  datatype Result<+T, +E> = Success(value: T) | Failure(error: E)
}
