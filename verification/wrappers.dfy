/** Option and Result, the two failure-carrying shapes the quiz model needs:
    `Option` stands for a nullable field or relation, `Result` for a lookup
    that either yields a value or raises an error. */
module Wrappers {

  /** An absent (`null`/`undefined`) or present value. */
  datatype Option<+T> = None | Some(value: T)

  /** The outcome of an operation that may raise an error of type `E`. */
  datatype Result<+T, +E> = Success(value: T) | Failure(error: E)
}
