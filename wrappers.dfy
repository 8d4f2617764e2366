/** Option and Result: the failure-carrying values that stand for PHP's
    nullable values and thrown exceptions in this model. */
module Wrappers {

  datatype Option<+T> = None | Some(value: T)

  /** Success carries a returned value; Failure carries what the PHP code throws. */
  datatype Result<+R, +E> = Success(value: R) | Failure(error: E)
}
