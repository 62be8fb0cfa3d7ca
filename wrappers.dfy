/** Option and Result values shared by every module of the model. */
module Wrappers {

  datatype Option<+T> = None | Some(value: T)

  /** A fetch, or any other browser call that may fail. */
  datatype Result<+T> = Success(value: T) | Failure
}
