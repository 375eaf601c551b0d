/** Option and Result: the "nothing there" and "refused with a reason" outcomes of the labeler. */
module Wrappers {

  datatype Option<+T> = None | Some(value: T)

  datatype Result<+R, +E> = Success(value: R) | Failure(error: E)
}
