/** Failure-carrying wrappers shared by the model: JavaScript's `null`
    becomes `None`, a thrown exception becomes `Failure`. */
module Wrappers {

  datatype Option<+T> = None | Some(value: T)

  datatype Result<+R, +E> = Success(value: R) | Failure(error: E)
}
