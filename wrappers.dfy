/** Failure-carrying values: a JavaScript `undefined` is `None`, a thrown error is `Failure`. */
module Wrappers {

  datatype Option<+T> = None | Some(value: T)

  datatype Result<+R, +E> = Success(value: R) | Failure(error: E)
}
