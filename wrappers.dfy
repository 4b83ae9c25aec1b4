/** Option and Result: a value a JavaScript caller may leave undefined, and a
    step that either yields a value or throws. */
module Wrappers {

  datatype Option<+T> = None | Some(value: T)

  datatype Result<+R, +E> = Success(value: R) | Failure(error: E)
}
