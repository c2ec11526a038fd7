/** Option and Result values used where the source returns a null pointer,
    finds nothing, or aborts. */
module Wrappers {

  datatype Option<+T> = None | Some(value: T)

  datatype Result<+R, +E> = Success(value: R) | Failure(error: E)
}
