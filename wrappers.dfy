/** Option and Result: "absent" and "failed" made explicit instead of nil pointers and panics. */
module Wrappers {

  datatype Option<+T> = None | Some(value: T)

  datatype Result<+R, +E> = Success(value: R) | Failure(error: E)
}
