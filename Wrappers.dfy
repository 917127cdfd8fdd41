/** Success/failure wrappers used for the package's exceptions and for
    Python's optional values. */
module Wrappers {

  datatype Option<+T> = None | Some(value: T)

  datatype Result<+T, +E> = Success(value: T) | Failure(error: E)
}
