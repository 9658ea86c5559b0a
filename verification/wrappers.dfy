/** Option and Result: the two ways a validation step in this model reports
    absence and failure. A `ValueError` or `ProtocolValidationError` raised in
    pytest-mcp becomes the `Failure` arm of a `Result`. */
module Wrappers {

  datatype Option<+T> = None | Some(value: T)

  datatype Result<+R, +E> = Success(value: R) | Failure(error: E)
}
