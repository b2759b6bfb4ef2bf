/** The optional value shared by every table of the model (a nullable column),
    and the result of an operation that may raise. */
module Wrappers {
  datatype Option<+T> = None | Some(value: T)

  datatype Result<+T, +E> = Ok(value: T) | Err(error: E)
}
