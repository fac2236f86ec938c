/** Small wrapper types shared by the model: an optional value and a
    success-or-error result, standing in for Python's None and raised
    exceptions. */
module Basics {

  datatype Option<+T> = None | Some(value: T)

  datatype Result<+T, +E> = Ok(value: T) | Err(error: E)
}
