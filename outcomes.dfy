/** Failure-carrying wrappers used across the model: Python's `None` and
    raised exceptions become explicit values. */
module Outcomes {

  datatype Option<+T> = None | Some(value: T)

  datatype Result<+T, +E> = Ok(value: T) | Err(error: E)
}
