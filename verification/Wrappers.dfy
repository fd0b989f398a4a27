/** Go's "value or nothing" and "value or error" results. Error texts are not modelled. */
module Wrappers {
  datatype Option<+T> = None | Some(value: T)

  datatype Result<+T> = Ok(value: T) | Err
}
