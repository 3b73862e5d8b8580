/// The two failure-carrying types of the model: an optional value, and a
/// value or the message of the exception that prevented it.
module Wrappers {

  datatype Option<+T> = None | Some(value: T)

  datatype Result<+T> = Ok(value: T) | Err(error: string)
}
