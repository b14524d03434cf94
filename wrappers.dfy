/** Failure-carrying results: the Go functions modelled here return `(value, error)`
    pairs, and an error is a message string. */
module Wrappers {

  datatype Option<+T> = None | Some(value: T)

  datatype Result<+T> = Ok(value: T) | Err(error: string)
}
