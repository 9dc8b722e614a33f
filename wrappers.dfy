/** Option and Result for the values the system passes around. A `Failure`
    carries the message of the panic or exception that ends the request. */
module Wrappers {

  datatype Option<+T> = None | Some(value: T)

  datatype Result<+T> = Ok(value: T) | Failure(error: string)
}
