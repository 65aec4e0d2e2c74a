/** Failure-carrying return types shared by the whole model: a Python call either
    returns a value or raises, and a raise is modelled as `Err`. */
module Wrappers {

  datatype Option<+T> = None | Some(value: T)

  datatype Result<+T, +E> = Ok(value: T) | Err(error: E)
}
