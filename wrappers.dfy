/** Option and Result values used where the modelled code returns "nothing"
    (None, a null reference) or fails (a raised exception, an assert, a non-zero exit). */
module Wrappers {

  datatype Option<+T> = None | Some(value: T)

  datatype Result<+T, +E> = Ok(value: T) | Err(error: E)
}
