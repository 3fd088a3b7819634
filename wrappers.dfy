/** Option and Result values, used where the application yields `undefined`
    (a failed lookup) or throws (a field read on a missing value). */
module Wrappers {

  datatype Option<+T> = None | Some(value: T)

  datatype Result<+T, +E> = Ok(value: T) | Err(error: E)
}
