/** Option and Result: the failure-carrying values used in place of Rust's `Option`
    and of the panics on malformed input. */
module Wrappers {

  datatype Option<+T> = None | Some(value: T)

  datatype Result<+R, +E> = Success(value: R) | Failure(error: E)
}
