/** Failure-carrying datatypes shared by the model: Go's `(value, error)` pairs
    become a `Result`, and a value that may be absent becomes an `Option`. */
module Wrappers {

  datatype Option<+T> = None | Some(value: T)

  datatype Result<+R, +E> = Success(value: R) | Failure(error: E)
}
