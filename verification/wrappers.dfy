/** Plain Option and Result datatypes shared by the model: Option stands for a value
    that may be absent (a Go nil map, a missing JSON object), Result for a call
    that returns either a value or a Go `error`. */
module Wrappers {

  datatype Option<+T> = None | Some(value: T)

  datatype Result<+R, +E> = Success(value: R) | Failure(error: E)
}
