/** Result types shared by the models: SQL NULLs and Go's nil values become Option,
    Go's error returns become Result. */
module Wrappers {

  datatype Option<+T> = None | Some(value: T)

  datatype Result<+R, +E> = Success(value: R) | Failure(error: E)
}
