/** Option and Result, standing in for `java.util.Optional` and for a future that
    ends either with a value or with an exception. */
module Wrappers {

  datatype Option<T> = None | Some(value: T)

  datatype Result<T, E> = Success(value: T) | Failure(error: E)
}
