/** The two failure-carrying shapes the model needs: a value that may be
    missing (a JavaScript `null`/`undefined`) and a computation that may
    throw or reject (a JavaScript exception or a rejected promise). */
module Wrappers {

  datatype Option<+T> = None | Some(value: T)

  datatype Result<+R, +E> = Success(value: R) | Failure(error: E)
}
