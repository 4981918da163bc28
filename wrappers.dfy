/** Option and Result, the two failure-carrying shapes the model uses:
    `Option` for the queue's `None` sentinel and optional record fields,
    `Result` for operations that raise an exception in the program. */
module Wrappers {

  datatype Option<+T> = None | Some(value: T)

  datatype Result<+T, +E> = Success(value: T) | Failure(error: E)
}
