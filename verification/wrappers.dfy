/** Failure-carrying wrappers used throughout the model: an optional value and
    a result that is either a value or the message of a thrown error. */
module Wrappers {

  datatype Option<+T> = None | Some(value: T)

  /** `Failure(message)` stands for a JavaScript exception whose `message` is given. */
  datatype Result<+T> = Success(value: T) | Failure(message: string)
}
