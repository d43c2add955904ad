/** The two wrappers the model uses: `Option` for a C# reference that may be null,
    `Result` for an operation that either returns or throws. */
module Wrappers {

  /** `None` stands for a null reference. */
  datatype Option<+T> = None | Some(value: T)

  /** `Failure` carries the exception an operation throws. */
  datatype Result<+T, +E> = Success(value: T) | Failure(error: E)
}
