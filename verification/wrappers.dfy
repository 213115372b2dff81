/** Failure-compatible wrappers shared by the model: an optional value and a
    value-or-error result. */
module Wrappers {

  /** A value that may be missing, like `std::string::npos` for a failed search. */
  datatype Option<+T> = None | Some(value: T)

  /** Either the value a step produced or the reason it stopped the program. */
  datatype Result<+T, +E> = Success(value: T) | Failure(error: E)
}
