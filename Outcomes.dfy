/** The exceptions the C++ code throws, as values. */
module Outcomes {

  /** `std::invalid_argument` and `std::runtime_error`, with their messages. */
  datatype Error = InvalidArgument(message: string) | RuntimeError(message: string)

  datatype Result<T> = Ok(value: T) | Fail(error: Error)
}
