/** The three exception types the library throws, as values. */
module Errors {

  /** `std::domain_error`, `std::invalid_argument` and `std::runtime_error`. */
  datatype Error = DomainError | InvalidArgument | RuntimeError

  /** The outcome of an operation that either returns a value or throws. */
  datatype Result<T> = Ok(value: T) | Err(error: Error) {

    predicate IsFailure() {
      Err?
    }

    function PropagateFailure<U>(): Result<U>
      requires Err?
    {
      Err(error)
    }

    function Extract(): T
      requires Ok?
    {
      value
    }
  }

  /** The outcome of an operation that returns nothing or throws. */
  datatype Status = Done | Failed(error: Error)
}
