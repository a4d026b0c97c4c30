// Small types shared by every module.
module Basics {

  datatype Option<+T> = None | Some(value: T)

  datatype Result<+T, +E> = Success(value: T) | Failure(error: E) {
    predicate IsFailure() { Failure? }

    function PropagateFailure<U>(): Result<U, E>
      requires Failure?
    {
      Failure(error)
    }

    function Extract(): T
      requires Success?
    {
      value
    }
  }

  // A UUID, read as the 128-bit number that PostgreSQL compares it as.
  type Id = nat

  // Milliseconds since the Unix epoch on the database clock.
  type Time = nat
}
