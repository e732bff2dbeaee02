/** Option, Result and Outcome: the model's stand-ins for C# nullable references
    and for members that either return a value or throw. */
module Wrappers {

  datatype Option<+T> = None | Some(value: T)

  /** What an `Equals(object? obj)` override of a class T may be handed: null, an instance of T,
      or an object of some other type. */
  datatype Object<+T> = Null | Instance(value: T) | OtherType

  datatype Result<+T, +E> = Success(value: T) | Failure(error: E) {
    predicate IsFailure() { Failure? }

    function PropagateFailure<U>(): Result<U, E>
      requires Failure?
    {
      Failure(error)
    }

    function Extract(): T
      requires Success?
    {
      value
    }
  }

  /** The result of a C# `void` member that may throw. */
  datatype Outcome<+E> = Pass | Fail(error: E) {
    predicate IsFailure() { Fail? }

    function PropagateFailure<U>(): Result<U, E>
      requires Fail?
    {
      Failure(error)
    }
  }
}
