/** Failure-carrying datatypes shared by the generator modules. */
module Wrappers {

  /** A PHP nullable: `None` stands for `null`. */
  datatype Option<+T> = None | Some(value: T) {

    /** The wrapped value, or `default` when it is `null`. */
    function GetOr(default: T): T {
      match this
      case Some(v) => v
      case None => default
    }
  }

  /** The outcome of a render that may throw. */
  datatype Result<+T, +E> = Ok(value: T) | Err(error: E) {

    predicate IsFailure() {
      Err?
    }

    function PropagateFailure<U>(): Result<U, E>
      requires Err?
    {
      Err(error)
    }

    function Extract(): T
      requires Ok?
    {
      value
    }
  }
}
