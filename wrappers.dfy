// Optional values and the two exception kinds the game throws.

module Wrappers {

  datatype Option<T> = None | Some(value: T)

  /** The C++ exception classes raised by the modelled code. */
  datatype Error =
    | InvalidArgument(message: string)
    | RuntimeError(message: string)

  /** Outcome of an operation that either completes or throws. */
  datatype Status = Success | Failure(error: Error)

  datatype Result<T> = Ok(value: T) | Err(error: Error)

  /** Concatenation regroups. */
  lemma Associative<T>(a: seq<T>, b: seq<T>, c: seq<T>)
    ensures a + (b + c) == (a + b) + c
  {
  }
}
