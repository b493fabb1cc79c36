/** Failure-carrying result types shared by the whole model. */
module Wrappers {

  datatype Option<+T> = None | Some(value: T)

  /** A computation that yields a value or an error (Rust's `Result<T, E>`). */
  datatype Result<+T, +E> = Success(value: T) | Failure(error: E)

  /** A computation that yields nothing or an error (Rust's `Result<(), E>`). */
  datatype Outcome<+E> = Pass | Fail(error: E)

  /** `acc` in front of a successful list; a failure passes through. */
  function Prepend<T, E>(acc: seq<T>, r: Result<seq<T>, E>): Result<seq<T>, E>
  {
    match r
    case Failure(e) => Failure(e)
    case Success(rest) => Success(acc + rest)
  }

  lemma PrependNothing<T, E>(r: Result<seq<T>, E>)
    ensures Prepend([], r) == r
  {
    if r.Success? {
      assert [] + r.value == r.value;
    }
  }

  lemma PrependTwice<T, E>(a: seq<T>, b: seq<T>, r: Result<seq<T>, E>)
    ensures Prepend(a, Prepend(b, r)) == Prepend(a + b, r)
  {
    if r.Success? {
      assert a + (b + r.value) == (a + b) + r.value;
    }
  }
}
