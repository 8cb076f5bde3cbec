/** What the other modules share. */
module Prelude {

  datatype Option<+T> = None | Some(value: T)

  // Equality at a type parameter, which the verifier compares as one value.
  predicate Same<T(==)>(a: T, b: T) {
    a == b
  }

  datatype Result<+T, +E> = Ok(value: T) | Err(error: E)

  newtype Byte = x: int | 0 <= x < 256

  // One for true, for counting.
  function One(b: bool): nat {
    if b then 1 else 0
  }

  lemma {:induction false} SubsetSize<T>(small: set<T>, big: set<T>)
    requires small <= big
    ensures |small| <= |big|
  {
    assert big == small + (big - small);
  }
}
