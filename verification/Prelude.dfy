/** Optional values, outcomes and a fact about sets, shared by every module. */
module Prelude {

  /** A nullable column, or an answer that may be absent. */
  datatype Option<+T> = None | Some(value: T)

  /** What a call hands back: a value, or the error it raises. */
  datatype Result<+T, +E> = Ok(value: T) | Err(error: E)

  lemma SubsetSize<T>(a: set<T>, b: set<T>)
    requires a <= b
    ensures |a| <= |b|
  {
    assert b == a + (b - a);
  }
}
