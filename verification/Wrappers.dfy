/** Optional values and results that may be an error, shared by the models. */
module Wrappers {

  datatype Option<T> = None | Some(value: T)

  datatype Result<T> = Ok(value: T) | Err

  /** A finite set of numbers has a bound above it. */
  lemma {:induction false} UpperBound(ns: set<nat>) returns (b: nat)
    ensures forall n :: n in ns ==> n < b
  {
    if ns == {} {
      b := 0;
    } else {
      var n :| n in ns;
      b := UpperBound(ns - {n});
      assert forall m :: m in ns ==> m == n || m in ns - {n};
      b := if n < b then b else n + 1;
    }
  }
}
