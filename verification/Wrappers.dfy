/**
 What several modules need: optional values and linear search.
 */
module Wrappers {
  datatype Option<+T> = None | Some(value: T)

  /** The first position whose element has property `p`, or the length if there is none. */
  function FirstWhere<T>(s: seq<T>, p: T -> bool): (k: nat)
    ensures k <= |s| && (forall i :: 0 <= i < k ==> !p(s[i])) && (k < |s| ==> p(s[k]))
  {
    if s == [] || p(s[0]) then 0 else 1 + FirstWhere(s[1..], p)
  }
}
