/** Element-wise application over a sequence. */
module Seqs {

  /** `f` applied to every element, in order. */
  function Map<T, U>(s: seq<T>, f: T -> U): (r: seq<U>)
    ensures |r| == |s|
    ensures forall i :: 0 <= i < |s| ==> r[i] == f(s[i])
  {
    if s == [] then [] else [f(s[0])] + Map(s[1..], f)
  }

  /** Functions that agree on every element give the same result. */
  lemma MapAgree<T, U>(s: seq<T>, f: T -> U, g: T -> U)
    requires forall i :: 0 <= i < |s| ==> f(s[i]) == g(s[i])
    ensures Map(s, f) == Map(s, g)
  {
  }
}
