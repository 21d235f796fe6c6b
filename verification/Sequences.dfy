/** Concatenation, regrouped where a proof needs it. */
module Sequences {

  lemma Regroup<T>(a: seq<T>, b: seq<T>, c: seq<T>)
    ensures a + (b + c) == (a + b) + c && |a + b| == |a| + |b|
  {
  }
}
