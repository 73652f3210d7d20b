/**
  Facts about sequences that the solver does not find on its own cheaply;
  calling them keeps the proofs of the read loop and the filter small.
 */
module Sequences {
  lemma Associative<T>(a: seq<T>, b: seq<T>, c: seq<T>)
    ensures (a + b) + c == a + (b + c)
  {
  }

  /** A non-empty sequence is its prefix followed by its last element. */
  lemma Snoc<T>(s: seq<T>)
    requires s != []
    ensures s[..|s| - 1] + [s[|s| - 1]] == s
  {
  }

  /** Indexing and slicing past a prefix of a sequence with one element appended. */
  lemma SliceSnoc<T>(s: seq<T>, x: T, k: nat)
    requires k <= |s|
    ensures (s + [x])[k] == (if k < |s| then s[k] else x)
    ensures (s + [x])[k..] == s[k..] + [x]
  {
  }
}
