/** Facts about sequence concatenation and slicing, proved once, away from the models that use them. */
module Seqs {
  /** Appending two pieces one after the other appends their concatenation. */
  lemma AppendAssoc<T>(base: seq<T>, a: seq<T>, b: seq<T>)
    ensures base + a + b == base + (a + b)
  {
  }

  /** Appending three pieces one after the other appends their concatenation. */
  lemma AppendThree<T>(base: seq<T>, a: seq<T>, b: seq<T>, c: seq<T>)
    ensures base + a + b + c == base + (a + b + c)
  {
  }

  /** The middle piece of a three-way concatenation sits right after the first. */
  lemma MiddleSlice<T>(a: seq<T>, b: seq<T>, c: seq<T>)
    ensures (a + b + c)[|a| .. |a| + |b|] == b
  {
  }

  /** A sequence is its prefix followed by the rest. */
  lemma TakeDrop<T>(s: seq<T>, i: nat)
    requires i <= |s|
    ensures s[..i] + s[i..] == s
  {
  }

  /** All but the last element of a concatenation with a non-empty second part. */
  lemma TakeAppend<T>(a: seq<T>, b: seq<T>)
    requires b != []
    ensures (a + b)[..|a| + |b| - 1] == a + b[..|b| - 1]
    ensures (a + b)[|a| + |b| - 1] == b[|b| - 1]
  {
  }

  /** Where the elements of each piece of a three-way concatenation end up. */
  lemma ThreeIndex<T>(a: seq<T>, b: seq<T>, c: seq<T>)
    ensures |a + b + c| == |a| + |b| + |c|
    ensures forall k :: 0 <= k < |a| ==> (a + b + c)[k] == a[k]
    ensures forall j :: 0 <= j < |b| ==> (a + b + c)[|a| + j] == b[j]
    ensures forall j :: 0 <= j < |c| ==> (a + b + c)[|a| + |b| + j] == c[j]
  {
  }
}
