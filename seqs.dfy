/** Facts about slicing concatenated sequences, stated once for any element
    type, so that proofs about the long template texts never need to look
    inside those texts. */
module Seqs {

  /** `x` stands in `s` starting at index `k`. */
  predicate OccursAt<T(==)>(x: seq<T>, s: seq<T>, k: int) {
    0 <= k && k + |x| <= |s| && s[k..k + |x|] == x
  }

  lemma SliceLeft<T>(a: seq<T>, b: seq<T>, i: int, j: int)
    requires 0 <= i <= j <= |a|
    ensures (a + b)[i..j] == a[i..j]
  {
  }

  lemma SliceRight<T>(a: seq<T>, b: seq<T>, i: int, j: int)
    requires |a| <= i <= j <= |a| + |b|
    ensures (a + b)[i..j] == b[i - |a|..j - |a|]
  {
  }

  lemma AppendAssoc<T>(a: seq<T>, b: seq<T>, c: seq<T>)
    ensures a + (b + c) == (a + b) + c
  {
  }

  /** What stands in `a` still stands there once `b` is appended. */
  lemma OccursInLonger<T>(x: seq<T>, a: seq<T>, b: seq<T>, k: int)
    requires OccursAt(x, a, k)
    ensures OccursAt(x, a + b, k)
  {
    SliceLeft(a, b, k, k + |x|);
  }
}
