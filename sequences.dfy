/** Order-preserving selection from a sequence, shared by the backend filter and the client's query encoder. */
module Sequences {

  /** `a` is what remains of `b` after deleting some of its elements; the rest keep their order. */
  predicate IsSubsequence<T(==)>(a: seq<T>, b: seq<T>)
    decreases |b|
  {
    a == [] || (b != [] && ((a[0] == b[0] && IsSubsequence(a[1..], b[1..])) || IsSubsequence(a, b[1..])))
  }

  /** Dropping an element of `b` that `a` does not use keeps `a` a subsequence. */
  lemma SubsequenceSkip<T>(a: seq<T>, x: T, b: seq<T>)
    requires IsSubsequence(a, b)
    ensures IsSubsequence(a, [x] + b)
  {
    assert ([x] + b)[1..] == b;
  }

  /** Keeping the same head on both sides keeps `a` a subsequence. */
  lemma SubsequenceKeep<T>(x: T, a: seq<T>, b: seq<T>)
    requires IsSubsequence(a, b)
    ensures IsSubsequence([x] + a, [x] + b)
  {
    assert ([x] + a)[1..] == a;
    assert ([x] + b)[1..] == b;
  }
}
