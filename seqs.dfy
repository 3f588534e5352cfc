// Element-wise mapping over sequences, for the `for ... of` loops that push
// one output per input.
module Seqs {
  /** `s.map(f)`, built from the end so that a loop appending `f(s[i])` follows it step by step. */
  function Map<T, U>(f: T -> U, s: seq<T>): (r: seq<U>)
    ensures |r| == |s|
    decreases |s|
  {
    if s == [] then []
    else Map(f, s[..|s| - 1]) + [f(s[|s| - 1])]
  }

  /** Element `i` of the mapped sequence is `f` of element `i`. */
  lemma {:induction false} MapAt<T, U>(f: T -> U, s: seq<T>, i: nat)
    requires i < |s|
    ensures Map(f, s)[i] == f(s[i])
    decreases |s|
  {
    var n := |s| - 1;
    if i < n {
      MapAt(f, s[..n], i);
      assert s[..n][i] == s[i];
    }
  }

  /** One more input, one more output at the end. */
  lemma MapSnoc<T, U>(f: T -> U, s: seq<T>, i: nat)
    requires i < |s|
    ensures Map(f, s[..i + 1]) == Map(f, s[..i]) + [f(s[i])]
  {
    assert s[..i + 1][..i] == s[..i];
  }
}
