/** Sums over sequences, used for the truck and station totals. */
module Sums {

  /** Sum of a sequence of integers, taken from the last element backwards. */
  function Sum(s: seq<int>): int {
    if s == [] then 0 else Sum(s[..|s| - 1]) + s[|s| - 1]
  }

  lemma {:induction false} SumAppend(s: seq<int>, x: int)
    ensures Sum(s + [x]) == Sum(s) + x
  {
    assert (s + [x])[..|s|] == s;
  }

  /** Sum of `f` over the elements of `s`. */
  function SumOf<T>(s: seq<T>, f: T -> int): int {
    if s == [] then 0 else f(s[0]) + SumOf(s[1..], f)
  }

  /** Replacing one element changes the sum by the difference of the two values. */
  lemma {:induction false} SumOfUpdate<T>(s: seq<T>, f: T -> int, j: int, v: T)
    requires 0 <= j < |s|
    ensures SumOf(s[j := v], f) == SumOf(s, f) - f(s[j]) + f(v)
  {
    if j == 0 {
      assert s[j := v][1..] == s[1..];
    } else {
      assert s[j := v][1..] == s[1..][j - 1 := v];
      SumOfUpdate(s[1..], f, j - 1, v);
    }
  }

  /** A sum over a sequence whose every element contributes zero is zero. */
  lemma {:induction false} SumOfZero<T>(s: seq<T>, f: T -> int)
    requires forall k :: 0 <= k < |s| ==> f(s[k]) == 0
    ensures SumOf(s, f) == 0
  {
    if s != [] {
      assert forall k :: 0 <= k < |s[1..]| ==> f(s[1..][k]) == f(s[k + 1]);
      SumOfZero(s[1..], f);
    }
  }
}
