/** Sums of weights over a sequence of threads: with 0/1 weights, a head count. */
module Sums {

  function Sum<T>(s: seq<T>, w: T -> nat): nat
  {
    if s == [] then 0 else Sum(s[..|s| - 1], w) + w(s[|s| - 1])
  }

  /** Replacing one element changes the sum by the difference of the two weights. */
  lemma {:induction false} SumUpdate<T>(s: seq<T>, i: nat, x: T, w: T -> nat)
    requires i < |s|
    ensures Sum(s[i := x], w) + w(s[i]) == Sum(s, w) + w(x)
  {
    var n := |s| - 1;
    if i == n {
      assert s[i := x][..n] == s[..n];
    } else {
      assert s[i := x][..n] == s[..n][i := x];
      SumUpdate(s[..n], i, x, w);
    }
  }

  /** One element weighs at most the whole; two distinct ones together as well. */
  lemma {:induction false} SumAtLeast<T>(s: seq<T>, i: nat, w: T -> nat)
    requires i < |s|
    ensures w(s[i]) <= Sum(s, w)
  {
    if i < |s| - 1 {
      SumAtLeast(s[..|s| - 1], i, w);
    }
  }

  lemma {:induction false} SumAtLeastTwo<T>(s: seq<T>, i: nat, j: nat, w: T -> nat)
    requires i < j < |s|
    ensures w(s[i]) + w(s[j]) <= Sum(s, w)
  {
    if j < |s| - 1 {
      SumAtLeastTwo(s[..|s| - 1], i, j, w);
    } else {
      SumAtLeast(s[..j], i, w);
    }
  }

  /** A sum is zero exactly when every weight is. */
  lemma {:induction false} SumZero<T>(s: seq<T>, w: T -> nat)
    ensures Sum(s, w) == 0 <==> forall i :: 0 <= i < |s| ==> w(s[i]) == 0
  {
    if s != [] {
      var n := |s| - 1;
      SumZero(s[..n], w);
      assert forall i :: 0 <= i < n ==> s[..n][i] == s[i];
    }
  }

  /** A weight that is nowhere larger has a sum that is not larger. */
  lemma {:induction false} SumMonotone<T>(s: seq<T>, v: T -> nat, w: T -> nat)
    requires forall i :: 0 <= i < |s| ==> v(s[i]) <= w(s[i])
    ensures Sum(s, v) <= Sum(s, w)
  {
    if s != [] {
      var n := |s| - 1;
      assert forall i :: 0 <= i < n ==> s[..n][i] == s[i];
      SumMonotone(s[..n], v, w);
    }
  }
}
