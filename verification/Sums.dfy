/** Finite sums over sequences, with the two laws every accounting proof uses. */
module Sums {

  function Total<T>(xs: seq<T>, f: T -> int): int {
    if xs == [] then 0 else Total(xs[..|xs| - 1], f) + f(xs[|xs| - 1])
  }

  lemma {:induction false} TotalAppend<T>(xs: seq<T>, x: T, f: T -> int)
    ensures Total(xs + [x], f) == Total(xs, f) + f(x)
  {
    assert (xs + [x])[..|xs|] == xs;
  }

  /** Replacing one element moves the sum by exactly that element's change. */
  lemma {:induction false} TotalUpdate<T>(xs: seq<T>, i: nat, x: T, f: T -> int)
    requires i < |xs|
    ensures Total(xs[i := x], f) == Total(xs, f) - f(xs[i]) + f(x)
  {
    var n := |xs| - 1;
    if i == n {
      assert xs[i := x][..n] == xs[..n];
    } else {
      assert xs[i := x][..n] == xs[..n][i := x];
      TotalUpdate(xs[..n], i, x, f);
    }
  }
}
