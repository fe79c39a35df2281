/** Sums over sequences, and how an update, an append or a removal moves them. */
module Sums {
  /** The sum over the first `n` elements. */
  function SumTo<T>(xs: seq<T>, f: T -> int, n: nat): int
    requires n <= |xs|
  {
    if n == 0 then 0 else SumTo(xs, f, n - 1) + f(xs[n - 1])
  }

  function Sum<T>(xs: seq<T>, f: T -> int): int {
    SumTo(xs, f, |xs|)
  }

  lemma {:induction false} SumOfPrefix<T>(xs: seq<T>, ys: seq<T>, f: T -> int, n: nat)
    requires n <= |xs| && n <= |ys| && forall k :: 0 <= k < n ==> xs[k] == ys[k]
    ensures SumTo(xs, f, n) == SumTo(ys, f, n)
  {
    if n > 0 {
      SumOfPrefix(xs, ys, f, n - 1);
    }
  }

  lemma {:induction false} SumToUpdate<T>(xs: seq<T>, f: T -> int, i: nat, x: T, n: nat)
    requires i < n <= |xs|
    ensures SumTo(xs[i := x], f, n) == SumTo(xs, f, n) - f(xs[i]) + f(x)
  {
    if i == n - 1 {
      SumOfPrefix(xs[i := x], xs, f, i);
    } else {
      SumToUpdate(xs, f, i, x, n - 1);
    }
  }

  lemma SumUpdate<T>(xs: seq<T>, f: T -> int, i: nat, x: T)
    requires i < |xs|
    ensures Sum(xs[i := x], f) == Sum(xs, f) - f(xs[i]) + f(x)
  {
    SumToUpdate(xs, f, i, x, |xs|);
  }

  lemma SumAppend<T>(xs: seq<T>, f: T -> int, x: T)
    ensures Sum(xs + [x], f) == Sum(xs, f) + f(x)
  {
    SumOfPrefix(xs + [x], xs, f, |xs|);
  }

  lemma {:induction false} SumToRemove<T>(xs: seq<T>, f: T -> int, i: nat, n: nat)
    requires i <= n < |xs|
    ensures SumTo(xs[..i] + xs[i + 1..], f, n) == SumTo(xs, f, n + 1) - f(xs[i])
  {
    if i == n {
      SumOfPrefix(xs[..i] + xs[i + 1..], xs, f, i);
    } else {
      SumToRemove(xs, f, i, n - 1);
    }
  }

  lemma SumRemove<T>(xs: seq<T>, f: T -> int, i: nat)
    requires i < |xs|
    ensures Sum(xs[..i] + xs[i + 1..], f) == Sum(xs, f) - f(xs[i])
  {
    SumToRemove(xs, f, i, |xs| - 1);
  }
}
