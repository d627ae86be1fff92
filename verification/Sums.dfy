/** Finite sums over the threads and lists of a state. */
module Sums {

  function SumBy<T>(f: T -> int, xs: seq<T>): int {
    if xs == [] then 0 else f(xs[0]) + SumBy(f, xs[1..])
  }

  lemma {:induction false} SumByUpdate<T>(f: T -> int, xs: seq<T>, i: nat, x: T)
    requires i < |xs|
    ensures SumBy(f, xs[i := x]) == SumBy(f, xs) - f(xs[i]) + f(x)
  {
    if i == 0 {
      assert xs[0 := x][1..] == xs[1..];
    } else {
      assert xs[i := x][1..] == xs[1..][i - 1 := x];
      SumByUpdate(f, xs[1..], i - 1, x);
    }
  }

  lemma {:induction false} SumBySame<T, U>(f: T -> int, xs: seq<T>, g: U -> int, ys: seq<U>)
    requires |xs| == |ys|
    requires forall i :: 0 <= i < |xs| ==> f(xs[i]) == g(ys[i])
    ensures SumBy(f, xs) == SumBy(g, ys)
  {
    if xs != [] { SumBySame(f, xs[1..], g, ys[1..]); }
  }

  lemma {:induction false} SumByZero<T>(f: T -> int, xs: seq<T>)
    requires forall i :: 0 <= i < |xs| ==> f(xs[i]) == 0
    ensures SumBy(f, xs) == 0
  {
    if xs != [] { SumByZero(f, xs[1..]); }
  }

  lemma {:induction false} SumByPlus<T>(f: T -> int, g: T -> int, h: T -> int, xs: seq<T>)
    requires forall i :: 0 <= i < |xs| ==> f(xs[i]) == g(xs[i]) + h(xs[i])
    ensures SumBy(f, xs) == SumBy(g, xs) + SumBy(h, xs)
  {
    if xs != [] { SumByPlus(f, g, h, xs[1..]); }
  }

  lemma {:induction false} SumByNonNegative<T>(f: T -> int, xs: seq<T>)
    requires forall i :: 0 <= i < |xs| ==> f(xs[i]) >= 0
    ensures SumBy(f, xs) >= 0
    ensures forall i :: 0 <= i < |xs| ==> f(xs[i]) <= SumBy(f, xs)
  {
    if xs != [] {
      SumByNonNegative(f, xs[1..]);
      assert forall i :: 0 < i < |xs| ==> xs[i] == xs[1..][i - 1];
    }
  }

  /** Every term rises by at most `d`. */
  lemma {:induction false} SumByRise<T, U>(f: T -> int, xs: seq<T>, g: U -> int, ys: seq<U>, d: int)
    requires |xs| == |ys|
    requires forall i :: 0 <= i < |xs| ==> g(ys[i]) <= f(xs[i]) + d
    ensures SumBy(g, ys) <= SumBy(f, xs) + d * |xs|
  {
    if xs != [] { SumByRise(f, xs[1..], g, ys[1..], d); }
  }
}
