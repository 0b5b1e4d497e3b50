/** `xs.reduce((sum, x) => sum + f(x), 0)` over exact reals, and the facts
    about it the portfolio totals rely on. */
module Sums {

  /** The left fold of `+` over `f` applied to each element, from 0. */
  function SumBy<T>(xs: seq<T>, f: T -> real): real {
    if xs == [] then 0.0 else SumBy(xs[..|xs| - 1], f) + f(xs[|xs| - 1])
  }

  /** Summing a concatenation sums the parts. */
  lemma {:induction false} SumByAppend<T>(xs: seq<T>, ys: seq<T>, f: T -> real)
    ensures SumBy(xs + ys, f) == SumBy(xs, f) + SumBy(ys, f)
  {
    if ys == [] {
      assert xs + ys == xs;
    } else {
      var last := |ys| - 1;
      assert (xs + ys)[..|xs + ys| - 1] == xs + ys[..last];
      assert (xs + ys)[|xs + ys| - 1] == ys[last];
      SumByAppend(xs, ys[..last], f);
    }
  }

  /** The sum of a one-element list prepended to others. */
  lemma SumByCons<T>(x: T, xs: seq<T>, f: T -> real)
    ensures SumBy([x] + xs, f) == f(x) + SumBy(xs, f)
  {
    SumByAppend([x], xs, f);
    assert [x][..0] == [];
  }

  /** Non-negative terms give a non-negative sum. */
  lemma {:induction false} SumByNonNegative<T>(xs: seq<T>, f: T -> real)
    requires forall i :: 0 <= i < |xs| ==> f(xs[i]) >= 0.0
    ensures SumBy(xs, f) >= 0.0
  {
    if xs != [] {
      SumByNonNegative(xs[..|xs| - 1], f);
    }
  }

  /** The sum of differences is the difference of the sums. */
  lemma {:induction false} SumByDifference<T>(xs: seq<T>, f: T -> real, g: T -> real, h: T -> real)
    requires forall i :: 0 <= i < |xs| ==> h(xs[i]) == f(xs[i]) - g(xs[i])
    ensures SumBy(xs, h) == SumBy(xs, f) - SumBy(xs, g)
  {
    if xs != [] {
      SumByDifference(xs[..|xs| - 1], f, g, h);
    }
  }
}
