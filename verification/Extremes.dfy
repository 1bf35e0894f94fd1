/** Sums, largest and smallest positive values of a field over a list. */
module Extremes {

  function SumBy<T>(f: T -> real, xs: seq<T>): real {
    if xs == [] then 0.0 else SumBy(f, xs[..|xs| - 1]) + f(xs[|xs| - 1])
  }

  /** No element exceeds x, and one has it, unless x is zero. */
  predicate IsLargest<T>(f: T -> real, xs: seq<T>, x: real) {
    && (forall i :: 0 <= i < |xs| ==> f(xs[i]) <= x)
    && (x == 0.0 || exists i :: 0 <= i < |xs| && f(xs[i]) == x)
  }

  /** The smallest of the positive values, zero if there is none. */
  predicate IsSmallestPositive<T>(f: T -> real, xs: seq<T>, x: real) {
    && x >= 0.0
    && (forall i :: 0 <= i < |xs| && f(xs[i]) > 0.0 ==> 0.0 < x <= f(xs[i]))
    && (x > 0.0 ==> exists i :: 0 <= i < |xs| && f(xs[i]) == x)
  }

  /** x is the first value that p accepts, or the given one if it accepts none. */
  predicate IsFirst<T, U(==)>(f: T -> U, p: U -> bool, xs: seq<T>, otherwise: U, x: U) {
    || (x == otherwise && forall i :: 0 <= i < |xs| ==> !p(f(xs[i])))
    || exists i :: 0 <= i < |xs| && x == f(xs[i]) && p(x) && forall j :: 0 <= j < i ==> !p(f(xs[j]))
  }

  lemma SumAppend<T>(f: T -> real, xs: seq<T>, y: T)
    ensures SumBy(f, xs + [y]) == SumBy(f, xs) + f(y)
  {
    assert (xs + [y])[..|xs|] == xs;
  }

  lemma LargestAppend<T>(f: T -> real, xs: seq<T>, x: real, y: T)
    requires IsLargest(f, xs, x)
    ensures IsLargest(f, xs + [y], if x < f(y) then f(y) else x)
  {
    var ys := xs + [y];
    assert ys[|xs|] == y;
    if x != 0.0 {
      var i :| 0 <= i < |xs| && f(xs[i]) == x;
      assert f(ys[i]) == x;
    }
  }

  lemma SmallestAppend<T>(f: T -> real, xs: seq<T>, x: real, y: T)
    requires IsSmallestPositive(f, xs, x) && f(y) >= 0.0
    ensures IsSmallestPositive(f, xs + [y], if f(y) > 0.0 && (x == 0.0 || f(y) < x) then f(y) else x)
  {
    var ys := xs + [y];
    assert ys[|xs|] == y;
    if x > 0.0 {
      var i :| 0 <= i < |xs| && f(xs[i]) == x;
      assert f(ys[i]) == x;
    }
  }

  lemma FirstAppend<T, U>(f: T -> U, p: U -> bool, xs: seq<T>, otherwise: U, x: U, y: T)
    requires IsFirst(f, p, xs, otherwise, x) && !p(otherwise)
    ensures IsFirst(f, p, xs + [y], otherwise, if !p(x) && p(f(y)) then f(y) else x)
  {
    var ys := xs + [y];
    assert ys[|xs|] == y;
    if p(x) {
      var i :| 0 <= i < |xs| && x == f(xs[i]) && forall j :: 0 <= j < i ==> !p(f(xs[j]));
      assert x == f(ys[i]) && forall j :: 0 <= j < i ==> ys[j] == xs[j];
    }
  }
}
