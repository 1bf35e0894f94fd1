/** Totals in a commutative monoid: they do not depend on order or grouping. */
module Monoids {

  ghost predicate CommutativeMonoid<T(!new)>(op: (T, T) -> T, unit: T) {
    forall x, y, z :: Laws(op, unit, x, y, z)
  }

  /** The laws for three values, so that a proof names the instances it uses. */
  predicate Laws<T(==)>(op: (T, T) -> T, unit: T, x: T, y: T, z: T) {
    op(x, unit) == x && op(x, y) == op(y, x) && op(op(x, y), z) == op(x, op(y, z))
  }

  function Total<T>(op: (T, T) -> T, unit: T, xs: seq<T>): T {
    if xs == [] then unit else op(Total(op, unit, xs[..|xs| - 1]), xs[|xs| - 1])
  }

  function Flatten<T>(groups: seq<seq<T>>): seq<T> {
    if groups == [] then [] else Flatten(groups[..|groups| - 1]) + groups[|groups| - 1]
  }

  function Totals<T>(op: (T, T) -> T, unit: T, groups: seq<seq<T>>): (totals: seq<T>)
    ensures |totals| == |groups|
    ensures forall i :: 0 <= i < |groups| ==> totals[i] == Total(op, unit, groups[i])
  {
    if groups == [] then []
    else Totals(op, unit, groups[..|groups| - 1]) + [Total(op, unit, groups[|groups| - 1])]
  }

  lemma TotalAppend<T>(op: (T, T) -> T, unit: T, xs: seq<T>, x: T)
    ensures Total(op, unit, xs + [x]) == op(Total(op, unit, xs), x)
  {
    assert (xs + [x])[..|xs|] == xs;
  }

  lemma {:induction false} TotalConcat<T(!new)>(op: (T, T) -> T, unit: T, xs: seq<T>, ys: seq<T>)
    requires CommutativeMonoid(op, unit)
    ensures Total(op, unit, xs + ys) == op(Total(op, unit, xs), Total(op, unit, ys))
  {
    if ys == [] {
      assert xs + ys == xs;
      assert Laws(op, unit, Total(op, unit, xs), unit, unit);
    } else {
      var n := |ys| - 1;
      TotalConcat(op, unit, xs, ys[..n]);
      assert xs + ys == (xs + ys[..n]) + [ys[n]];
      TotalAppend(op, unit, xs + ys[..n], ys[n]);
      assert Laws(op, unit, Total(op, unit, xs), Total(op, unit, ys[..n]), ys[n]);
    }
  }

  /** The total of group totals is the total of everything. */
  lemma {:induction false} TotalGrouped<T(!new)>(op: (T, T) -> T, unit: T, groups: seq<seq<T>>)
    requires CommutativeMonoid(op, unit)
    ensures Total(op, unit, Totals(op, unit, groups)) == Total(op, unit, Flatten(groups))
  {
    if groups != [] {
      var n := |groups| - 1;
      TotalGrouped(op, unit, groups[..n]);
      TotalAppend(op, unit, Totals(op, unit, groups[..n]), Total(op, unit, groups[n]));
      TotalConcat(op, unit, Flatten(groups[..n]), groups[n]);
    }
  }

  lemma SplitAround<T>(xs: seq<T>, i: nat)
    requires i < |xs|
    ensures xs == (xs[..i] + [xs[i]]) + xs[i + 1..]
  {
  }

  lemma MoveLast<T(!new)>(op: (T, T) -> T, unit: T, a: T, x: T, b: T)
    requires CommutativeMonoid(op, unit)
    ensures op(op(a, x), b) == op(op(a, b), x)
  {
    assert Laws(op, unit, a, x, b) && Laws(op, unit, a, b, x) && Laws(op, unit, x, b, b);
  }

  lemma TotalRemove<T(!new)>(op: (T, T) -> T, unit: T, xs: seq<T>, i: nat)
    requires CommutativeMonoid(op, unit) && i < |xs|
    ensures Total(op, unit, xs) == op(Total(op, unit, xs[..i] + xs[i + 1..]), xs[i])
  {
    var a, b := xs[..i], xs[i + 1..];
    SplitAround(xs, i);
    TotalConcat(op, unit, a + [xs[i]], b);
    TotalConcat(op, unit, a, b);
    TotalAppend(op, unit, a, xs[i]);
    MoveLast(op, unit, Total(op, unit, a), xs[i], Total(op, unit, b));
  }

  lemma MultisetRemove<T>(xs: seq<T>, i: nat)
    requires i < |xs|
    ensures multiset(xs) == multiset(xs[..i] + xs[i + 1..]) + multiset{xs[i]}
  {
    assert xs == xs[..i] + [xs[i]] + xs[i + 1..];
  }

  function Mapped<S, T>(f: S -> T, xs: seq<S>): (ys: seq<T>)
    ensures |ys| == |xs| && forall i :: 0 <= i < |xs| ==> ys[i] == f(xs[i])
  {
    seq(|xs|, i requires 0 <= i < |xs| => f(xs[i]))
  }

  function Without<T>(xs: seq<T>, i: nat): seq<T>
    requires i < |xs|
  {
    xs[..i] + xs[i + 1..]
  }

  lemma MappedWithout<S, T>(f: S -> T, xs: seq<S>, i: nat)
    requires i < |xs|
    ensures multiset(Mapped(f, xs)) == multiset(Mapped(f, Without(xs, i))) + multiset{f(xs[i])}
  {
    MultisetRemove(Mapped(f, xs), i);
    assert Without(Mapped(f, xs), i) == Mapped(f, Without(xs, i));
  }

  lemma CancelOne<T>(a: multiset<T>, b: multiset<T>, x: T)
    requires a + multiset{x} == b + multiset{x}
    ensures a == b
  {
    forall y ensures a[y] == b[y] { assert (a + multiset{x})[y] == (b + multiset{x})[y]; }
  }

  lemma PermutedWithout<T>(xs: seq<T>, i: nat, ys: seq<T>, j: nat)
    requires multiset(xs) == multiset(ys) && i < |xs| && j < |ys| && xs[i] == ys[j]
    ensures multiset(Without(xs, i)) == multiset(Without(ys, j))
  {
    MultisetRemove(xs, i);
    MultisetRemove(ys, j);
    CancelOne(multiset(Without(xs, i)), multiset(Without(ys, j)), xs[i]);
  }

  /** The total does not depend on the order. */
  lemma {:induction false} TotalPermuted<T(!new)>(op: (T, T) -> T, unit: T, xs: seq<T>, ys: seq<T>)
    requires CommutativeMonoid(op, unit) && multiset(xs) == multiset(ys)
    ensures Total(op, unit, xs) == Total(op, unit, ys)
    decreases |xs|
  {
    if xs == [] {
      assert |multiset(ys)| == |multiset(xs)| == 0;
    } else {
      assert xs[0] in multiset(ys);
      var j :| 0 <= j < |ys| && ys[j] == xs[0];
      PermutedWithout(xs, 0, ys, j);
      TotalPermuted(op, unit, Without(xs, 0), Without(ys, j));
      TotalRemove(op, unit, xs, 0);
      TotalRemove(op, unit, ys, j);
    }
  }

  /** Mapping permuted sequences gives permuted sequences. */
  lemma {:induction false} MappedPermuted<S, T>(f: S -> T, xs: seq<S>, ys: seq<S>)
    requires multiset(xs) == multiset(ys)
    ensures multiset(Mapped(f, xs)) == multiset(Mapped(f, ys))
    decreases |xs|
  {
    if xs == [] {
      assert |multiset(ys)| == |multiset(xs)| == 0;
    } else {
      assert xs[0] in multiset(ys);
      var j :| 0 <= j < |ys| && ys[j] == xs[0];
      PermutedWithout(xs, 0, ys, j);
      MappedPermuted(f, Without(xs, 0), Without(ys, j));
      MappedWithout(f, xs, 0);
      MappedWithout(f, ys, j);
    }
  }

  /** Two columns of equal height, added row by row. */
  function Rows<T>(op: (T, T) -> T, xs: seq<T>, ys: seq<T>): (rows: seq<T>)
    requires |xs| == |ys|
    ensures |rows| == |xs| && forall i :: 0 <= i < |xs| ==> rows[i] == op(xs[i], ys[i])
  {
    seq(|xs|, i requires 0 <= i < |xs| && |xs| == |ys| => op(xs[i], ys[i]))
  }

  lemma Interchange<T(!new)>(op: (T, T) -> T, unit: T, a: T, b: T, c: T, d: T)
    requires CommutativeMonoid(op, unit)
    ensures op(op(a, b), op(c, d)) == op(op(a, c), op(b, d))
  {
    assert Laws(op, unit, a, b, op(c, d)) && Laws(op, unit, b, c, d);
    assert Laws(op, unit, c, b, d) && Laws(op, unit, a, c, op(b, d));
  }

  lemma {:induction false} TotalRows<T(!new)>(op: (T, T) -> T, unit: T, xs: seq<T>, ys: seq<T>)
    requires CommutativeMonoid(op, unit) && |xs| == |ys|
    ensures Total(op, unit, Rows(op, xs, ys)) == op(Total(op, unit, xs), Total(op, unit, ys))
  {
    if xs == [] {
      assert Laws(op, unit, unit, unit, unit);
    } else {
      var n := |xs| - 1;
      TotalRows(op, unit, xs[..n], ys[..n]);
      assert Rows(op, xs, ys)[..n] == Rows(op, xs[..n], ys[..n]);
      Interchange(op, unit, Total(op, unit, xs[..n]), Total(op, unit, ys[..n]), xs[n], ys[n]);
    }
  }

  /** The sums over all lists at each position, every list having m entries. */
  function ColumnTotals<T>(op: (T, T) -> T, unit: T, m: nat, lists: seq<seq<T>>): (sums: seq<T>)
    requires forall i :: 0 <= i < |lists| ==> |lists[i]| == m
    ensures |sums| == m
  {
    if lists == [] then seq(m, _ => unit)
    else Rows(op, ColumnTotals(op, unit, m, lists[..|lists| - 1]), lists[|lists| - 1])
  }

  lemma {:induction false} TotalOfUnits<T(!new)>(op: (T, T) -> T, unit: T, m: nat)
    requires CommutativeMonoid(op, unit)
    ensures Total(op, unit, seq(m, _ => unit)) == unit
  {
    if m > 0 {
      assert seq(m, _ => unit)[..m - 1] == seq(m - 1, _ => unit);
      TotalOfUnits(op, unit, m - 1);
      assert Laws(op, unit, unit, unit, unit);
    }
  }

  /** Summing by position and then over positions sums everything. */
  lemma {:induction false} TotalByColumns<T(!new)>(op: (T, T) -> T, unit: T, m: nat, lists: seq<seq<T>>)
    requires CommutativeMonoid(op, unit)
    requires forall i :: 0 <= i < |lists| ==> |lists[i]| == m
    ensures Total(op, unit, ColumnTotals(op, unit, m, lists)) == Total(op, unit, Flatten(lists))
  {
    if lists == [] {
      TotalOfUnits(op, unit, m);
    } else {
      var n := |lists| - 1;
      TotalByColumns(op, unit, m, lists[..n]);
      TotalRows(op, unit, ColumnTotals(op, unit, m, lists[..n]), lists[n]);
      TotalConcat(op, unit, Flatten(lists[..n]), lists[n]);
    }
  }

  function Pick<T>(lists: seq<seq<T>>, i: nat): (column: seq<T>)
    requires forall r :: 0 <= r < |lists| ==> i < |lists[r]|
    ensures |column| == |lists| && forall r :: 0 <= r < |lists| ==> column[r] == lists[r][i]
  {
    if lists == [] then [] else Pick(lists[..|lists| - 1], i) + [lists[|lists| - 1][i]]
  }

  /** Each column sum is the total of its column. */
  lemma {:induction false} ColumnTotalAt<T>(op: (T, T) -> T, unit: T, m: nat, lists: seq<seq<T>>, i: nat)
    requires (forall r :: 0 <= r < |lists| ==> |lists[r]| == m) && i < m
    ensures ColumnTotals(op, unit, m, lists)[i] == Total(op, unit, Pick(lists, i))
  {
    if lists != [] {
      var n := |lists| - 1;
      ColumnTotalAt(op, unit, m, lists[..n], i);
      TotalAppend(op, unit, Pick(lists[..n], i), lists[n][i]);
    }
  }
}
