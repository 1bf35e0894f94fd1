/** When the average of group averages is the average of everything. */
module Averages {

  /** A group: how many values it has, and their average. */
  datatype Part = Part(size: nat, mean: real)

  /** The sum of its values. */
  function Share(p: Part): real { p.size as real * p.mean }

  function Weighted(parts: seq<Part>): real {
    if parts == [] then 0.0 else Weighted(parts[..|parts| - 1]) + Share(parts[|parts| - 1])
  }

  function Plain(parts: seq<Part>): real {
    if parts == [] then 0.0 else Plain(parts[..|parts| - 1]) + parts[|parts| - 1].mean
  }

  function Size(parts: seq<Part>): nat {
    if parts == [] then 0 else Size(parts[..|parts| - 1]) + parts[|parts| - 1].size
  }

  /** Each average, weighted by how much its part is larger than the average part: for m parts of n
      values in all, the sum of (m size - n) mean. */
  function Imbalance(parts: seq<Part>, m: real, n: real): real {
    if parts == [] then 0.0
    else Imbalance(parts[..|parts| - 1], m, n) + Excess(parts[|parts| - 1], m, n)
  }

  function Excess(p: Part, m: real, n: real): real { (p.size as real * m - n) * p.mean }

  function Balance(parts: seq<Part>): real { Imbalance(parts, |parts| as real, Size(parts) as real) }

  lemma AddWeighted(m: real, n: real, weighted: real, plain: real, size: real, mean: real)
    ensures (m * weighted - n * plain) + (size * m - n) * mean == m * (weighted + size * mean) - n * (plain + mean)
  {
  }

  lemma {:induction false} ImbalanceIs(parts: seq<Part>, m: real, n: real)
    ensures Imbalance(parts, m, n) == m * Weighted(parts) - n * Plain(parts)
  {
    if parts != [] {
      var k := |parts| - 1;
      ImbalanceIs(parts[..k], m, n);
      AddWeighted(m, n, Weighted(parts[..k]), Plain(parts[..k]), parts[k].size as real, parts[k].mean);
    }
  }

  lemma DivideTimes(x: real, n: real)
    requires n != 0.0
    ensures n * (x / n) == x
  {
  }

  lemma CrossMultiply(m: real, n: real, p: real, q: real)
    ensures m * (n * q) - n * (m * p) == m * n * (q - p)
  {
  }

  lemma ZeroProductIff(x: real, y: real)
    ensures x * y == 0.0 <==> x == 0.0 || y == 0.0
  {
  }

  lemma QuotientsEqualIff(x: real, m: real, y: real, n: real)
    requires m > 0.0 && n > 0.0
    ensures x / m == y / n <==> m * y - n * x == 0.0
  {
    DivideTimes(x, m);
    DivideTimes(y, n);
    CrossMultiply(m, n, x / m, y / n);
    ZeroProductIff(m * n, y / n - x / m);
    ZeroProductIff(m, n);
  }

  lemma BalancedQuotients(plain: real, m: real, weighted: real, n: real, balance: real)
    requires m > 0.0 && n > 0.0 && balance == m * weighted - n * plain
    ensures plain / m == weighted / n <==> balance == 0.0
  {
    QuotientsEqualIff(plain, m, weighted, n);
  }

  lemma BalanceIs(parts: seq<Part>)
    ensures Balance(parts) == |parts| as real * Weighted(parts) - Size(parts) as real * Plain(parts)
  {
    ImbalanceIs(parts, |parts| as real, Size(parts) as real);
  }

  /** The average of the averages is the average of all values exactly when the parts balance. */
  lemma AveragesAgreeIff(parts: seq<Part>)
    requires parts != [] && Size(parts) > 0
    ensures Plain(parts) / |parts| as real == Weighted(parts) / Size(parts) as real <==> Balance(parts) == 0.0
  {
    hide *;
    BalanceIs(parts);
    BalancedQuotients(Plain(parts), |parts| as real, Weighted(parts), Size(parts) as real, Balance(parts));
  }

  lemma PairProduct(p: real, q: real, x: real, y: real)
    ensures (p * 2.0 - (p + q)) * x + (q * 2.0 - (p + q)) * y == (p - q) * (x - y)
  {
  }

  lemma PairImbalance(a: Part, b: Part, m: real, n: real)
    ensures Imbalance([a, b], m, n) == Excess(a, m, n) + Excess(b, m, n) && Size([a, b]) == a.size + b.size
  {
    assert [a, b][..1] == [a] && [a][..0] == [];
    assert Imbalance([a], m, n) == Imbalance([], m, n) + Excess(a, m, n) && Size([a]) == a.size;
  }

  /** Two parts balance exactly when they are equally large or have equal averages. */
  lemma PairBalancesIff(a: Part, b: Part)
    ensures Balance([a, b]) == 0.0 <==> a.size == b.size || a.mean == b.mean
  {
    var p, q := a.size as real, b.size as real;
    PairImbalance(a, b, 2.0, p + q);
    PairProduct(p, q, a.mean, b.mean);
    ZeroProductIff(p - q, a.mean - b.mean);
  }

  lemma {:induction false} EqualParts(parts: seq<Part>, size: nat, m: real, n: real)
    requires (forall i :: 0 <= i < |parts| ==> parts[i].size == size) && size as real * m == n
    ensures Imbalance(parts, m, n) == 0.0 && Size(parts) == |parts| * size
  {
    if parts != [] {
      var k := |parts| - 1;
      EqualParts(parts[..k], size, m, n);
      assert Excess(parts[k], m, n) == 0.0;
      assert k * size + size == |parts| * size;
    }
  }

  /** Equally large parts always balance. */
  lemma EqualPartsBalance(parts: seq<Part>, size: nat)
    requires forall i :: 0 <= i < |parts| ==> parts[i].size == size
    ensures Balance(parts) == 0.0 && Size(parts) == |parts| * size
  {
    EqualParts(parts, size, |parts| as real, size as real * |parts| as real);
    assert (|parts| * size) as real == size as real * |parts| as real;
  }
}
