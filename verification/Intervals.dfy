/** Merging the time buckets of several nodes: sums of rates, maxima of latencies. */
module Intervals {
  import opened Schema
  import opened Monoids

  // ----- The loops of aggregate.Intervals -----

  /** A merged bucket under construction, and how many averages went into it. */
  datatype Partial = Partial(sample: IntervalSample, nAvg: nat)

  function Lookup(m: map<string, real>, k: string): real { if k in m then m[k] else 0.0 }

  /** The map after "m[k] = max(m[k], v)" for every entry of vs. */
  function MaxInto(m: map<string, real>, vs: map<string, real>): (r: map<string, real>)
    ensures r.Keys == m.Keys + vs.Keys
    ensures forall k :: k in r ==> r[k] == MaxedAt(m, vs, k)
  {
    map k | k in m.Keys + vs.Keys :: MaxedAt(m, vs, k)
  }

  function MaxedAt(m: map<string, real>, vs: map<string, real>, k: string): real {
    if k in vs then Max(Lookup(m, k), vs[k]) else Lookup(m, k)
  }

  function Fresh(i: nat): Partial {
    Partial(IntervalSample(i + 1, 0, 0.0, 0.0, 0.0, 0.0, 0.0, 0.0, 0.0, 0.0, 0.0, 0.0, 0, 0, 0.0, 0.0, map[]), 0)
  }

  function MergeInto(p: Partial, i: nat, iv: IntervalSample): Partial {
    var m := p.sample;
    Partial(
      IntervalSample(
        if m.number == i + 1 && iv.number > 0 then iv.number else m.number,
        if m.timestamp == 0 then iv.timestamp else m.timestamp,
        if m.elapsedSec == 0.0 && iv.elapsedSec > 0.0 then iv.elapsedSec else m.elapsedSec,
        m.iops + iv.iops, m.readIops + iv.readIops, m.writeIops + iv.writeIops,
        m.mbps + iv.mbps, m.readMbps + iv.readMbps, m.writeMbps + iv.writeMbps,
        if iv.avgLatency > 0.0 then m.avgLatency + iv.avgLatency else m.avgLatency,
        if iv.minLatency > 0.0 && (m.minLatency == 0.0 || iv.minLatency < m.minLatency) then iv.minLatency
        else m.minLatency,
        Max(m.maxLatency, iv.maxLatency),
        m.writeTimeoutEvents + iv.writeTimeoutEvents, m.readTimeoutEvents + iv.readTimeoutEvents,
        m.writeTimeoutPerSec + iv.writeTimeoutPerSec, m.readTimeoutPerSec + iv.readTimeoutPerSec,
        MaxInto(m.percentiles, iv.percentiles)),
      if iv.avgLatency > 0.0 then p.nAvg + 1 else p.nAvg)
  }

  /** Bucket i of the nodes that have one, merged in node order. */
  function MergedAt(nodes: seq<seq<IntervalSample>>, i: nat): Partial {
    if nodes == [] then Fresh(i)
    else
      var before := MergedAt(nodes[..|nodes| - 1], i);
      var last := nodes[|nodes| - 1];
      if i < |last| then MergeInto(before, i, last[i]) else before
  }

  function Finished(p: Partial): IntervalSample {
    if p.nAvg > 0 then p.sample.(avgLatency := p.sample.avgLatency / p.nAvg as real) else p.sample
  }

  function Longest(nodes: seq<seq<IntervalSample>>): nat {
    if nodes == [] then 0
    else
      var before := Longest(nodes[..|nodes| - 1]);
      if |nodes[|nodes| - 1]| > before then |nodes[|nodes| - 1]| else before
  }

  /** The first k merged buckets. */
  function MergedUpTo(nodes: seq<seq<IntervalSample>>, k: nat): (buckets: seq<IntervalSample>)
    ensures |buckets| == k && forall i :: 0 <= i < k ==> buckets[i] == Finished(MergedAt(nodes, i))
    decreases k
  {
    if k == 0 then [] else MergedUpTo(nodes, k - 1) + [Finished(MergedAt(nodes, k - 1))]
  }

  function MergedIntervals(nodes: seq<seq<IntervalSample>>): seq<IntervalSample> {
    if |nodes| == 1 then nodes[0] else MergedUpTo(nodes, Longest(nodes))
  }

  /** MaxInto, with the labels in todo still to come. */
  predicate PartlyMerged(m: map<string, real>, vs: map<string, real>, todo: set<string>, r: map<string, real>) {
    && r.Keys == m.Keys + (vs.Keys - todo)
    && forall k :: k in r ==> r[k] == if k in todo then Lookup(m, k) else MaxedAt(m, vs, k)
  }

  lemma MergeOne(m: map<string, real>, vs: map<string, real>, todo: set<string>, r: map<string, real>, k: string)
    requires PartlyMerged(m, vs, todo, r) && todo <= vs.Keys && k in todo
    ensures PartlyMerged(m, vs, todo - {k}, r[k := Max(Lookup(r, k), vs[k])])
  {
    var r' := r[k := Max(Lookup(r, k), vs[k])];
    assert k in r <==> k in m;
    assert r'.Keys == r.Keys + {k};
    assert vs.Keys - (todo - {k}) == (vs.Keys - todo) + {k};
  }

  lemma MergedAll(m: map<string, real>, vs: map<string, real>, r: map<string, real>)
    requires PartlyMerged(m, vs, {}, r)
    ensures r == MaxInto(m, vs)
  {
    var whole := MaxInto(m, vs);
    assert vs.Keys - {} == vs.Keys && r.Keys == whole.Keys;
    forall k | k in r ensures k in whole && r[k] == whole[k] { assert k in r.Keys; }
  }

  lemma MergedNone(m: map<string, real>, vs: map<string, real>)
    ensures PartlyMerged(m, vs, vs.Keys, m)
  {
    assert m.Keys + (vs.Keys - vs.Keys) == m.Keys;
  }

  method MergePercentiles(m: map<string, real>, vs: map<string, real>) returns (r: map<string, real>)
    ensures r == MaxInto(m, vs)
  {
    hide *;
    r := m;
    var todo := vs.Keys;
    MergedNone(m, vs);
    while todo != {}
      invariant todo <= vs.Keys && PartlyMerged(m, vs, todo, r)
      decreases |todo|
    {
      var k :| k in todo;
      MergeOne(m, vs, todo, r, k);
      r := r[k := Max(Lookup(r, k), vs[k])];
      todo := todo - {k};
    }
    MergedAll(m, vs, r);
  }

  method MergeBucket(nodes: seq<seq<IntervalSample>>, i: nat) returns (merged: IntervalSample)
    ensures merged == Finished(MergedAt(nodes, i))
  {
    var p := Fresh(i);
    for n := 0 to |nodes|
      invariant p == MergedAt(nodes[..n], i)
    {
      assert nodes[..n + 1][..n] == nodes[..n];
      if i >= |nodes[n]| {
        continue;
      }
      var iv := nodes[n][i];
      var percentiles := MergePercentiles(p.sample.percentiles, iv.percentiles);
      p := MergeInto(p, i, iv.(percentiles := map[])).(
        sample := MergeInto(p, i, iv).sample.(percentiles := percentiles));
    }
    assert nodes[..|nodes|] == nodes;
    merged := p.sample;
    if p.nAvg > 0 {
      merged := merged.(avgLatency := merged.avgLatency / p.nAvg as real);
    }
  }

  method MergeIntervals(nodes: seq<seq<IntervalSample>>) returns (out: seq<IntervalSample>)
    ensures out == MergedIntervals(nodes)
  {
    if |nodes| == 1 {
      return nodes[0];
    }
    var maxBuckets := LongestLoop(nodes);
    out := [];
    for i := 0 to maxBuckets
      invariant out == MergedUpTo(nodes, i)
    {
      var merged := MergeBucket(nodes, i);
      out := out + [merged];
    }
  }

  method LongestLoop(nodes: seq<seq<IntervalSample>>) returns (maxBuckets: nat)
    ensures maxBuckets == Longest(nodes)
  {
    maxBuckets := 0;
    for n := 0 to |nodes|
      invariant maxBuckets == Longest(nodes[..n])
    {
      assert nodes[..n + 1][..n] == nodes[..n];
      if |nodes[n]| > maxBuckets {
        maxBuckets := |nodes[n]|;
      }
    }
    assert nodes[..|nodes|] == nodes;
  }

  // ----- What a bucket adds to the cluster -----

  datatype Rates = Rates(
    iops: Measure, readIops: Measure, writeIops: Measure,
    mbps: Measure, readMbps: Measure, writeMbps: Measure,
    writeTimeouts: nat, readTimeouts: nat, writeTimeoutPerSec: Measure, readTimeoutPerSec: Measure)

  datatype BucketSum = BucketSum(
    rates: Rates, minLatency: Measure, maxLatency: Measure, percentiles: map<string, Measure>)

  const NO_RATES := Rates(0.0, 0.0, 0.0, 0.0, 0.0, 0.0, 0, 0, 0.0, 0.0)

  const NO_BUCKET := BucketSum(NO_RATES, 0.0, 0.0, map[])

  function MaxOf(x: Measure, y: Measure): Measure { if x < y then y else x }

  /** The smaller positive value; zero means none. */
  function PositiveMin(x: Measure, y: Measure): Measure {
    if x == 0.0 then y else if y == 0.0 then x else if x < y then x else y
  }

  function Get(m: map<string, Measure>, k: string): Measure { if k in m then m[k] else 0.0 }

  /** Pointwise maximum, a missing label counting as zero. */
  function MaxMaps(m: map<string, Measure>, n: map<string, Measure>): (r: map<string, Measure>)
    ensures r.Keys == m.Keys + n.Keys
    ensures forall k :: k in r ==> r[k] == MaxOf(Get(m, k), Get(n, k))
  {
    map k | k in m.Keys + n.Keys :: MaxOf(Get(m, k), Get(n, k))
  }

  function PlusRates(a: Rates, b: Rates): Rates {
    Rates(
      a.iops + b.iops, a.readIops + b.readIops, a.writeIops + b.writeIops,
      a.mbps + b.mbps, a.readMbps + b.readMbps, a.writeMbps + b.writeMbps,
      a.writeTimeouts + b.writeTimeouts, a.readTimeouts + b.readTimeouts,
      a.writeTimeoutPerSec + b.writeTimeoutPerSec, a.readTimeoutPerSec + b.readTimeoutPerSec)
  }

  function PlusBucket(a: BucketSum, b: BucketSum): BucketSum {
    BucketSum(
      PlusRates(a.rates, b.rates), PositiveMin(a.minLatency, b.minLatency), MaxOf(a.maxLatency, b.maxLatency),
      MaxMaps(a.percentiles, b.percentiles))
  }

  lemma MaxMapsAt(m: map<string, Measure>, n: map<string, Measure>, k: string)
    ensures Get(MaxMaps(m, n), k) == MaxOf(Get(m, k), Get(n, k))
  {
  }

  lemma SameMaps(m: map<string, Measure>, n: map<string, Measure>)
    requires m.Keys == n.Keys && forall k :: k in m ==> Get(m, k) == Get(n, k)
    ensures m == n
  {
    forall k | k in m ensures k in n && m[k] == n[k] {
      assert Get(m, k) == Get(n, k);
      assert k in n.Keys;
    }
  }

  lemma MaxMapsUnit(x: map<string, Measure>)
    ensures MaxMaps(x, map[]) == x
  {
    var l := MaxMaps(x, map[]);
    assert l.Keys == x.Keys;
    forall k | k in l ensures Get(l, k) == Get(x, k) { MaxMapsAt(x, map[], k); }
    SameMaps(l, x);
  }

  lemma MaxMapsCommute(x: map<string, Measure>, y: map<string, Measure>)
    ensures MaxMaps(x, y) == MaxMaps(y, x)
  {
    var l, r := MaxMaps(x, y), MaxMaps(y, x);
    assert l.Keys == r.Keys;
    forall k | k in l ensures Get(l, k) == Get(r, k) {
      MaxMapsAt(x, y, k);
      MaxMapsAt(y, x, k);
    }
    SameMaps(l, r);
  }

  lemma MaxMapsAssociate(x: map<string, Measure>, y: map<string, Measure>, z: map<string, Measure>)
    ensures MaxMaps(MaxMaps(x, y), z) == MaxMaps(x, MaxMaps(y, z))
  {
    var xy, yz := MaxMaps(x, y), MaxMaps(y, z);
    var l, r := MaxMaps(xy, z), MaxMaps(x, yz);
    assert l.Keys == r.Keys;
    forall k | k in l ensures Get(l, k) == Get(r, k) {
      MaxMapsAt(xy, z, k);
      MaxMapsAt(x, yz, k);
      MaxMapsAt(x, y, k);
      MaxMapsAt(y, z, k);
    }
    SameMaps(l, r);
  }

  lemma PlusUnit(x: BucketSum)
    ensures PlusBucket(x, NO_BUCKET) == x
  {
    MaxMapsUnit(x.percentiles);
  }

  lemma PlusCommutes(x: BucketSum, y: BucketSum)
    ensures PlusBucket(x, y) == PlusBucket(y, x)
  {
    MaxMapsCommute(x.percentiles, y.percentiles);
  }

  lemma RatesAssociate(x: Rates, y: Rates, z: Rates)
    ensures PlusRates(PlusRates(x, y), z) == PlusRates(x, PlusRates(y, z))
  {
  }

  lemma PlusAssociates(x: BucketSum, y: BucketSum, z: BucketSum)
    ensures PlusBucket(PlusBucket(x, y), z) == PlusBucket(x, PlusBucket(y, z))
  {
    RatesAssociate(x.rates, y.rates, z.rates);
    MaxMapsAssociate(x.percentiles, y.percentiles, z.percentiles);
    PositiveMinAssociates(x.minLatency, y.minLatency, z.minLatency);
  }

  lemma PositiveMinAssociates(x: Measure, y: Measure, z: Measure)
    ensures PositiveMin(PositiveMin(x, y), z) == PositiveMin(x, PositiveMin(y, z))
  {
  }

  lemma BucketMonoid()
    ensures CommutativeMonoid(PlusBucket, NO_BUCKET)
  {
    forall x, y, z ensures Laws(PlusBucket, NO_BUCKET, x, y, z) {
      PlusUnit(x);
      PlusCommutes(x, y);
      PlusAssociates(x, y, z);
    }
  }

  predicate RatesMeasured(iv: IntervalSample) {
    && iv.iops >= 0.0 && iv.readIops >= 0.0 && iv.writeIops >= 0.0
    && iv.mbps >= 0.0 && iv.readMbps >= 0.0 && iv.writeMbps >= 0.0
    && iv.writeTimeoutEvents >= 0 && iv.readTimeoutEvents >= 0
    && iv.writeTimeoutPerSec >= 0.0 && iv.readTimeoutPerSec >= 0.0
  }

  predicate PercentilesMeasured(m: map<string, real>) { forall k :: k in m ==> m[k] >= 0.0 }

  predicate Measured(iv: IntervalSample) {
    RatesMeasured(iv) && iv.minLatency >= 0.0 && iv.maxLatency >= 0.0 && PercentilesMeasured(iv.percentiles)
  }

  function RatesOf(iv: IntervalSample): Rates
    requires RatesMeasured(iv)
  {
    Rates(iv.iops, iv.readIops, iv.writeIops, iv.mbps, iv.readMbps, iv.writeMbps,
          iv.writeTimeoutEvents, iv.readTimeoutEvents, iv.writeTimeoutPerSec, iv.readTimeoutPerSec)
  }

  function PercentilesOf(m: map<string, real>): (r: map<string, Measure>)
    requires PercentilesMeasured(m)
    ensures r.Keys == m.Keys && forall k :: k in r ==> r[k] == m[k]
  {
    map k | k in m :: m[k]
  }

  function SumOf(iv: IntervalSample): BucketSum
    requires Measured(iv)
  {
    BucketSum(RatesOf(iv), iv.minLatency, iv.maxLatency, PercentilesOf(iv.percentiles))
  }

  predicate NodeMeasured(node: seq<IntervalSample>) { forall j :: 0 <= j < |node| ==> Measured(node[j]) }

  predicate AllMeasured(nodes: seq<seq<IntervalSample>>) {
    forall n :: 0 <= n < |nodes| ==> NodeMeasured(nodes[n])
  }

  /** Bucket i of a node; a node that stopped earlier adds nothing. */
  function SumAt(node: seq<IntervalSample>, i: nat): BucketSum
    requires NodeMeasured(node)
  {
    if i < |node| then SumOf(node[i]) else NO_BUCKET
  }

  function Column(nodes: seq<seq<IntervalSample>>, i: nat): (sums: seq<BucketSum>)
    requires AllMeasured(nodes)
    ensures |sums| == |nodes| && forall n :: 0 <= n < |nodes| ==> sums[n] == SumAt(nodes[n], i)
  {
    seq(|nodes|, n requires 0 <= n < |nodes| && AllMeasured(nodes) => SumAt(nodes[n], i))
  }

  lemma MergeRates(p: Partial, i: nat, iv: IntervalSample)
    requires RatesMeasured(p.sample) && RatesMeasured(iv)
    ensures RatesMeasured(MergeInto(p, i, iv).sample)
    ensures RatesOf(MergeInto(p, i, iv).sample) == PlusRates(RatesOf(p.sample), RatesOf(iv))
  {
  }

  lemma MergedPercentiles(m: map<string, real>, vs: map<string, real>)
    requires PercentilesMeasured(m) && PercentilesMeasured(vs)
    ensures PercentilesMeasured(MaxInto(m, vs))
    ensures PercentilesOf(MaxInto(m, vs)) == MaxMaps(PercentilesOf(m), PercentilesOf(vs))
  {
    forall k | k in MaxInto(m, vs)
      ensures MaxInto(m, vs)[k] == MaxOf(Get(PercentilesOf(m), k), Get(PercentilesOf(vs), k))
    {
      assert MaxInto(m, vs)[k] == MaxedAt(m, vs, k);
    }
    assert PercentilesMeasured(MaxInto(m, vs));
    var l, r := PercentilesOf(MaxInto(m, vs)), MaxMaps(PercentilesOf(m), PercentilesOf(vs));
    assert l.Keys == r.Keys;
    forall k | k in l ensures Get(l, k) == Get(r, k) { assert k in r.Keys; }
    SameMaps(l, r);
  }

  lemma MergeIntoSums(p: Partial, i: nat, iv: IntervalSample)
    requires Measured(p.sample) && Measured(iv)
    ensures Measured(MergeInto(p, i, iv).sample)
    ensures SumOf(MergeInto(p, i, iv).sample) == PlusBucket(SumOf(p.sample), SumOf(iv))
  {
    MergeRates(p, i, iv);
    MergedPercentiles(p.sample.percentiles, iv.percentiles);
  }

  lemma {:induction false} MergedAtSums(nodes: seq<seq<IntervalSample>>, i: nat)
    requires AllMeasured(nodes)
    ensures Measured(MergedAt(nodes, i).sample)
    ensures SumOf(MergedAt(nodes, i).sample) == Total(PlusBucket, NO_BUCKET, Column(nodes, i))
  {
    if nodes == [] {
      assert SumOf(Fresh(i).sample) == NO_BUCKET;
    } else {
      var n := |nodes| - 1;
      MergedAtSums(nodes[..n], i);
      assert Column(nodes, i)[..n] == Column(nodes[..n], i);
      if i < |nodes[n]| {
        MergeIntoSums(MergedAt(nodes[..n], i), i, nodes[n][i]);
      } else {
        BucketMonoid();
        assert Laws(PlusBucket, NO_BUCKET, Total(PlusBucket, NO_BUCKET, Column(nodes[..n], i)), NO_BUCKET, NO_BUCKET);
      }
    }
  }

  // ----- Theorems -----

  lemma {:induction false} LongestIsMax(nodes: seq<seq<IntervalSample>>)
    ensures forall n :: 0 <= n < |nodes| ==> |nodes[n]| <= Longest(nodes)
    ensures Longest(nodes) > 0 ==> exists n :: 0 <= n < |nodes| && |nodes[n]| == Longest(nodes)
  {
    if nodes != [] {
      var n := |nodes| - 1;
      LongestIsMax(nodes[..n]);
      if Longest(nodes) > |nodes[n]| {
        var k :| 0 <= k < n && |nodes[..n][k]| == Longest(nodes[..n]);
        assert |nodes[k]| == Longest(nodes);
      } else {
        assert |nodes[n]| == Longest(nodes);
      }
    }
  }

  lemma MergedLength(nodes: seq<seq<IntervalSample>>)
    ensures |MergedIntervals(nodes)| == Longest(nodes)
  {
    if |nodes| == 1 { assert nodes[..0] == []; }
  }

  lemma MergedBucketMeasured(nodes: seq<seq<IntervalSample>>, j: nat)
    requires AllMeasured(nodes) && j < |MergedIntervals(nodes)|
    ensures Measured(MergedIntervals(nodes)[j])
  {
    if |nodes| == 1 {
      assert NodeMeasured(nodes[0]);
    } else {
      MergedAtSums(nodes, j);
      FinishedSums(MergedAt(nodes, j));
    }
  }

  lemma MergedStaysMeasured(nodes: seq<seq<IntervalSample>>)
    requires AllMeasured(nodes)
    ensures NodeMeasured(MergedIntervals(nodes))
  {
    hide MergedIntervals, Measured, AllMeasured;
    forall j | 0 <= j < |MergedIntervals(nodes)| ensures Measured(MergedIntervals(nodes)[j]) {
      MergedBucketMeasured(nodes, j);
    }
  }

  lemma NothingAfterLongest(nodes: seq<seq<IntervalSample>>, i: nat)
    requires AllMeasured(nodes) && i >= Longest(nodes)
    ensures Total(PlusBucket, NO_BUCKET, Column(nodes, i)) == NO_BUCKET
  {
    LongestIsMax(nodes);
    assert Column(nodes, i) == seq(|nodes|, _ => NO_BUCKET);
    BucketMonoid();
    TotalOfUnits(PlusBucket, NO_BUCKET, |nodes|);
  }

  lemma FinishedSums(p: Partial)
    requires Measured(p.sample)
    ensures Measured(Finished(p)) && SumOf(Finished(p)) == SumOf(p.sample)
  {
  }

  lemma ManyNodesTotals(nodes: seq<seq<IntervalSample>>, i: nat)
    requires AllMeasured(nodes) && |nodes| != 1 && i < Longest(nodes)
    ensures i < |MergedIntervals(nodes)| && Measured(MergedIntervals(nodes)[i])
    ensures SumOf(MergedIntervals(nodes)[i]) == Total(PlusBucket, NO_BUCKET, Column(nodes, i))
  {
    MergedAtSums(nodes, i);
    FinishedSums(MergedAt(nodes, i));
    assert MergedIntervals(nodes)[i] == Finished(MergedAt(nodes, i));
  }

  lemma TotalOfOne<T(!new)>(op: (T, T) -> T, unit: T, xs: seq<T>)
    requires CommutativeMonoid(op, unit) && |xs| == 1
    ensures Total(op, unit, xs) == xs[0]
  {
    assert xs[..0] == [];
    assert Laws(op, unit, xs[0], unit, unit);
  }

  lemma OneColumn(nodes: seq<seq<IntervalSample>>, i: nat)
    requires AllMeasured(nodes) && |nodes| == 1
    ensures SumAt(nodes[0], i) == Total(PlusBucket, NO_BUCKET, Column(nodes, i))
  {
    BucketMonoid();
    TotalOfOne(PlusBucket, NO_BUCKET, Column(nodes, i));
  }

  /** Merged bucket i holds, field by field, the total of bucket i over all nodes: sums of
      rates and timeouts, pointwise maxima of percentiles, extreme latencies. */
  lemma MergedBucketTotals(nodes: seq<seq<IntervalSample>>, i: nat)
    requires AllMeasured(nodes)
    ensures NodeMeasured(MergedIntervals(nodes))
    ensures SumAt(MergedIntervals(nodes), i) == Total(PlusBucket, NO_BUCKET, Column(nodes, i))
  {
    MergedStaysMeasured(nodes);
    MergedLength(nodes);
    if |nodes| == 1 {
      OneColumn(nodes, i);
    } else if i >= Longest(nodes) {
      NothingAfterLongest(nodes, i);
    } else {
      ManyNodesTotals(nodes, i);
    }
  }

  function Sums(node: seq<IntervalSample>): (sums: seq<BucketSum>)
    requires NodeMeasured(node)
    ensures |sums| == |node| && forall j :: 0 <= j < |node| ==> sums[j] == SumOf(node[j])
  {
    seq(|node|, j requires 0 <= j < |node| && NodeMeasured(node) => SumOf(node[j]))
  }

  /** Every bucket of every node, node after node. */
  function AllSums(nodes: seq<seq<IntervalSample>>): seq<BucketSum>
    requires AllMeasured(nodes)
  {
    if nodes == [] then [] else AllSums(nodes[..|nodes| - 1]) + Sums(nodes[|nodes| - 1])
  }

  function Padded(node: seq<IntervalSample>, m: nat): (sums: seq<BucketSum>)
    requires NodeMeasured(node)
    ensures |sums| == m && forall j :: 0 <= j < m ==> sums[j] == SumAt(node, j)
  {
    seq(m, j requires 0 <= j && NodeMeasured(node) => SumAt(node, j))
  }

  function PaddedAll(nodes: seq<seq<IntervalSample>>, m: nat): (lists: seq<seq<BucketSum>>)
    requires AllMeasured(nodes)
    ensures |lists| == |nodes| && forall n :: 0 <= n < |nodes| ==> lists[n] == Padded(nodes[n], m)
    ensures forall n :: 0 <= n < |nodes| ==> |lists[n]| == m
  {
    if nodes == [] then [] else PaddedAll(nodes[..|nodes| - 1], m) + [Padded(nodes[|nodes| - 1], m)]
  }

  lemma PaddingAddsNothing(node: seq<IntervalSample>, m: nat)
    requires NodeMeasured(node) && |node| <= m
    ensures Total(PlusBucket, NO_BUCKET, Padded(node, m)) == Total(PlusBucket, NO_BUCKET, Sums(node))
  {
    BucketMonoid();
    var rest := seq(m - |node|, _ => NO_BUCKET);
    assert Padded(node, m) == Sums(node) + rest;
    TotalConcat(PlusBucket, NO_BUCKET, Sums(node), rest);
    TotalOfUnits(PlusBucket, NO_BUCKET, m - |node|);
    PlusUnit(Total(PlusBucket, NO_BUCKET, Sums(node)));
  }

  lemma {:induction false} PaddedTotals(nodes: seq<seq<IntervalSample>>, m: nat)
    requires AllMeasured(nodes) && forall n :: 0 <= n < |nodes| ==> |nodes[n]| <= m
    ensures Total(PlusBucket, NO_BUCKET, Flatten(PaddedAll(nodes, m))) == Total(PlusBucket, NO_BUCKET, AllSums(nodes))
  {
    if nodes != [] {
      var n := |nodes| - 1;
      BucketMonoid();
      PaddedTotals(nodes[..n], m);
      PaddingAddsNothing(nodes[n], m);
      assert PaddedAll(nodes, m)[..n] == PaddedAll(nodes[..n], m);
      TotalConcat(PlusBucket, NO_BUCKET, Flatten(PaddedAll(nodes[..n], m)), Padded(nodes[n], m));
      TotalConcat(PlusBucket, NO_BUCKET, AllSums(nodes[..n]), Sums(nodes[n]));
    }
  }

  lemma ColumnOfPadded(nodes: seq<seq<IntervalSample>>, m: nat, i: nat)
    requires AllMeasured(nodes) && i < m
    ensures Column(nodes, i) == Pick(PaddedAll(nodes, m), i)
  {
    var lists := PaddedAll(nodes, m);
    forall r | 0 <= r < |nodes| ensures Column(nodes, i)[r] == lists[r][i] {
      assert lists[r] == Padded(nodes[r], m);
    }
  }

  lemma MergedIsColumnTotals(nodes: seq<seq<IntervalSample>>)
    requires AllMeasured(nodes)
    ensures
      var merged, m := MergedIntervals(nodes), Longest(nodes);
      && |merged| == m
      && NodeMeasured(merged)
      && Sums(merged) == ColumnTotals(PlusBucket, NO_BUCKET, m, PaddedAll(nodes, m))
  {
    var merged, m := MergedIntervals(nodes), Longest(nodes);
    MergedLength(nodes);
    MergedBucketTotals(nodes, 0);
    var columns := ColumnTotals(PlusBucket, NO_BUCKET, m, PaddedAll(nodes, m));
    forall i | 0 <= i < m ensures Sums(merged)[i] == columns[i] {
      MergedColumnAt(nodes, i);
    }
  }

  lemma MergedColumnAt(nodes: seq<seq<IntervalSample>>, i: nat)
    requires AllMeasured(nodes) && i < Longest(nodes)
    ensures NodeMeasured(MergedIntervals(nodes))
    ensures SumAt(MergedIntervals(nodes), i) ==
      ColumnTotals(PlusBucket, NO_BUCKET, Longest(nodes), PaddedAll(nodes, Longest(nodes)))[i]
  {
    MergedBucketTotals(nodes, i);
    ColumnTotalAt(PlusBucket, NO_BUCKET, Longest(nodes), PaddedAll(nodes, Longest(nodes)), i);
    ColumnOfPadded(nodes, Longest(nodes), i);
  }

  /** Conservation: the total over the merged buckets is the total over all nodes and all
      their buckets, and there are as many buckets as the longest node has. */
  lemma MergeConserves(nodes: seq<seq<IntervalSample>>)
    requires AllMeasured(nodes)
    ensures
      var merged := MergedIntervals(nodes);
      && |merged| == Longest(nodes)
      && NodeMeasured(merged)
      && Total(PlusBucket, NO_BUCKET, Sums(merged)) == Total(PlusBucket, NO_BUCKET, AllSums(nodes))
  {
    var m := Longest(nodes);
    MergedIsColumnTotals(nodes);
    BucketMonoid();
    TotalByColumns(PlusBucket, NO_BUCKET, m, PaddedAll(nodes, m));
    LongestIsMax(nodes);
    PaddedTotals(nodes, m);
  }

  /** The merged intervals of each group. */
  function MergedGroups(groups: seq<seq<seq<IntervalSample>>>): (merged: seq<seq<IntervalSample>>)
    ensures |merged| == |groups| && forall g :: 0 <= g < |groups| ==> merged[g] == MergedIntervals(groups[g])
  {
    if groups == [] then [] else MergedGroups(groups[..|groups| - 1]) + [MergedIntervals(groups[|groups| - 1])]
  }

  ghost predicate GroupsMeasured(groups: seq<seq<seq<IntervalSample>>>) {
    forall g :: 0 <= g < |groups| ==> AllMeasured(groups[g])
  }

  lemma {:induction false} GroupsStayMeasured(groups: seq<seq<seq<IntervalSample>>>)
    requires GroupsMeasured(groups)
    ensures AllMeasured(Flatten(groups)) && AllMeasured(MergedGroups(groups))
    ensures Longest(MergedGroups(groups)) == Longest(Flatten(groups))
  {
    if groups != [] {
      var n := |groups| - 1;
      GroupsStayMeasured(groups[..n]);
      MergedBucketTotals(groups[n], 0);
      MergedLength(groups[n]);
      assert MergedGroups(groups)[..n] == MergedGroups(groups[..n]);
      LongestConcat(Flatten(groups[..n]), groups[n]);
    }
  }

  lemma ColumnConcat(a: seq<seq<IntervalSample>>, b: seq<seq<IntervalSample>>, i: nat)
    requires AllMeasured(a) && AllMeasured(b) && AllMeasured(a + b)
    ensures Total(PlusBucket, NO_BUCKET, Column(a + b, i)) ==
      PlusBucket(Total(PlusBucket, NO_BUCKET, Column(a, i)), Total(PlusBucket, NO_BUCKET, Column(b, i)))
  {
    assert Column(a + b, i) == Column(a, i) + Column(b, i);
    BucketMonoid();
    TotalConcat(PlusBucket, NO_BUCKET, Column(a, i), Column(b, i));
  }

  lemma ColumnAppend(a: seq<seq<IntervalSample>>, node: seq<IntervalSample>, i: nat)
    requires AllMeasured(a) && AllMeasured(a + [node]) && NodeMeasured(node)
    ensures Total(PlusBucket, NO_BUCKET, Column(a + [node], i)) ==
      PlusBucket(Total(PlusBucket, NO_BUCKET, Column(a, i)), SumAt(node, i))
  {
    assert Column(a + [node], i) == Column(a, i) + [SumAt(node, i)];
    TotalAppend(PlusBucket, NO_BUCKET, Column(a, i), SumAt(node, i));
  }

  lemma {:induction false} GroupColumns(groups: seq<seq<seq<IntervalSample>>>, i: nat)
    requires GroupsMeasured(groups) && AllMeasured(Flatten(groups)) && AllMeasured(MergedGroups(groups))
    ensures Total(PlusBucket, NO_BUCKET, Column(MergedGroups(groups), i)) ==
      Total(PlusBucket, NO_BUCKET, Column(Flatten(groups), i))
  {
    if groups != [] {
      var n := |groups| - 1;
      GroupsStayMeasured(groups[..n]);
      GroupColumns(groups[..n], i);
      MergedBucketTotals(groups[n], i);
      ColumnAppend(MergedGroups(groups[..n]), MergedIntervals(groups[n]), i);
      ColumnConcat(Flatten(groups[..n]), groups[n], i);
    }
  }

  lemma {:induction false} LongestConcat(a: seq<seq<IntervalSample>>, b: seq<seq<IntervalSample>>)
    ensures Longest(a + b) == if Longest(a) < Longest(b) then Longest(b) else Longest(a)
  {
    if b == [] {
      assert a + b == a;
    } else {
      var n := |b| - 1;
      LongestConcat(a, b[..n]);
      assert (a + b)[..|a| + n] == a + b[..n];
    }
  }

  /** Merging in groups and then together gives the same buckets as merging at once. */
  lemma MergeGrouped(groups: seq<seq<seq<IntervalSample>>>, i: nat)
    requires GroupsMeasured(groups)
    ensures
      var outer, flat := MergedIntervals(MergedGroups(groups)), MergedIntervals(Flatten(groups));
      && |outer| == |flat|
      && NodeMeasured(outer) && NodeMeasured(flat)
      && (i < |outer| ==> SumOf(outer[i]) == SumOf(flat[i]))
  {
    GroupsStayMeasured(groups);
    GroupColumns(groups, i);
    MergedLength(MergedGroups(groups));
    MergedLength(Flatten(groups));
    MergedBucketTotals(MergedGroups(groups), i);
    MergedBucketTotals(Flatten(groups), i);
  }

  // ----- The order of the nodes -----

  /** What a node adds to bucket i, and nothing if it was not measured well. */
  function AddsAt(i: nat): seq<IntervalSample> -> BucketSum {
    (node: seq<IntervalSample>) => if NodeMeasured(node) then SumAt(node, i) else NO_BUCKET
  }

  lemma PermutedMeasured(a: seq<seq<IntervalSample>>, b: seq<seq<IntervalSample>>)
    requires AllMeasured(a) && multiset(a) == multiset(b)
    ensures AllMeasured(b) && Longest(b) <= Longest(a)
  {
    LongestIsMax(a);
    LongestIsMax(b);
    forall n | 0 <= n < |b| ensures NodeMeasured(b[n]) && |b[n]| <= Longest(a) {
      assert b[n] in multiset(a);
      var m :| 0 <= m < |a| && a[m] == b[n];
    }
  }

  lemma ColumnPermuted(a: seq<seq<IntervalSample>>, b: seq<seq<IntervalSample>>, i: nat)
    requires AllMeasured(a) && AllMeasured(b) && multiset(a) == multiset(b)
    ensures Total(PlusBucket, NO_BUCKET, Column(a, i)) == Total(PlusBucket, NO_BUCKET, Column(b, i))
  {
    assert Column(a, i) == Mapped(AddsAt(i), a) && Column(b, i) == Mapped(AddsAt(i), b);
    MappedPermuted(AddsAt(i), a, b);
    BucketMonoid();
    TotalPermuted(PlusBucket, NO_BUCKET, Column(a, i), Column(b, i));
  }

  /** Merging the same nodes in another order gives the same buckets. */
  lemma MergePermuted(a: seq<seq<IntervalSample>>, b: seq<seq<IntervalSample>>, i: nat)
    requires AllMeasured(a) && AllMeasured(b) && multiset(a) == multiset(b)
    ensures
      var x, y := MergedIntervals(a), MergedIntervals(b);
      && |x| == |y| && NodeMeasured(x) && NodeMeasured(y)
      && (i < |x| ==> SumOf(x[i]) == SumOf(y[i]))
  {
    PermutedMeasured(a, b);
    PermutedMeasured(b, a);
    MergedLength(a);
    MergedLength(b);
    MergedBucketTotals(a, i);
    MergedBucketTotals(b, i);
    ColumnPermuted(a, b, i);
  }
}
