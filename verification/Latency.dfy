/** The latency sample buffer of the native engine and the summary computed from it. */
module Latency {
  import opened Arithmetic

  const MAX_LATENCY_SAMPLES := 100_000

  // ----- The sample buffer -----

  /** The buffer after one more sample; total is the operation counter as the recording
      thread reads it, which other threads may have advanced. */
  function Sampled(samples: seq<real>, latency: real, total: nat): seq<real> {
    if |samples| < MAX_LATENCY_SAMPLES then samples + [latency]
    else
      var idx := total % MAX_LATENCY_SAMPLES;
      if idx < |samples| then samples[idx := latency] else samples
  }

  datatype Recorded = Recorded(latency: real, total: nat)

  function SampledAll(records: seq<Recorded>): seq<real> {
    if records == [] then []
    else
      var last := records[|records| - 1];
      Sampled(SampledAll(records[..|records| - 1]), last.latency, last.total)
  }

  /** However the counter moves between samples, the buffer holds the first 100000 and then
      stays full, its overwrite index is always in bounds, and it holds only recorded
      values, among them always the latest. */
  lemma {:induction false} BufferBounded(records: seq<Recorded>)
    ensures
      var buffer := SampledAll(records);
      && |buffer| == (if |records| <= 100_000 then |records| else 100_000)
      && (forall x :: x in buffer ==> exists i :: 0 <= i < |records| && records[i].latency == x)
      && (records != [] ==> records[|records| - 1].latency in buffer)
  {
    if records != [] {
      var n := |records| - 1;
      BufferBounded(records[..n]);
      var before := SampledAll(records[..n]);
      var buffer := SampledAll(records);
      var last := records[n];
      if |before| < MAX_LATENCY_SAMPLES {
        assert buffer[|before|] == last.latency;
      } else {
        assert buffer[last.total % MAX_LATENCY_SAMPLES] == last.latency;
      }
      forall x | x in buffer
        ensures exists i :: 0 <= i < |records| && records[i].latency == x
      {
        if x == last.latency {
          assert records[n].latency == x;
        } else {
          assert x in before;
          var i :| 0 <= i < n && records[..n][i].latency == x;
          assert records[i].latency == x;
        }
      }
    }
  }

  /** Sample i goes into slot k: while the buffer grows its own, afterwards the one that the
      counter it read points to. */
  predicate GoesTo(records: seq<Recorded>, i: nat, k: nat)
    requires i < |records|
  {
    if i < 100_000 then k == i else k == records[i].total % 100_000
  }

  /** Sample i is the last one that went into slot k. */
  predicate LastIn(records: seq<Recorded>, i: nat, k: nat)
    requires i < |records|
  {
    GoesTo(records, i, k) && forall j :: i < j < |records| ==> !GoesTo(records, j, k)
  }

  /** Each slot of the buffer holds the last sample that went into it. */
  lemma {:induction false} SlotsHoldLast(records: seq<Recorded>, k: nat) returns (i: nat)
    requires k < |SampledAll(records)|
    ensures i < |records| && LastIn(records, i, k) && SampledAll(records)[k] == records[i].latency
  {
    var n := |records| - 1;
    BufferBounded(records);
    BufferBounded(records[..n]);
    if GoesTo(records, n, k) {
      i := n;
    } else {
      i := SlotsHoldLast(records[..n], k);
      assert forall j :: 0 <= j < n ==> GoesTo(records, j, k) == GoesTo(records[..n], j, k);
    }
  }

  // ----- Sorting -----

  function Insert(x: real, v: seq<real>): seq<real> {
    if v == [] || x <= v[0] then [x] + v else [v[0]] + Insert(x, v[1..])
  }

  /** The stable sort of the standard library. */
  function Sorted(v: seq<real>): seq<real> {
    if v == [] then [] else Insert(v[0], Sorted(v[1..]))
  }

  predicate Ascending(v: seq<real>) { forall i, j :: 0 <= i <= j < |v| ==> v[i] <= v[j] }

  lemma {:induction false} InsertAscends(x: real, v: seq<real>)
    requires Ascending(v)
    ensures Ascending(Insert(x, v)) && |Insert(x, v)| == |v| + 1
    ensures Insert(x, v)[0] == if v == [] || x <= v[0] then x else v[0]
  {
    if v != [] && x > v[0] {
      InsertAscends(x, v[1..]);
    }
  }

  lemma {:induction false} SortedAscends(v: seq<real>)
    ensures Ascending(Sorted(v)) && |Sorted(v)| == |v|
  {
    if v != [] {
      SortedAscends(v[1..]);
      InsertAscends(v[0], Sorted(v[1..]));
    }
  }

  function CountAtMost(v: seq<real>, x: real): nat {
    if v == [] then 0 else (if v[0] <= x then 1 else 0) + CountAtMost(v[1..], x)
  }

  function CountAtLeast(v: seq<real>, x: real): nat {
    if v == [] then 0 else (if v[0] >= x then 1 else 0) + CountAtLeast(v[1..], x)
  }

  function Sum(v: seq<real>): real { if v == [] then 0.0 else v[0] + Sum(v[1..]) }

  lemma {:induction false} InsertCounts(y: real, v: seq<real>, x: real)
    ensures CountAtMost(Insert(y, v), x) == (if y <= x then 1 else 0) + CountAtMost(v, x)
    ensures CountAtLeast(Insert(y, v), x) == (if y >= x then 1 else 0) + CountAtLeast(v, x)
    ensures Sum(Insert(y, v)) == y + Sum(v)
  {
    if v == [] || y <= v[0] {
      assert ([y] + v)[1..] == v;
    } else {
      InsertCounts(y, v[1..], x);
      assert ([v[0]] + Insert(y, v[1..]))[1..] == Insert(y, v[1..]);
    }
  }

  lemma {:induction false} SortedCounts(v: seq<real>, x: real)
    ensures CountAtMost(Sorted(v), x) == CountAtMost(v, x)
    ensures CountAtLeast(Sorted(v), x) == CountAtLeast(v, x)
    ensures Sum(Sorted(v)) == Sum(v)
  {
    if v != [] {
      SortedCounts(v[1..], x);
      InsertCounts(v[0], Sorted(v[1..]), x);
    }
  }

  // ----- The summary -----

  datatype EngineLatency = EngineLatency(min: real, mean: real, p50: real, p95: real, p99: real, max: real)

  /** The position that percentile p reads: (len - 1) * p rounded half away from zero. */
  function RankOf(len: nat, p: real): nat
    requires len > 0 && 0.0 <= p <= 1.0
    ensures RankOf(len, p) < len
  {
    RankBelow(len, p);
    ((len - 1) as real * p + 0.5).Floor
  }

  lemma RankBelow(len: nat, p: real)
    requires len > 0 && 0.0 <= p <= 1.0
    ensures 0 <= ((len - 1) as real * p + 0.5).Floor < len
  {
    var top := (len - 1) as real;
    ProductNonNegative(top, 1.0 - p);
    ProductNonNegative(top, p);
    assert top * (1.0 - p) == top - top * p;
  }

  lemma RankMonotone(len: nat, p: real, q: real)
    requires len > 0 && 0.0 <= p <= q <= 1.0
    ensures RankOf(len, p) <= RankOf(len, q)
  {
    var top := (len - 1) as real;
    ProductNonNegative(top, q - p);
    assert top * q == top * p + top * (q - p);
  }

  function Estimate(iops: real): real { if iops > 0.0 then 1000000.0 / iops else 100.0 }

  lemma EstimatePositive(iops: real)
    ensures Estimate(iops) > 0.0
  {
    if iops > 0.0 {
      assert Estimate(iops) * iops == 1000000.0;
    }
  }

  function Summary(samples: seq<real>, iops: real): EngineLatency {
    if samples == [] then
      var est := Estimate(iops);
      EngineLatency(est * 0.5, est, est, est * 2.5, est * 4.0, est * 8.0)
    else
      SortedAscends(samples);
      var v := Sorted(samples);
      var n := |v|;
      EngineLatency(v[0], Sum(v) / n as real, v[RankOf(n, 0.50)], v[RankOf(n, 0.95)], v[RankOf(n, 0.99)], v[n - 1])
  }

  lemma {:induction false} SumBetween(v: seq<real>, lo: real, hi: real)
    requires forall i :: 0 <= i < |v| ==> lo <= v[i] <= hi
    ensures |v| as real * lo <= Sum(v) <= |v| as real * hi
  {
    if v != [] {
      SumBetween(v[1..], lo, hi);
      assert |v| as real == 1.0 + |v[1..]| as real;
    }
  }

  lemma MeanBetween(sum: real, n: nat, lo: real, hi: real)
    requires n > 0 && n as real * lo <= sum <= n as real * hi
    ensures lo <= sum / n as real <= hi
  {
    var mean := sum / n as real;
    assert mean * n as real == sum;
  }

  /** min <= p50 <= p95 <= p99 <= max and min <= mean <= max for every buffer, the empty
      one's estimate included. */
  lemma SummaryOrdered(samples: seq<real>, iops: real)
    ensures
      var s := Summary(samples, iops);
      s.min <= s.p50 <= s.p95 <= s.p99 <= s.max && s.min <= s.mean <= s.max
  {
    if samples == [] {
      EstimatePositive(iops);
    } else {
      SamplesOrdered(samples, iops);
    }
  }

  lemma SamplesOrdered(samples: seq<real>, iops: real)
    requires samples != []
    ensures
      var s := Summary(samples, iops);
      s.min <= s.p50 <= s.p95 <= s.p99 <= s.max && s.min <= s.mean <= s.max
  {
    SortedAscends(samples);
    PercentilesOrdered(Sorted(samples));
    MeanWithin(Sorted(samples));
  }

  lemma PercentilesOrdered(v: seq<real>)
    requires v != [] && Ascending(v)
    ensures v[0] <= v[RankOf(|v|, 0.50)] <= v[RankOf(|v|, 0.95)] <= v[RankOf(|v|, 0.99)] <= v[|v| - 1]
  {
    RankMonotone(|v|, 0.50, 0.95);
    RankMonotone(|v|, 0.95, 0.99);
  }

  lemma MeanWithin(v: seq<real>)
    requires v != [] && Ascending(v)
    ensures v[0] <= Sum(v) / |v| as real <= v[|v| - 1]
  {
    SumBetween(v, v[0], v[|v| - 1]);
    MeanBetween(Sum(v), |v|, v[0], v[|v| - 1]);
  }

  lemma {:induction false} AscendingCounts(v: seq<real>, k: nat)
    requires Ascending(v) && k < |v|
    ensures CountAtMost(v, v[k]) >= k + 1
    ensures CountAtLeast(v, v[k]) >= |v| - k
  {
    if k > 0 {
      AscendingCounts(v[1..], k - 1);
      assert v[1..][k - 1] == v[k];
    } else if |v| > 1 {
      AtLeastAll(v[1..], v[0]);
    }
  }

  lemma {:induction false} AtLeastAll(v: seq<real>, x: real)
    requires forall i :: 0 <= i < |v| ==> v[i] >= x
    ensures CountAtLeast(v, x) == |v|
  {
    if v != [] { AtLeastAll(v[1..], x); }
  }

  /** r is (n - 1) * percent / 100 rounded half up. */
  predicate IsRank(n: nat, percent: nat, r: nat)
    requires n > 0
  {
    200 * r <= 2 * (n - 1) * percent + 100 < 200 * (r + 1)
  }

  /** x is the sample with that many samples before it in ascending order. */
  predicate IsPercentile(samples: seq<real>, percent: nat, x: real)
    requires samples != []
  {
    exists r :: 0 <= r < |samples| && IsRank(|samples|, percent, r) && HasRank(samples, r, x)
  }

  predicate HasRank(samples: seq<real>, r: nat, x: real) {
    x in samples && CountAtMost(samples, x) > r && CountAtLeast(samples, x) >= |samples| - r
  }

  lemma RankIsRank(n: nat, percent: nat, p: real)
    requires n > 0 && percent <= 100 && p * 100.0 == percent as real
    ensures 0.0 <= p <= 1.0 && IsRank(n, percent, RankOf(n, p))
  {
    var r, top := RankOf(n, p), (n - 1) as real;
    assert top * p * 100.0 == ((n - 1) * percent) as real by {
      assert top * p * 100.0 == top * (p * 100.0);
      assert top * (percent as real) == ((n - 1) * percent) as real;
    }
    assert r as real <= top * p + 0.5 < r as real + 1.0;
    assert (200 * r) as real <= (2 * ((n - 1) * percent) + 100) as real < (200 * (r + 1)) as real;
    assert 2 * ((n - 1) * percent) == 2 * (n - 1) * percent;
  }

  lemma {:induction false} SortedMembers(v: seq<real>, x: real)
    ensures x in Sorted(v) ==> x in v
  {
    if v != [] {
      SortedMembers(v[1..], x);
      InsertMembers(v[0], Sorted(v[1..]), x);
    }
  }

  lemma {:induction false} InsertMembers(y: real, v: seq<real>, x: real)
    ensures x in Insert(y, v) ==> x == y || x in v
  {
    if v != [] && y > v[0] { InsertMembers(y, v[1..], x); }
  }

  lemma RanksCount(samples: seq<real>, k: nat)
    requires k < |samples|
    ensures |Sorted(samples)| == |samples| && HasRank(samples, k, Sorted(samples)[k])
  {
    SortedAscends(samples);
    var x := Sorted(samples)[k];
    AscendingCounts(Sorted(samples), k);
    SortedCounts(samples, x);
    SortedMembers(samples, x);
  }

  lemma PercentileReported(samples: seq<real>, percent: nat, p: real)
    requires samples != [] && percent <= 100 && p * 100.0 == percent as real
    ensures 0.0 <= p <= 1.0 && |Sorted(samples)| == |samples|
    ensures IsPercentile(samples, percent, Sorted(samples)[RankOf(|samples|, p)])
  {
    RankIsRank(|samples|, percent, p);
    RanksCount(samples, RankOf(|samples|, p));
    assert IsRank(|samples|, percent, RankOf(|samples|, p));
  }

  /** Each reported percentile is the recorded sample at its rounded rank, the minimum and the
      maximum are the extreme samples, and the mean is their mean. */
  lemma SummaryRanks(samples: seq<real>, iops: real)
    requires samples != []
    ensures
      var s, n := Summary(samples, iops), |samples|;
      && IsPercentile(samples, 50, s.p50) && IsPercentile(samples, 95, s.p95) && IsPercentile(samples, 99, s.p99)
      && s.min in samples && CountAtLeast(samples, s.min) == n
      && s.max in samples && CountAtMost(samples, s.max) == n
      && s.mean == Sum(samples) / n as real
  {
    hide IsPercentile, Sorted, CountAtMost, CountAtLeast, RankOf, Sum;
    var n := |samples|;
    PercentileReported(samples, 50, 0.50);
    PercentileReported(samples, 95, 0.95);
    PercentileReported(samples, 99, 0.99);
    RanksCount(samples, 0);
    RanksCount(samples, n - 1);
    CountsBounded(samples, Sorted(samples)[0]);
    CountsBounded(samples, Sorted(samples)[n - 1]);
    SortedCounts(samples, 0.0);
  }

  lemma CountsBounded(v: seq<real>, x: real)
    ensures CountAtMost(v, x) <= |v| && CountAtLeast(v, x) <= |v|
  {
  }

  /** Without samples everything is derived from the rate: the mean is the time per operation, or
      100 microseconds without a rate, and the others fixed multiples of it. */
  lemma EmptySummary(iops: real)
    ensures
      var s := Summary([], iops);
      && (if iops > 0.0 then s.mean * iops == 1000000.0 else s.mean == 100.0)
      && 2.0 * s.min == s.mean == s.p50 && 2.0 * s.p95 == 5.0 * s.mean && s.p99 == 4.0 * s.mean && s.max == 8.0 * s.mean
  {
  }
}
