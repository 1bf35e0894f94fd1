/** What every field of a merged time bucket says about the buckets it was merged from. */
module MergedBuckets {
  import opened Schema
  import opened Intervals
  import opened Extremes

  /** Bucket i of each node that has one, in node order. */
  function BucketsAt(nodes: seq<seq<IntervalSample>>, i: nat): seq<IntervalSample> {
    if nodes == [] then []
    else
      var last := nodes[|nodes| - 1];
      BucketsAt(nodes[..|nodes| - 1], i) + if i < |last| then [last[i]] else []
  }

  lemma LastBucket(nodes: seq<seq<IntervalSample>>, i: nat)
    requires nodes != []
    ensures
      var n := |nodes| - 1;
      var before, p := BucketsAt(nodes[..n], i), MergedAt(nodes[..n], i);
      if i < |nodes[n]|
      then BucketsAt(nodes, i) == before + [nodes[n][i]] && MergedAt(nodes, i) == MergeInto(p, i, nodes[n][i])
      else BucketsAt(nodes, i) == before && MergedAt(nodes, i) == p
  {
    hide MergeInto;
    assert BucketsAt(nodes[..|nodes| - 1], i) + [] == BucketsAt(nodes[..|nodes| - 1], i);
  }

  // ----- Sums -----

  datatype Rate =
    | Iops | ReadIops | WriteIops | Mbps | ReadMbps | WriteMbps
    | WriteTimeouts | ReadTimeouts | WriteTimeoutRate | ReadTimeoutRate

  function RateIn(rate: Rate): IntervalSample -> real {
    match rate
    case Iops => (iv: IntervalSample) => iv.iops
    case ReadIops => (iv: IntervalSample) => iv.readIops
    case WriteIops => (iv: IntervalSample) => iv.writeIops
    case Mbps => (iv: IntervalSample) => iv.mbps
    case ReadMbps => (iv: IntervalSample) => iv.readMbps
    case WriteMbps => (iv: IntervalSample) => iv.writeMbps
    case WriteTimeouts => (iv: IntervalSample) => iv.writeTimeoutEvents as real
    case ReadTimeouts => (iv: IntervalSample) => iv.readTimeoutEvents as real
    case WriteTimeoutRate => (iv: IntervalSample) => iv.writeTimeoutPerSec
    case ReadTimeoutRate => (iv: IntervalSample) => iv.readTimeoutPerSec
  }

  lemma MergeAddsRate(p: Partial, i: nat, iv: IntervalSample, rate: Rate)
    ensures RateIn(rate)(MergeInto(p, i, iv).sample) == RateIn(rate)(p.sample) + RateIn(rate)(iv)
  {
  }

  lemma {:induction false} RatesAddUp(nodes: seq<seq<IntervalSample>>, i: nat, rate: Rate)
    ensures RateIn(rate)(MergedAt(nodes, i).sample) == SumBy(RateIn(rate), BucketsAt(nodes, i))
  {
    hide MergeInto;
    if nodes != [] {
      var n := |nodes| - 1;
      LastBucket(nodes, i);
      RatesAddUp(nodes[..n], i, rate);
      if i < |nodes[n]| {
        MergeAddsRate(MergedAt(nodes[..n], i), i, nodes[n][i], rate);
        SumAppend(RateIn(rate), BucketsAt(nodes[..n], i), nodes[n][i]);
      }
    }
  }

  // ----- Latencies -----

  const MAX_LATENCY := (iv: IntervalSample) => iv.maxLatency
  const MIN_LATENCY := (iv: IntervalSample) => iv.minLatency

  /** A percentile, zero where the name is missing. */
  function PercentileIn(name: string): IntervalSample -> real {
    (iv: IntervalSample) => if name in iv.percentiles then iv.percentiles[name] else 0.0
  }

  predicate SomeLabelled(xs: seq<IntervalSample>, name: string) {
    exists j :: 0 <= j < |xs| && name in xs[j].percentiles
  }

  lemma MergeTakesLargest(p: Partial, i: nat, iv: IntervalSample, name: string)
    ensures
      var m, before := MergeInto(p, i, iv).sample, p.sample;
      && m.maxLatency == (if before.maxLatency < iv.maxLatency then iv.maxLatency else before.maxLatency)
      && (name in m.percentiles <==> name in before.percentiles || name in iv.percentiles)
      && (name in iv.percentiles ==>
            var x, y := PercentileIn(name)(before), PercentileIn(name)(iv);
            PercentileIn(name)(m) == if x < y then y else x)
      && (name !in iv.percentiles ==> PercentileIn(name)(m) == PercentileIn(name)(before))
  {
  }

  /** The largest latency, and under each label the largest of the given percentiles. */
  lemma {:induction false} LatenciesAreLargest(nodes: seq<seq<IntervalSample>>, i: nat, name: string)
    ensures
      var m, xs := MergedAt(nodes, i).sample, BucketsAt(nodes, i);
      && IsLargest(MAX_LATENCY, xs, m.maxLatency)
      && (name in m.percentiles <==> SomeLabelled(xs, name))
      && (PercentilesGiven(xs) ==> IsLargest(PercentileIn(name), xs, PercentileIn(name)(m)))
  {
    hide MergeInto, IsLargest;
    if nodes == [] {
      NothingIsLargest(MAX_LATENCY);
      NothingIsLargest(PercentileIn(name));
    } else {
      var n := |nodes| - 1;
      var p, xs := MergedAt(nodes[..n], i), BucketsAt(nodes[..n], i);
      LastBucket(nodes, i);
      LatenciesAreLargest(nodes[..n], i, name);
      if i < |nodes[n]| {
        var iv := nodes[n][i];
        MergeTakesLargest(p, i, iv, name);
        LargestAppend(MAX_LATENCY, xs, p.sample.maxLatency, iv);
        LabelledAppend(xs, iv, name);
        if PercentilesGiven(xs + [iv]) {
          GivenAppend(xs, iv);
          LargestAppend(PercentileIn(name), xs, PercentileIn(name)(p.sample), iv);
          PercentileNonNegative(xs, name, PercentileIn(name)(p.sample));
        }
      }
    }
  }

  lemma NothingIsLargest<T>(f: T -> real)
    ensures IsLargest(f, [], 0.0)
  {
  }

  /** No percentile is negative. */
  predicate PercentilesGiven(xs: seq<IntervalSample>) {
    forall j :: 0 <= j < |xs| ==> forall k :: k in xs[j].percentiles ==> xs[j].percentiles[k] >= 0.0
  }

  lemma GivenAppend(xs: seq<IntervalSample>, iv: IntervalSample)
    requires PercentilesGiven(xs + [iv])
    ensures PercentilesGiven(xs) && forall k :: k in iv.percentiles ==> iv.percentiles[k] >= 0.0
  {
    assert (xs + [iv])[|xs|] == iv;
    forall j | 0 <= j < |xs| ensures forall k :: k in xs[j].percentiles ==> xs[j].percentiles[k] >= 0.0 {
      assert (xs + [iv])[j] == xs[j];
    }
  }

  lemma PercentileNonNegative(xs: seq<IntervalSample>, name: string, x: real)
    requires PercentilesGiven(xs) && IsLargest(PercentileIn(name), xs, x)
    ensures x >= 0.0
  {
  }

  lemma LabelledAppend(xs: seq<IntervalSample>, iv: IntervalSample, name: string)
    ensures SomeLabelled(xs + [iv], name) <==> SomeLabelled(xs, name) || name in iv.percentiles
  {
    var ys := xs + [iv];
    assert ys[|xs|] == iv;
    if SomeLabelled(xs, name) {
      var j :| 0 <= j < |xs| && name in xs[j].percentiles;
      assert name in ys[j].percentiles;
    }
  }

  /** The smallest positive latency, if no latency is negative. */
  lemma {:induction false} LatencyIsSmallest(nodes: seq<seq<IntervalSample>>, i: nat)
    requires forall j :: 0 <= j < |BucketsAt(nodes, i)| ==> BucketsAt(nodes, i)[j].minLatency >= 0.0
    ensures IsSmallestPositive(MIN_LATENCY, BucketsAt(nodes, i), MergedAt(nodes, i).sample.minLatency)
  {
    if nodes != [] {
      var n := |nodes| - 1;
      var p, xs := MergedAt(nodes[..n], i), BucketsAt(nodes[..n], i);
      assert forall j :: 0 <= j < |xs| ==> xs[j] == BucketsAt(nodes, i)[j];
      LastBucket(nodes, i);
      LatencyIsSmallest(nodes[..n], i);
      if i < |nodes[n]| {
        assert BucketsAt(nodes, i)[|xs|] == nodes[n][i];
        SmallestAppend(MIN_LATENCY, xs, p.sample.minLatency, nodes[n][i]);
      }
    }
  }

  // ----- The average -----

  const POSITIVE_AVERAGE := (iv: IntervalSample) => if iv.avgLatency > 0.0 then iv.avgLatency else 0.0
  const HAS_AVERAGE := (iv: IntervalSample) => if iv.avgLatency > 0.0 then 1.0 else 0.0

  lemma {:induction false} AveragesAddUp(nodes: seq<seq<IntervalSample>>, i: nat)
    ensures
      var p, xs := MergedAt(nodes, i), BucketsAt(nodes, i);
      p.sample.avgLatency == SumBy(POSITIVE_AVERAGE, xs) && p.nAvg as real == SumBy(HAS_AVERAGE, xs)
  {
    if nodes != [] {
      var n := |nodes| - 1;
      LastBucket(nodes, i);
      AveragesAddUp(nodes[..n], i);
      if i < |nodes[n]| {
        SumAppend(POSITIVE_AVERAGE, BucketsAt(nodes[..n], i), nodes[n][i]);
        SumAppend(HAS_AVERAGE, BucketsAt(nodes[..n], i), nodes[n][i]);
      }
    }
  }

  /** The mean of the averages that are positive, zero if none is. */
  predicate IsMeanOfAverages(xs: seq<IntervalSample>, x: real) {
    && x * SumBy(HAS_AVERAGE, xs) == SumBy(POSITIVE_AVERAGE, xs)
    && (SumBy(HAS_AVERAGE, xs) == 0.0 ==> x == 0.0)
  }

  lemma {:induction false} NoAverages(xs: seq<IntervalSample>)
    requires SumBy(HAS_AVERAGE, xs) == 0.0
    ensures SumBy(POSITIVE_AVERAGE, xs) == 0.0
  {
    if xs != [] {
      AveragesCounted(xs[..|xs| - 1]);
      NoAverages(xs[..|xs| - 1]);
    }
  }

  lemma {:induction false} AveragesCounted(xs: seq<IntervalSample>)
    ensures SumBy(HAS_AVERAGE, xs) >= 0.0
  {
    if xs != [] { AveragesCounted(xs[..|xs| - 1]); }
  }

  lemma QuotientTimes(x: real, y: real)
    requires y != 0.0
    ensures x / y * y == x
  {
  }

  lemma AverageIsMean(nodes: seq<seq<IntervalSample>>, i: nat)
    ensures IsMeanOfAverages(BucketsAt(nodes, i), Finished(MergedAt(nodes, i)).avgLatency)
  {
    hide MergedAt, BucketsAt, SumBy;
    var p, xs := MergedAt(nodes, i), BucketsAt(nodes, i);
    AveragesAddUp(nodes, i);
    if p.nAvg == 0 {
      NoAverages(xs);
    } else {
      QuotientTimes(p.sample.avgLatency, p.nAvg as real);
    }
  }

  // ----- When it was measured -----

  const NUMBER := (iv: IntervalSample) => iv.number
  const TIMESTAMP := (iv: IntervalSample) => iv.timestamp
  const ELAPSED := (iv: IntervalSample) => iv.elapsedSec

  /** A number that replaces the bucket's own. */
  function OtherNumber(i: nat): int -> bool { (n: int) => n > 0 && n != i + 1 }

  const TIME_SET := (t: int) => t != 0
  const TIME_PASSED := (t: real) => t > 0.0

  /** The first usable value of each. */
  lemma {:induction false} TimesAreFirst(nodes: seq<seq<IntervalSample>>, i: nat)
    ensures
      var m, xs := MergedAt(nodes, i).sample, BucketsAt(nodes, i);
      && IsFirst(NUMBER, OtherNumber(i), xs, i + 1, m.number)
      && IsFirst(TIMESTAMP, TIME_SET, xs, 0, m.timestamp)
      && IsFirst(ELAPSED, TIME_PASSED, xs, 0.0, m.elapsedSec)
  {
    if nodes != [] {
      var n := |nodes| - 1;
      var m, xs := MergedAt(nodes[..n], i).sample, BucketsAt(nodes[..n], i);
      LastBucket(nodes, i);
      TimesAreFirst(nodes[..n], i);
      if i < |nodes[n]| {
        FirstAppend(NUMBER, OtherNumber(i), xs, i + 1, m.number, nodes[n][i]);
        FirstAppend(TIMESTAMP, TIME_SET, xs, 0, m.timestamp, nodes[n][i]);
        FirstAppend(ELAPSED, TIME_PASSED, xs, 0.0, m.elapsedSec, nodes[n][i]);
      }
    }
  }

  // ----- The whole bucket -----

  /** m is the bucket of number i merged from xs. */
  ghost predicate Merges(xs: seq<IntervalSample>, i: nat, m: IntervalSample) {
    && (forall rate :: RateIn(rate)(m) == SumBy(RateIn(rate), xs))
    && IsLargest(MAX_LATENCY, xs, m.maxLatency)
    && ((forall j :: 0 <= j < |xs| ==> xs[j].minLatency >= 0.0) ==> IsSmallestPositive(MIN_LATENCY, xs, m.minLatency))
    && (forall name :: name in m.percentiles <==> SomeLabelled(xs, name))
    && (PercentilesGiven(xs) ==> forall name :: IsLargest(PercentileIn(name), xs, PercentileIn(name)(m)))
    && IsMeanOfAverages(xs, m.avgLatency)
    && IsFirst(NUMBER, OtherNumber(i), xs, i + 1, m.number)
    && IsFirst(TIMESTAMP, TIME_SET, xs, 0, m.timestamp)
    && IsFirst(ELAPSED, TIME_PASSED, xs, 0.0, m.elapsedSec)
  }

  /** Dividing the average changes nothing else. */
  lemma FinishedKeeps(p: Partial, rate: Rate, name: string)
    ensures RateIn(rate)(Finished(p)) == RateIn(rate)(p.sample)
    ensures PercentileIn(name)(Finished(p)) == PercentileIn(name)(p.sample)
  {
  }

  /** Every bucket merged from several nodes adds up the rates of theirs, has the largest of their
      tail latencies, the smallest positive and the mean average one, and the first number and times;
      and no bucket of any node is missing. */
  lemma EveryFieldMerges(nodes: seq<seq<IntervalSample>>, i: nat)
    requires |nodes| != 1 && i < |MergedIntervals(nodes)|
    ensures Merges(BucketsAt(nodes, i), i, MergedIntervals(nodes)[i])
  {
    hide MergedAt, BucketsAt, IsFirst, IsLargest, IsSmallestPositive, IsMeanOfAverages, SomeLabelled;
    hide RateIn, PercentileIn, SumBy, PercentilesGiven;
    var xs, p, m := BucketsAt(nodes, i), MergedAt(nodes, i), MergedIntervals(nodes)[i];
    assert m == Finished(p);
    forall rate ensures RateIn(rate)(m) == SumBy(RateIn(rate), xs) {
      FinishedKeeps(p, rate, "");
      RatesAddUp(nodes, i, rate);
    }
    forall name
      ensures name in m.percentiles <==> SomeLabelled(xs, name)
      ensures PercentilesGiven(xs) ==> IsLargest(PercentileIn(name), xs, PercentileIn(name)(m))
    {
      FinishedKeeps(p, Iops, name);
      LatenciesAreLargest(nodes, i, name);
    }
    LatenciesAreLargest(nodes, i, "");
    if forall j :: 0 <= j < |xs| ==> xs[j].minLatency >= 0.0 { LatencyIsSmallest(nodes, i); }
    AverageIsMean(nodes, i);
    TimesAreFirst(nodes, i);
  }

  /** The buckets of a single node are passed on as they are. */
  lemma OneNodePassedOn(node: seq<IntervalSample>)
    ensures MergedIntervals([node]) == node
  {
  }
}
