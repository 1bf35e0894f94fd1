/** Combining the measurements of several clients into cluster totals. */
module Aggregate {
  import opened Schema
  import opened Monoids
  import opened Intervals
  import opened Averages

  // ----- The two loops of aggregate.Results -----

  function AddLatency(a: LatencyUS, r: LatencyUS): LatencyUS {
    a.(min := if a.min == 0.0 || (r.min > 0.0 && r.min < a.min) then r.min else a.min,
       max := Max(a.max, r.max), mean := a.mean + r.mean,
       p50 := Max(a.p50, r.p50), p75 := Max(a.p75, r.p75), p90 := Max(a.p90, r.p90),
       p95 := Max(a.p95, r.p95), p99 := Max(a.p99, r.p99), p999 := Max(a.p999, r.p999))
  }

  function AddTotals(t: TotalStats, r: TotalStats): TotalStats {
    t.(totalMB := t.totalMB + r.totalMB, totalRecords := t.totalRecords + r.totalRecords,
       writeRequestMB := t.writeRequestMB + r.writeRequestMB,
       writeRequestRecords := t.writeRequestRecords + r.writeRequestRecords,
       readRequestMB := t.readRequestMB + r.readRequestMB,
       readRequestRecords := t.readRequestRecords + r.readRequestRecords,
       writeTimeoutEvents := t.writeTimeoutEvents + r.writeTimeoutEvents,
       readTimeoutEvents := t.readTimeoutEvents + r.readTimeoutEvents)
  }

  function AddRates(a: Results, r: Results): Results {
    a.(iops := a.iops + r.iops, readIops := a.readIops + r.readIops, writeIops := a.writeIops + r.writeIops,
       mbps := a.mbps + r.mbps, opsPerSec := a.opsPerSec + r.opsPerSec,
       totalBytesRead := a.totalBytesRead + r.totalBytesRead,
       totalBytesWritten := a.totalBytesWritten + r.totalBytesWritten,
       totalOperations := a.totalOperations + r.totalOperations,
       cpuPercent := a.cpuPercent + r.cpuPercent, latency := AddLatency(a.latency, r.latency))
  }

  function RatesOf(runs: seq<Results>): Results {
    if runs == [] then NO_RESULTS else AddRates(RatesOf(runs[..|runs| - 1]), runs[|runs| - 1])
  }

  function TotalsOf(runs: seq<Results>): TotalStats {
    if runs == [] then NO_TOTALS else AddTotals(TotalsOf(runs[..|runs| - 1]), runs[|runs| - 1].totals)
  }

  function IntervalsOf(runs: seq<Results>): seq<seq<IntervalSample>> {
    seq(|runs|, i requires 0 <= i < |runs| => runs[i].intervals)
  }

  function Average(sum: real, n: nat): real
    requires n > 0
  {
    sum / n as real
  }

  function Aggregated(runs: seq<Results>): Results {
    if |runs| == 0 then NO_RESULTS
    else if |runs| == 1 then runs[0]
    else
      var out := RatesOf(runs);
      out.(latency := out.latency.(mean := Average(out.latency.mean, |runs|)),
           cpuPercent := Average(out.cpuPercent, |runs|),
           intervals := MergedIntervals(IntervalsOf(runs)),
           totals := TotalsOf(runs))
  }

  method MergeTotals(runs: seq<Results>) returns (t: TotalStats)
    ensures t == TotalsOf(runs)
  {
    t := NO_TOTALS;
    for i := 0 to |runs|
      invariant t == TotalsOf(runs[..i])
    {
      assert runs[..i + 1][..i] == runs[..i];
      t := AddTotals(t, runs[i].totals);
    }
    assert runs[..|runs|] == runs;
  }

  method AggregateResults(runs: seq<Results>) returns (out: Results)
    ensures out == Aggregated(runs)
  {
    if |runs| == 0 {
      return NO_RESULTS;
    }
    if |runs| == 1 {
      return runs[0];
    }
    out := NO_RESULTS;
    for i := 0 to |runs|
      invariant out == RatesOf(runs[..i])
    {
      assert runs[..i + 1][..i] == runs[..i];
      out := AddRates(out, runs[i]);
    }
    assert runs[..|runs|] == runs;
    var intervals := MergeIntervals(IntervalsOf(runs));
    var totals := MergeTotals(runs);
    out := out.(latency := out.latency.(mean := Average(out.latency.mean, |runs|)),
                cpuPercent := Average(out.cpuPercent, |runs|), intervals := intervals, totals := totals);
  }

  // ----- What a run adds to the cluster -----

  datatype RunSum = RunSum(
    iops: Measure, readIops: Measure, writeIops: Measure, mbps: Measure, opsPerSec: Measure,
    bytesRead: nat, bytesWritten: nat, operations: nat,
    minLatency: Measure, maxLatency: Measure,
    p50: Measure, p75: Measure, p90: Measure, p95: Measure, p99: Measure, p999: Measure,
    volume: Volume)

  datatype Volume = Volume(
    totalMB: Measure, totalRecords: nat, writeMB: Measure, writeRecords: nat,
    readMB: Measure, readRecords: nat, writeTimeouts: nat, readTimeouts: nat)

  const NO_VOLUME := Volume(0.0, 0, 0.0, 0, 0.0, 0, 0, 0)

  const NO_RUN := RunSum(0.0, 0.0, 0.0, 0.0, 0.0, 0, 0, 0, 0.0, 0.0, 0.0, 0.0, 0.0, 0.0, 0.0, 0.0, NO_VOLUME)

  function PlusVolume(a: Volume, b: Volume): Volume {
    Volume(
      a.totalMB + b.totalMB, a.totalRecords + b.totalRecords, a.writeMB + b.writeMB, a.writeRecords + b.writeRecords,
      a.readMB + b.readMB, a.readRecords + b.readRecords,
      a.writeTimeouts + b.writeTimeouts, a.readTimeouts + b.readTimeouts)
  }

  /** Rates and volumes add up, tail latencies take the maximum, the minimum latency the
      smallest positive value. */
  function PlusRun(a: RunSum, b: RunSum): RunSum {
    RunSum(
      a.iops + b.iops, a.readIops + b.readIops, a.writeIops + b.writeIops, a.mbps + b.mbps, a.opsPerSec + b.opsPerSec,
      a.bytesRead + b.bytesRead, a.bytesWritten + b.bytesWritten, a.operations + b.operations,
      PositiveMin(a.minLatency, b.minLatency), MaxOf(a.maxLatency, b.maxLatency),
      MaxOf(a.p50, b.p50), MaxOf(a.p75, b.p75), MaxOf(a.p90, b.p90),
      MaxOf(a.p95, b.p95), MaxOf(a.p99, b.p99), MaxOf(a.p999, b.p999),
      PlusVolume(a.volume, b.volume))
  }

  lemma RunUnit(x: RunSum)
    ensures PlusRun(x, NO_RUN) == x
  {
  }

  lemma RunCommutes(x: RunSum, y: RunSum)
    ensures PlusRun(x, y) == PlusRun(y, x)
  {
  }

  lemma RunAssociates(x: RunSum, y: RunSum, z: RunSum)
    ensures PlusRun(PlusRun(x, y), z) == PlusRun(x, PlusRun(y, z))
  {
    PositiveMinAssociates(x.minLatency, y.minLatency, z.minLatency);
  }

  lemma RunMonoid()
    ensures CommutativeMonoid(PlusRun, NO_RUN)
  {
    forall x, y, z ensures Laws(PlusRun, NO_RUN, x, y, z) {
      RunUnit(x);
      RunCommutes(x, y);
      RunAssociates(x, y, z);
    }
  }

  predicate SoundTotals(t: TotalStats) {
    && t.totalMB >= 0.0 && t.totalRecords >= 0 && t.writeRequestMB >= 0.0 && t.writeRequestRecords >= 0
    && t.readRequestMB >= 0.0 && t.readRequestRecords >= 0
    && t.writeTimeoutEvents >= 0 && t.readTimeoutEvents >= 0
  }

  predicate SoundRates(r: Results) {
    && r.iops >= 0.0 && r.readIops >= 0.0 && r.writeIops >= 0.0 && r.mbps >= 0.0 && r.opsPerSec >= 0.0
    && r.totalBytesRead >= 0 && r.totalBytesWritten >= 0 && r.totalOperations >= 0
    && r.latency.min >= 0.0 && r.latency.max >= 0.0
    && r.latency.p50 >= 0.0 && r.latency.p75 >= 0.0 && r.latency.p90 >= 0.0
    && r.latency.p95 >= 0.0 && r.latency.p99 >= 0.0 && r.latency.p999 >= 0.0
  }

  /** No measurement is negative. */
  predicate Sound(r: Results) { SoundRates(r) && SoundTotals(r.totals) }

  predicate AllSound(runs: seq<Results>) { forall i :: 0 <= i < |runs| ==> Sound(runs[i]) }

  function VolumeOf(t: TotalStats): Volume
    requires SoundTotals(t)
  {
    Volume(t.totalMB, t.totalRecords, t.writeRequestMB, t.writeRequestRecords,
           t.readRequestMB, t.readRequestRecords, t.writeTimeoutEvents, t.readTimeoutEvents)
  }

  function SumWith(r: Results, t: TotalStats): RunSum
    requires SoundRates(r) && SoundTotals(t)
  {
    RunSum(
      r.iops, r.readIops, r.writeIops, r.mbps, r.opsPerSec,
      r.totalBytesRead, r.totalBytesWritten, r.totalOperations,
      r.latency.min, r.latency.max, r.latency.p50, r.latency.p75, r.latency.p90,
      r.latency.p95, r.latency.p99, r.latency.p999, VolumeOf(t))
  }

  function RunSumOf(r: Results): RunSum
    requires Sound(r)
  {
    SumWith(r, r.totals)
  }

  function RunSums(runs: seq<Results>): (sums: seq<RunSum>)
    requires AllSound(runs)
    ensures |sums| == |runs| && forall i :: 0 <= i < |runs| ==> sums[i] == RunSumOf(runs[i])
  {
    if runs == [] then [] else RunSums(runs[..|runs| - 1]) + [RunSumOf(runs[|runs| - 1])]
  }

  lemma AddSums(a: Results, t: TotalStats, r: Results)
    requires SoundRates(a) && SoundTotals(t) && Sound(r)
    ensures SoundRates(AddRates(a, r)) && SoundTotals(AddTotals(t, r.totals))
    ensures SumWith(AddRates(a, r), AddTotals(t, r.totals)) == PlusRun(SumWith(a, t), RunSumOf(r))
  {
  }

  lemma {:induction false} LoopTotals(runs: seq<Results>)
    requires AllSound(runs)
    ensures SoundRates(RatesOf(runs)) && SoundTotals(TotalsOf(runs))
    ensures SumWith(RatesOf(runs), TotalsOf(runs)) == Total(PlusRun, NO_RUN, RunSums(runs))
  {
    if runs != [] {
      var n := |runs| - 1;
      LoopTotals(runs[..n]);
      AddSums(RatesOf(runs[..n]), TotalsOf(runs[..n]), runs[n]);
      TotalAppend(PlusRun, NO_RUN, RunSums(runs[..n]), RunSumOf(runs[n]));
    }
  }

  /** Every summed, maximal and minimal field of the aggregate is the total of that field
      over all runs, for any number of runs. */
  lemma AggregateTotals(runs: seq<Results>)
    requires AllSound(runs)
    ensures Sound(Aggregated(runs))
    ensures RunSumOf(Aggregated(runs)) == Total(PlusRun, NO_RUN, RunSums(runs))
  {
    LoopTotals(runs);
    if |runs| == 1 {
      RunMonoid();
      TotalAppend(PlusRun, NO_RUN, [], RunSumOf(runs[0]));
      assert RunSums(runs) == [] + [RunSumOf(runs[0])];
      RunCommutes(NO_RUN, RunSumOf(runs[0]));
      RunUnit(RunSumOf(runs[0]));
    }
  }

  function AggregatedGroups(groups: seq<seq<Results>>): (rs: seq<Results>)
    ensures |rs| == |groups| && forall g :: 0 <= g < |groups| ==> rs[g] == Aggregated(groups[g])
  {
    if groups == [] then [] else AggregatedGroups(groups[..|groups| - 1]) + [Aggregated(groups[|groups| - 1])]
  }

  predicate GroupsSound(groups: seq<seq<Results>>) { forall g :: 0 <= g < |groups| ==> AllSound(groups[g]) }

  lemma {:induction false} GroupTotals(groups: seq<seq<Results>>)
    requires GroupsSound(groups)
    ensures AllSound(AggregatedGroups(groups)) && AllSound(Flatten(groups))
    ensures
      Total(PlusRun, NO_RUN, RunSums(AggregatedGroups(groups))) ==
      Total(PlusRun, NO_RUN, RunSums(Flatten(groups)))
  {
    if groups != [] {
      var n := |groups| - 1;
      var outer, flat := AggregatedGroups(groups[..n]), Flatten(groups[..n]);
      GroupTotals(groups[..n]);
      AggregateTotals(groups[n]);
      RunSumsConcat(outer, [Aggregated(groups[n])]);
      RunSumsConcat(flat, groups[n]);
      RunMonoid();
      TotalAppend(PlusRun, NO_RUN, RunSums(outer), RunSumOf(Aggregated(groups[n])));
      TotalConcat(PlusRun, NO_RUN, RunSums(flat), RunSums(groups[n]));
      assert RunSums([Aggregated(groups[n])]) == [RunSumOf(Aggregated(groups[n]))];
    }
  }

  lemma RunSumsConcat(a: seq<Results>, b: seq<Results>)
    requires AllSound(a) && AllSound(b)
    ensures AllSound(a + b) && RunSums(a + b) == RunSums(a) + RunSums(b)
  {
  }

  function ContributionOf(r: Results): RunSum { if Sound(r) then RunSumOf(r) else NO_RUN }

  /** Reordering runs permutes what they add. */
  lemma RunSumsPermuted(a: seq<Results>, b: seq<Results>)
    requires AllSound(a) && AllSound(b) && multiset(a) == multiset(b)
    ensures Total(PlusRun, NO_RUN, RunSums(a)) == Total(PlusRun, NO_RUN, RunSums(b))
  {
    assert RunSums(a) == Mapped(ContributionOf, a);
    assert RunSums(b) == Mapped(ContributionOf, b);
    MappedPermuted(ContributionOf, a, b);
    RunMonoid();
    TotalPermuted(PlusRun, NO_RUN, RunSums(a), RunSums(b));
  }

  /** Aggregating per group and then the group results gives, in every such field, what
      aggregating all runs directly gives, for any partition into groups and any order. */
  lemma GroupingHomomorphism(groups: seq<seq<Results>>, runs: seq<Results>)
    requires GroupsSound(groups) && AllSound(runs)
    requires multiset(Flatten(groups)) == multiset(runs)
    ensures AllSound(AggregatedGroups(groups))
    ensures Sound(Aggregated(AggregatedGroups(groups))) && Sound(Aggregated(runs))
    ensures RunSumOf(Aggregated(AggregatedGroups(groups))) == RunSumOf(Aggregated(runs))
  {
    GroupTotals(groups);
    AggregateTotals(AggregatedGroups(groups));
    AggregateTotals(runs);
    RunSumsPermuted(Flatten(groups), runs);
  }

  // ----- The intervals -----

  function IntervalsIn(r: Results): seq<IntervalSample> { r.intervals }

  lemma AggregateIntervals(runs: seq<Results>)
    ensures Aggregated(runs).intervals == MergedIntervals(IntervalsOf(runs))
  {
    if |runs| == 0 { assert IntervalsOf(runs) == []; }
  }

  predicate IntervalsMeasured(runs: seq<Results>) { forall i :: 0 <= i < |runs| ==> NodeMeasured(runs[i].intervals) }

  predicate GroupIntervalsMeasured(groups: seq<seq<Results>>) {
    forall g :: 0 <= g < |groups| ==> IntervalsMeasured(groups[g])
  }

  function GroupNodes(groups: seq<seq<Results>>): (nodes: seq<seq<seq<IntervalSample>>>)
    ensures |nodes| == |groups| && forall g :: 0 <= g < |groups| ==> nodes[g] == IntervalsOf(groups[g])
  {
    if groups == [] then [] else GroupNodes(groups[..|groups| - 1]) + [IntervalsOf(groups[|groups| - 1])]
  }

  lemma IntervalsConcat(a: seq<Results>, b: seq<Results>)
    ensures IntervalsOf(a + b) == IntervalsOf(a) + IntervalsOf(b)
  {
  }

  lemma {:induction false} FlattenedNodes(groups: seq<seq<Results>>)
    ensures Flatten(GroupNodes(groups)) == IntervalsOf(Flatten(groups))
  {
    if groups == [] {
      assert IntervalsOf([]) == [];
    } else {
      var n := |groups| - 1;
      FlattenedNodes(groups[..n]);
      IntervalsConcat(Flatten(groups[..n]), groups[n]);
    }
  }

  lemma GroupedNodes(groups: seq<seq<Results>>)
    ensures IntervalsOf(AggregatedGroups(groups)) == MergedGroups(GroupNodes(groups))
  {
    hide Aggregated, MergedIntervals;
    var l, r := IntervalsOf(AggregatedGroups(groups)), MergedGroups(GroupNodes(groups));
    forall g | 0 <= g < |groups| ensures l[g] == r[g] { AggregateIntervals(groups[g]); }
  }

  lemma IntervalsPermuted(a: seq<Results>, b: seq<Results>)
    requires multiset(a) == multiset(b)
    ensures multiset(IntervalsOf(a)) == multiset(IntervalsOf(b))
  {
    assert IntervalsOf(a) == Mapped(IntervalsIn, a) && IntervalsOf(b) == Mapped(IntervalsIn, b);
    MappedPermuted(IntervalsIn, a, b);
  }

  /** The same intervals in every summed, maximal and minimal field. */
  ghost predicate SameBuckets(a: seq<IntervalSample>, b: seq<IntervalSample>) {
    && |a| == |b| && NodeMeasured(a) && NodeMeasured(b)
    && forall i :: 0 <= i < |a| ==> SumOf(a[i]) == SumOf(b[i])
  }

  lemma MergeGroupedBuckets(groups: seq<seq<seq<IntervalSample>>>)
    requires GroupsMeasured(groups)
    ensures SameBuckets(MergedIntervals(MergedGroups(groups)), MergedIntervals(Flatten(groups)))
  {
    hide MergedIntervals, Measured, SumOf;
    MergeGrouped(groups, 0);
    forall i: nat { MergeGrouped(groups, i); }
  }

  lemma MergePermutedBuckets(a: seq<seq<IntervalSample>>, b: seq<seq<IntervalSample>>)
    requires AllMeasured(a) && AllMeasured(b) && multiset(a) == multiset(b)
    ensures SameBuckets(MergedIntervals(a), MergedIntervals(b))
  {
    hide MergedIntervals, Measured, SumOf;
    MergePermuted(a, b, 0);
    forall i: nat { MergePermuted(a, b, i); }
  }

  /** Reordering runs keeps the merged intervals. */
  lemma IntervalsKeepOrderFree(a: seq<Results>, b: seq<Results>)
    requires IntervalsMeasured(a) && IntervalsMeasured(b) && multiset(a) == multiset(b)
    ensures SameBuckets(Aggregated(a).intervals, Aggregated(b).intervals)
  {
    hide Aggregated, MergedIntervals, Measured, SumOf;
    AggregateIntervals(a);
    AggregateIntervals(b);
    IntervalsPermuted(a, b);
    MergePermutedBuckets(IntervalsOf(a), IntervalsOf(b));
  }

  /** Aggregating per group and then the groups gives the buckets of aggregating directly, for any
      partition and any order. */
  lemma GroupingIntervals(groups: seq<seq<Results>>, runs: seq<Results>)
    requires GroupIntervalsMeasured(groups) && IntervalsMeasured(runs)
    requires multiset(Flatten(groups)) == multiset(runs)
    ensures SameBuckets(Aggregated(AggregatedGroups(groups)).intervals, Aggregated(runs).intervals)
  {
    hide Aggregated, MergedIntervals, Measured, SumOf;
    AggregateIntervals(AggregatedGroups(groups));
    AggregateIntervals(runs);
    GroupedNodes(groups);
    FlattenedNodes(groups);
    IntervalsPermuted(Flatten(groups), runs);
    MergeGroupedBuckets(GroupNodes(groups));
    GroupsStayMeasured(GroupNodes(groups));
    MergePermutedBuckets(IntervalsOf(Flatten(groups)), IntervalsOf(runs));
  }

  // ----- The averages do not group -----

  /** The fields that are averaged over the runs. */
  datatype Averaged = MeanLatency | CpuPercent

  function FieldOf(r: Results, f: Averaged): real { if f == MeanLatency then r.latency.mean else r.cpuPercent }

  function FieldSum(runs: seq<Results>, f: Averaged): real {
    if runs == [] then 0.0 else FieldSum(runs[..|runs| - 1], f) + FieldOf(runs[|runs| - 1], f)
  }

  lemma {:induction false} LoopSum(runs: seq<Results>, f: Averaged)
    ensures FieldOf(RatesOf(runs), f) == FieldSum(runs, f)
  {
    if runs != [] { LoopSum(runs[..|runs| - 1], f); }
  }

  lemma AggregateAverage(runs: seq<Results>, f: Averaged)
    requires runs != []
    ensures FieldOf(Aggregated(runs), f) == Average(FieldSum(runs, f), |runs|)
  {
    LoopSum(runs, f);
    if |runs| == 1 { assert runs[..0] == []; }
  }

  lemma {:induction false} FieldSumConcat(a: seq<Results>, b: seq<Results>, f: Averaged)
    ensures FieldSum(a + b, f) == FieldSum(a, f) + FieldSum(b, f)
  {
    if b == [] {
      assert a + b == a;
    } else {
      var n := |b| - 1;
      FieldSumConcat(a, b[..n], f);
      assert (a + b)[..|a| + n] == a + b[..n];
    }
  }

  predicate NoneEmpty(groups: seq<seq<Results>>) { forall g :: 0 <= g < |groups| ==> groups[g] != [] }

  /** The average that aggregating the runs reports. */
  function AverageOf(runs: seq<Results>, f: Averaged): real {
    if runs == [] then 0.0 else Average(FieldSum(runs, f), |runs|)
  }

  function PartOf(runs: seq<Results>, f: Averaged): Part { Part(|runs|, AverageOf(runs, f)) }

  function PartsOf(groups: seq<seq<Results>>, f: Averaged): (parts: seq<Part>)
    ensures |parts| == |groups|
    ensures forall g :: 0 <= g < |groups| ==> parts[g] == PartOf(groups[g], f)
  {
    if groups == [] then [] else PartsOf(groups[..|groups| - 1], f) + [PartOf(groups[|groups| - 1], f)]
  }

  lemma FieldSumAppend(runs: seq<Results>, r: Results, f: Averaged)
    ensures FieldSum(runs + [r], f) == FieldSum(runs, f) + FieldOf(r, f)
  {
    assert (runs + [r])[..|runs|] == runs;
  }

  lemma PartsAppend(parts: seq<Part>, p: Part)
    ensures Weighted(parts + [p]) == Weighted(parts) + Share(p)
    ensures Plain(parts + [p]) == Plain(parts) + p.mean && Size(parts + [p]) == Size(parts) + p.size
  {
    assert (parts + [p])[..|parts|] == parts;
  }

  lemma {:induction false} PlainIsGroupSum(groups: seq<seq<Results>>, f: Averaged)
    requires NoneEmpty(groups)
    ensures FieldSum(AggregatedGroups(groups), f) == Plain(PartsOf(groups, f))
  {
    if groups != [] {
      var n := |groups| - 1;
      PlainIsGroupSum(groups[..n], f);
      AggregateAverage(groups[n], f);
      FieldSumAppend(AggregatedGroups(groups[..n]), Aggregated(groups[n]), f);
      PartsAppend(PartsOf(groups[..n], f), PartOf(groups[n], f));
    }
  }

  lemma SumIsWeighted(group: seq<Results>, f: Averaged)
    requires group != []
    ensures FieldSum(group, f) == Share(PartOf(group, f))
  {
    DivideTimes(FieldSum(group, f), |group| as real);
  }

  lemma {:induction false} SizeIsLength(groups: seq<seq<Results>>, f: Averaged)
    requires NoneEmpty(groups)
    ensures |Flatten(groups)| == Size(PartsOf(groups, f)) && (groups != [] ==> |Flatten(groups)| > 0)
  {
    if groups != [] {
      var n := |groups| - 1;
      SizeIsLength(groups[..n], f);
      assert |groups[n]| > 0;
      PartsAppend(PartsOf(groups[..n], f), PartOf(groups[n], f));
    }
  }

  lemma FlattenedSum(groups: seq<seq<Results>>, f: Averaged)
    requires NoneEmpty(groups) && groups != []
    ensures var n := |groups| - 1;
      FieldSum(Flatten(groups), f) == FieldSum(Flatten(groups[..n]), f) + Share(PartOf(groups[n], f))
  {
    var n := |groups| - 1;
    FieldSumConcat(Flatten(groups[..n]), groups[n], f);
    SumIsWeighted(groups[n], f);
  }

  lemma WeightedLast(groups: seq<seq<Results>>, f: Averaged)
    requires groups != []
    ensures var n := |groups| - 1;
      Weighted(PartsOf(groups, f)) == Weighted(PartsOf(groups[..n], f)) + Share(PartOf(groups[n], f))
  {
    var n := |groups| - 1;
    PartsAppend(PartsOf(groups[..n], f), PartOf(groups[n], f));
  }

  lemma {:induction false} WeightedIsSum(groups: seq<seq<Results>>, f: Averaged)
    requires NoneEmpty(groups)
    ensures FieldSum(Flatten(groups), f) == Weighted(PartsOf(groups, f))
  {
    if groups != [] {
      WeightedIsSum(groups[..|groups| - 1], f);
      FlattenedSum(groups, f);
      WeightedLast(groups, f);
    }
  }

  /** Mean latency and CPU are averages of averages: for any partition into groups they agree with
      the direct average exactly when the groups balance, size against average. */
  lemma GroupedAverageAgreesIff(groups: seq<seq<Results>>, f: Averaged)
    requires NoneEmpty(groups) && groups != []
    ensures FieldOf(Aggregated(AggregatedGroups(groups)), f) == FieldOf(Aggregated(Flatten(groups)), f)
      <==> Balance(PartsOf(groups, f)) == 0.0
  {
    PlainIsGroupSum(groups, f);
    WeightedIsSum(groups, f);
    SizeIsLength(groups, f);
    AggregateAverage(AggregatedGroups(groups), f);
    AggregateAverage(Flatten(groups), f);
    AveragesAgreeIff(PartsOf(groups, f));
  }

  lemma FlattenPair(a: seq<Results>, b: seq<Results>)
    ensures Flatten([a, b]) == a + b
  {
    assert [a, b][..1] == [a] && [a][..0] == [];
    assert Flatten([a]) == Flatten([]) + a;
  }

  /** Two groups agree exactly when they are equally large or have equal averages, and equally
      large groups always do. */
  lemma PairAverageAgreesIff(a: seq<Results>, b: seq<Results>, f: Averaged)
    requires a != [] && b != []
    ensures FieldOf(Aggregated(AggregatedGroups([a, b])), f) == FieldOf(Aggregated(a + b), f)
      <==> |a| == |b| || AverageOf(a, f) == AverageOf(b, f)
  {
    FlattenPair(a, b);
    GroupedAverageAgreesIff([a, b], f);
    var parts := PartsOf([a, b], f);
    assert parts == [parts[0], parts[1]];
    PairBalancesIff(parts[0], parts[1]);
  }

  lemma EqualGroupsAgree(groups: seq<seq<Results>>, f: Averaged, size: nat)
    requires groups != [] && size > 0 && forall g :: 0 <= g < |groups| ==> |groups[g]| == size
    ensures FieldOf(Aggregated(AggregatedGroups(groups)), f) == FieldOf(Aggregated(Flatten(groups)), f)
  {
    EqualPartsBalance(PartsOf(groups, f), size);
    assert forall g :: 0 <= g < |groups| ==> |groups[g]| > 0;
    GroupedAverageAgreesIff(groups, f);
  }
}
