/** What every field of an aggregated result says about the runs it was made from. */
module MergedRuns {
  import opened Schema
  import opened Aggregate
  import opened Extremes

  datatype Summed =
    | Iops | ReadIops | WriteIops | Mbps | OpsPerSec | BytesRead | BytesWritten | Operations
    | TotalMB | TotalRecords | WriteMB | WriteRecords | ReadMB | ReadRecords | WriteTimeouts | ReadTimeouts

  function SummedIn(field: Summed): Results -> real {
    match field
    case Iops => (r: Results) => r.iops
    case ReadIops => (r: Results) => r.readIops
    case WriteIops => (r: Results) => r.writeIops
    case Mbps => (r: Results) => r.mbps
    case OpsPerSec => (r: Results) => r.opsPerSec
    case BytesRead => (r: Results) => r.totalBytesRead as real
    case BytesWritten => (r: Results) => r.totalBytesWritten as real
    case Operations => (r: Results) => r.totalOperations as real
    case TotalMB => (r: Results) => r.totals.totalMB
    case TotalRecords => (r: Results) => r.totals.totalRecords as real
    case WriteMB => (r: Results) => r.totals.writeRequestMB
    case WriteRecords => (r: Results) => r.totals.writeRequestRecords as real
    case ReadMB => (r: Results) => r.totals.readRequestMB
    case ReadRecords => (r: Results) => r.totals.readRequestRecords as real
    case WriteTimeouts => (r: Results) => r.totals.writeTimeoutEvents as real
    case ReadTimeouts => (r: Results) => r.totals.readTimeoutEvents as real
  }

  datatype Tail = P50 | P75 | P90 | P95 | P99 | P999 | Maximum

  function TailIn(tail: Tail): Results -> real {
    match tail
    case P50 => (r: Results) => r.latency.p50
    case P75 => (r: Results) => r.latency.p75
    case P90 => (r: Results) => r.latency.p90
    case P95 => (r: Results) => r.latency.p95
    case P99 => (r: Results) => r.latency.p99
    case P999 => (r: Results) => r.latency.p999
    case Maximum => (r: Results) => r.latency.max
  }

  const MINIMUM := (r: Results) => r.latency.min
  const MEAN := (r: Results) => r.latency.mean
  const CPU := (r: Results) => r.cpuPercent

  /** The loop's two accumulators in one record. */
  function Looped(runs: seq<Results>): Results { RatesOf(runs).(totals := TotalsOf(runs)) }

  lemma LastRun(runs: seq<Results>)
    requires runs != []
    ensures
      var before, r := Looped(runs[..|runs| - 1]), runs[|runs| - 1];
      Looped(runs) == AddRates(before, r).(totals := AddTotals(before.totals, r.totals))
  {
  }

  lemma StepAdds(before: Results, r: Results, field: Summed)
    ensures
      SummedIn(field)(AddRates(before, r).(totals := AddTotals(before.totals, r.totals))) ==
      SummedIn(field)(before) + SummedIn(field)(r)
  {
  }

  lemma {:induction false} FieldsAddUp(runs: seq<Results>, field: Summed)
    ensures SummedIn(field)(Looped(runs)) == SumBy(SummedIn(field), runs)
  {
    if runs != [] {
      hide AddRates, AddTotals, Looped, SummedIn;
      FieldsAddUp(runs[..|runs| - 1], field);
      LastRun(runs);
      StepAdds(Looped(runs[..|runs| - 1]), runs[|runs| - 1], field);
    } else {
      assert forall f :: SummedIn(f)(Looped([])) == 0.0;
    }
  }

  lemma {:induction false} TailsAreLargest(runs: seq<Results>, tail: Tail)
    ensures IsLargest(TailIn(tail), runs, TailIn(tail)(RatesOf(runs)))
  {
    if runs != [] {
      var n := |runs| - 1;
      TailsAreLargest(runs[..n], tail);
      assert runs == runs[..n] + [runs[n]];
      LargestAppend(TailIn(tail), runs[..n], TailIn(tail)(RatesOf(runs[..n])), runs[n]);
      TailStep(RatesOf(runs[..n]), runs[n], tail);
    } else {
      assert forall t :: TailIn(t)(NO_RESULTS) == 0.0;
    }
  }

  lemma TailStep(before: Results, r: Results, tail: Tail)
    ensures
      var x, y := TailIn(tail)(before), TailIn(tail)(r);
      TailIn(tail)(AddRates(before, r)) == if x < y then y else x
  {
  }

  lemma {:induction false} MinimumIsSmallest(runs: seq<Results>)
    requires forall i :: 0 <= i < |runs| ==> runs[i].latency.min >= 0.0
    ensures IsSmallestPositive(MINIMUM, runs, RatesOf(runs).latency.min)
  {
    if runs != [] {
      var n := |runs| - 1;
      MinimumIsSmallest(runs[..n]);
      assert runs == runs[..n] + [runs[n]];
      SmallestAppend(MINIMUM, runs[..n], RatesOf(runs[..n]).latency.min, runs[n]);
    }
  }

  lemma {:induction false} AveragedAddUp(runs: seq<Results>)
    ensures RatesOf(runs).latency.mean == SumBy(MEAN, runs) && RatesOf(runs).cpuPercent == SumBy(CPU, runs)
  {
    if runs != [] { AveragedAddUp(runs[..|runs| - 1]); }
  }

  /** out is the aggregate of runs, field by field; percentile maps, p9999 and the pending, discarded
      and invalid counts are dropped. */
  ghost predicate Aggregates(runs: seq<Results>, out: Results) {
    && (forall field :: SummedIn(field)(out) == SumBy(SummedIn(field), runs))
    && (forall tail :: IsLargest(TailIn(tail), runs, TailIn(tail)(out)))
    && ((forall i :: 0 <= i < |runs| ==> runs[i].latency.min >= 0.0) ==>
          IsSmallestPositive(MINIMUM, runs, out.latency.min))
    && out.latency.mean * |runs| as real == SumBy(MEAN, runs)
    && out.cpuPercent * |runs| as real == SumBy(CPU, runs)
  }

  predicate Dropped(out: Results) {
    && out.latency.p9999 == 0.0 && out.percentiles == map[] && out.percentileCounts == map[]
    && out.totals.writePendingMB == 0.0 && out.totals.writePendingRecords == 0
    && out.totals.readPendingMB == 0.0 && out.totals.readPendingRecords == 0
    && out.totals.invalidLatencies == 0 && out.totals.lowerDiscard == 0 && out.totals.higherDiscard == 0
    && out.totals.slc1 == 0 && out.totals.slc2 == 0
  }

  lemma {:induction false} LoopDrops(runs: seq<Results>)
    ensures Dropped(Looped(runs))
  {
    if runs != [] { LoopDrops(runs[..|runs| - 1]); }
  }

  /** What the two loops leave is the aggregate, but for the averages and the intervals. */
  lemma AggregatedLoops(runs: seq<Results>)
    requires |runs| > 1
    ensures
      var out, looped := Aggregated(runs), RatesOf(runs);
      out == looped.(totals := TotalsOf(runs), intervals := out.intervals,
                     cpuPercent := Average(looped.cpuPercent, |runs|),
                     latency := looped.latency.(mean := Average(looped.latency.mean, |runs|)))
  {
    hide RatesOf, TotalsOf, Average;
  }

  /** Changing those leaves the other fields as they are. */
  lemma SummedKept(r: Results, out: Results, field: Summed)
    requires out == r.(intervals := out.intervals, cpuPercent := out.cpuPercent, latency := out.latency)
    ensures SummedIn(field)(out) == SummedIn(field)(r)
  {
  }

  lemma TailKept(r: Results, out: Results, tail: Tail)
    requires out.latency == r.latency.(mean := out.latency.mean)
    ensures TailIn(tail)(out) == TailIn(tail)(r)
  {
  }

  lemma AverageTimes(sum: real, n: nat)
    requires n > 0
    ensures Average(sum, n) * n as real == sum
  {
  }

  /** With several runs every rate and volume is the sum, every tail latency the largest, the minimum
      the smallest positive one, and mean latency and CPU the averages over the runs. */
  lemma EveryFieldAggregates(runs: seq<Results>)
    requires |runs| > 1
    ensures Aggregates(runs, Aggregated(runs)) && Dropped(Aggregated(runs))
  {
    hide Aggregated, RatesOf, TotalsOf, SummedIn, TailIn, IsLargest, IsSmallestPositive, SumBy, Average;
    var out := Aggregated(runs);
    AggregatedLoops(runs);
    forall field ensures SummedIn(field)(out) == SumBy(SummedIn(field), runs) {
      SummedKept(Looped(runs), out, field);
      FieldsAddUp(runs, field);
    }
    forall tail ensures IsLargest(TailIn(tail), runs, TailIn(tail)(out)) {
      TailKept(RatesOf(runs), out, tail);
      TailsAreLargest(runs, tail);
    }
    if forall i :: 0 <= i < |runs| ==> runs[i].latency.min >= 0.0 { MinimumIsSmallest(runs); }
    AveragedAddUp(runs);
    AverageTimes(RatesOf(runs).latency.mean, |runs|);
    AverageTimes(RatesOf(runs).cpuPercent, |runs|);
    LoopDrops(runs);
  }

  /** A single run is passed on as it is, and no run gives the empty result. */
  lemma FewRunsPassedOn(run: Results)
    ensures Aggregated([run]) == run && Aggregated([]) == NO_RESULTS
  {
  }
}
