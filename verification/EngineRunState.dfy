/** The counters that the native engine's worker threads share. */
module EngineRunState {
  import opened Latency

  // ----- record as atomic steps of many threads -----

  /** How far a thread is in its current call of record. */
  datatype Thread = Quiet | Counted(write: bool) | Classified | Bucketed

  /** The shared counters. The last three fields are history: what went into the sample
      buffer, how many operations ended after the last bucket, and where the threads are. */
  datatype Shared = Shared(
    total: nat, readCount: nat, writeCount: nat, buckets: seq<nat>, samples: seq<real>,
    records: seq<Recorded>, late: nat, threads: seq<Thread>)

  /** The next atomic step of thread tid; what the thread measured comes with it. */
  datatype Event = Event(tid: nat, write: bool, second: nat, latency: real)

  function Step(s: Shared, e: Event): Shared {
    if e.tid >= |s.threads| then s
    else
      match s.threads[e.tid]
      case Quiet => s.(total := s.total + 1, threads := s.threads[e.tid := Counted(e.write)])
      case Counted(write) =>
        var s' := s.(threads := s.threads[e.tid := Classified]);
        if write then s'.(writeCount := s.writeCount + 1) else s'.(readCount := s.readCount + 1)
      case Classified =>
        var s' := s.(threads := s.threads[e.tid := Bucketed]);
        if e.second < |s.buckets| then s'.(buckets := s.buckets[e.second := s.buckets[e.second] + 1])
        else s'.(late := s.late + 1)
      case Bucketed =>
        s.(threads := s.threads[e.tid := Quiet],
           samples := Sampled(s.samples, e.latency, s.total),
           records := s.records + [Recorded(e.latency, s.total)])
  }

  function Run(s: Shared, es: seq<Event>): Shared
    decreases |es|
  {
    if es == [] then s else Run(Step(s, es[0]), es[1..])
  }

  function Fresh(threads: nat, buckets: nat): Shared {
    Shared(0, 0, 0, seq(buckets, _ => 0), [], [], 0, seq(threads, _ => Quiet))
  }

  function Count(threads: seq<Thread>, p: Thread -> bool): nat {
    if threads == [] then 0 else (if p(threads[0]) then 1 else 0) + Count(threads[1..], p)
  }

  function SumOf(ns: seq<nat>): nat { if ns == [] then 0 else ns[0] + SumOf(ns[1..]) }

  lemma {:induction false} CountUpdate(threads: seq<Thread>, i: nat, t: Thread, p: Thread -> bool)
    requires i < |threads|
    ensures Count(threads[i := t], p) + (if p(threads[i]) then 1 else 0) == Count(threads, p) + if p(t) then 1 else 0
  {
    if i == 0 {
      assert threads[0 := t][1..] == threads[1..];
    } else {
      CountUpdate(threads[1..], i - 1, t, p);
      assert threads[i := t][1..] == threads[1..][i - 1 := t];
    }
  }

  lemma {:induction false} SumUpdate(ns: seq<nat>, i: nat, n: nat)
    requires i < |ns|
    ensures SumOf(ns[i := n]) + ns[i] == SumOf(ns) + n
  {
    if i == 0 {
      assert ns[0 := n][1..] == ns[1..];
    } else {
      SumUpdate(ns[1..], i - 1, n);
      assert ns[i := n][1..] == ns[1..][i - 1 := n];
    }
  }

  const IS_COUNTED := (t: Thread) => t.Counted?
  const IS_CLASSIFIED := (t: Thread) => t.Classified?
  const IS_BUSY := (t: Thread) => !t.Quiet?

  /** Every operation is either fully counted or accounted for by a thread inside record. */
  predicate Conserved(s: Shared) {
    && s.readCount + s.writeCount + Count(s.threads, IS_COUNTED) == s.total
    && SumOf(s.buckets) + s.late + Count(s.threads, IS_COUNTED) + Count(s.threads, IS_CLASSIFIED) == s.total
    && |s.records| + Count(s.threads, IS_BUSY) == s.total
    && s.samples == SampledAll(s.records)
  }

  lemma StepConserves(s: Shared, e: Event)
    requires Conserved(s)
    ensures Conserved(Step(s, e)) && |Step(s, e).buckets| == |s.buckets| && |Step(s, e).threads| == |s.threads|
  {
    hide Count, SumOf;
    if e.tid < |s.threads| {
      var t := Step(s, e).threads[e.tid];
      CountUpdate(s.threads, e.tid, t, IS_COUNTED);
      CountUpdate(s.threads, e.tid, t, IS_CLASSIFIED);
      CountUpdate(s.threads, e.tid, t, IS_BUSY);
      if s.threads[e.tid].Classified? && e.second < |s.buckets| {
        SumUpdate(s.buckets, e.second, s.buckets[e.second] + 1);
      }
      if s.threads[e.tid].Bucketed? {
        assert (s.records + [Recorded(e.latency, s.total)])[..|s.records|] == s.records;
      }
    }
  }

  lemma {:induction false} RunConserves(s: Shared, es: seq<Event>)
    requires Conserved(s)
    ensures Conserved(Run(s, es)) && |Run(s, es).buckets| == |s.buckets| && |Run(s, es).threads| == |s.threads|
    decreases |es|
  {
    if es != [] {
      StepConserves(s, es[0]);
      RunConserves(Step(s, es[0]), es[1..]);
    }
  }

  lemma {:induction false} FreshConserved(threads: nat, buckets: nat)
    ensures Conserved(Fresh(threads, buckets))
  {
    AllQuiet(Fresh(threads, buckets).threads);
    ZeroSum(buckets);
  }

  lemma {:induction false} ZeroSum(n: nat)
    ensures SumOf(seq(n, _ => 0)) == 0
  {
    if n > 0 {
      assert seq<nat>(n, _ => 0)[1..] == seq(n - 1, _ => 0);
      ZeroSum(n - 1);
    }
  }

  predicate Joined(s: Shared) { forall i :: 0 <= i < |s.threads| ==> s.threads[i] == Quiet }

  lemma {:induction false} AllQuiet(threads: seq<Thread>)
    requires forall i :: 0 <= i < |threads| ==> threads[i] == Quiet
    ensures Count(threads, IS_COUNTED) == Count(threads, IS_CLASSIFIED) == Count(threads, IS_BUSY) == 0
  {
    if threads != [] { AllQuiet(threads[1..]); }
  }

  /** Under any interleaving of any number of threads, reads plus writes and the sum of the
      buckets never exceed the total; once the workers have joined, reads plus writes equal
      it, and so does the bucket sum together with the operations that ended after the last
      bucket. The sample buffer is in bounds throughout. */
  lemma InterleavingsConserve(threads: nat, buckets: nat, es: seq<Event>)
    ensures
      var s := Run(Fresh(threads, buckets), es);
      && s.readCount + s.writeCount <= s.total
      && SumOf(s.buckets) <= s.total
      && |s.buckets| == buckets
      && |s.samples| == (if |s.records| <= MAX_LATENCY_SAMPLES then |s.records| else MAX_LATENCY_SAMPLES)
      && (Joined(s) ==>
            && s.readCount + s.writeCount == s.total
            && SumOf(s.buckets) + s.late == s.total
            && |s.records| == s.total)
  {
    var s := Run(Fresh(threads, buckets), es);
    FreshConserved(threads, buckets);
    RunConserves(Fresh(threads, buckets), es);
    BufferBounded(s.records);
    if Joined(s) { AllQuiet(s.threads); }
  }

  // ----- The final report -----

  /** Throughput counts mebibytes. */
  const MIB := 1048576.0

  lemma CountsMebibytes(n: nat, bs: nat)
    ensures MbpsOf(n, bs) * MIB == (n * bs) as real
  {
  }

  function MbpsOf(n: nat, bs: nat): real { (n * bs) as real / 1048576.0 }

  /** One second's sample; both rates derive from its operation count. */
  datatype EngineSample = EngineSample(number: nat, ops: nat, bs: nat) {
    function Iops(): real { ops as real }

    function Mbps(): real { MbpsOf(ops, bs) }
  }

  /** A sample's rates are those of its second. */
  lemma SampleRates(sample: EngineSample)
    ensures sample.Iops() == sample.ops as real && sample.Mbps() * MIB == (sample.ops * sample.bs) as real
  {
    CountsMebibytes(sample.ops, sample.bs);
  }

  function SampleOf(buckets: seq<nat>, bs: nat, i: nat): EngineSample
    requires i < |buckets|
  {
    EngineSample(i + 1, buckets[i], bs)
  }

  /** The samples of the non-empty buckets, in order. */
  function Intervals(buckets: seq<nat>, bs: nat): seq<EngineSample> {
    if buckets == [] then []
    else
      var n := |buckets| - 1;
      var before := Intervals(buckets[..n], bs);
      if buckets[n] == 0 then before else before + [SampleOf(buckets, bs, n)]
  }

  function TotalOps(samples: seq<EngineSample>): nat {
    if samples == [] then 0 else TotalOps(samples[..|samples| - 1]) + samples[|samples| - 1].ops
  }

  lemma {:induction false} SumOfLast(ns: seq<nat>)
    requires ns != []
    ensures SumOf(ns) == SumOf(ns[..|ns| - 1]) + ns[|ns| - 1]
  {
    if |ns| > 1 {
      SumOfLast(ns[1..]);
      assert ns[1..][..|ns| - 2] == ns[..|ns| - 1][1..];
    }
  }

  /** Sample r[j] is that of a non-empty bucket. */
  predicate FromBucket(sample: EngineSample, buckets: seq<nat>, bs: nat) {
    && 1 <= sample.number <= |buckets|
    && buckets[sample.number - 1] > 0
    && sample == SampleOf(buckets, bs, sample.number - 1)
  }

  predicate Numbered(samples: seq<EngineSample>) {
    forall j, k :: 0 <= j < k < |samples| ==> samples[j].number < samples[k].number
  }

  predicate AllFromBuckets(samples: seq<EngineSample>, buckets: seq<nat>, bs: nat) {
    forall j :: 0 <= j < |samples| ==> FromBucket(samples[j], buckets, bs)
  }

  lemma StillFromBucket(sample: EngineSample, buckets: seq<nat>, bs: nat)
    requires buckets != [] && FromBucket(sample, buckets[..|buckets| - 1], bs)
    ensures FromBucket(sample, buckets, bs) && sample.number < |buckets|
  {
  }

  lemma OneMoreSample(before: seq<EngineSample>, buckets: seq<nat>, bs: nat)
    requires buckets != [] && buckets[|buckets| - 1] > 0 && Numbered(before)
    requires forall j :: 0 <= j < |before| ==> FromBucket(before[j], buckets, bs) && before[j].number < |buckets|
    ensures
      var r := before + [SampleOf(buckets, bs, |buckets| - 1)];
      AllFromBuckets(r, buckets, bs) && Numbered(r)
  {
  }

  lemma {:induction false} IntervalsFromBuckets(buckets: seq<nat>, bs: nat)
    ensures AllFromBuckets(Intervals(buckets, bs), buckets, bs) && Numbered(Intervals(buckets, bs))
  {
    if buckets != [] {
      var n := |buckets| - 1;
      var before := Intervals(buckets[..n], bs);
      IntervalsFromBuckets(buckets[..n], bs);
      forall j | 0 <= j < |before| ensures FromBucket(before[j], buckets, bs) && before[j].number < |buckets| {
        StillFromBucket(before[j], buckets, bs);
      }
      if buckets[n] > 0 { OneMoreSample(before, buckets, bs); }
    }
  }

  lemma {:induction false} BucketsListed(buckets: seq<nat>, bs: nat, i: nat)
    requires i < |buckets| && buckets[i] > 0
    ensures SampleOf(buckets, bs, i) in Intervals(buckets, bs)
    decreases |buckets|
  {
    var n := |buckets| - 1;
    var before := Intervals(buckets[..n], bs);
    if i < n {
      BucketsListed(buckets[..n], bs, i);
      assert SampleOf(buckets[..n], bs, i) == SampleOf(buckets, bs, i);
    } else {
      assert Intervals(buckets, bs)[|before|] == SampleOf(buckets, bs, n);
    }
  }

  /** The intervals are exactly the non-empty buckets, under increasing sequence numbers. */
  lemma IntervalsListBuckets(buckets: seq<nat>, bs: nat)
    ensures
      var r := Intervals(buckets, bs);
      && Numbered(r)
      && (forall j :: 0 <= j < |r| ==> FromBucket(r[j], buckets, bs))
      && (forall i :: 0 <= i < |buckets| && buckets[i] > 0 ==> SampleOf(buckets, bs, i) in r)
  {
    hide Intervals;
    IntervalsFromBuckets(buckets, bs);
    forall i | 0 <= i < |buckets| && buckets[i] > 0 { BucketsListed(buckets, bs, i); }
  }

  /** The interval rates add up to the counted operations. */
  lemma {:induction false} IntervalsConserve(buckets: seq<nat>, bs: nat)
    ensures TotalOps(Intervals(buckets, bs)) == SumOf(buckets)
  {
    if buckets != [] {
      var n := |buckets| - 1;
      var before := Intervals(buckets[..n], bs);
      IntervalsConserve(buckets[..n], bs);
      SumOfLast(buckets);
      if buckets[n] > 0 {
        assert (before + [SampleOf(buckets, bs, n)])[..|before|] == before;
      }
    }
  }

  datatype EngineResults = EngineResults(
    iops: real, readIops: real, writeIops: real, mbps: real, totalOperations: nat,
    latency: EngineLatency, intervals: seq<EngineSample>)

  lemma QuotientTimes(x: real, y: real)
    requires y != 0.0
    ensures x / y * y == x
  {
  }

  // ----- The object the workers hold -----

  class RunState {
    const bs: nat
    var totalOps: nat
    var readOps: nat
    var writeOps: nat
    const bucketOps: array<nat>
    var samples: seq<real>
    /** History, as in Shared. */
    ghost var records: seq<Recorded>
    ghost var late: nat

    constructor (durationSec: int, bs: nat)
      ensures this.bs == bs && fresh(bucketOps)
      ensures bucketOps.Length == (if durationSec > 1 then durationSec else 1)
      ensures View() == Fresh(1, bucketOps.Length)
    {
      this.bs := bs;
      totalOps, readOps, writeOps := 0, 0, 0;
      bucketOps := new nat[if durationSec > 1 then durationSec else 1](_ => 0);
      samples := [];
      records := [];
      late := 0;
    }

    /** The counters with this thread outside record. */
    ghost function View(): Shared
      reads this, bucketOps
    {
      Shared(totalOps, readOps, writeOps, bucketOps[..], samples, records, late, [Quiet])
    }

    /** One call that no other thread interrupts is four steps of the machine. */
    method Record(write: bool, latency: real, second: nat)
      modifies this, bucketOps
      ensures
        var e := Event(0, write, second, latency);
        View() == Step(Step(Step(Step(old(View()), e), e), e), e)
      ensures totalOps == old(totalOps) + 1
      ensures writeOps == old(writeOps) + (if write then 1 else 0) && readOps == old(readOps) + if write then 0 else 1
      ensures forall i :: 0 <= i < bucketOps.Length ==>
        bucketOps[i] == old(bucketOps[i]) + if i == second then 1 else 0
      ensures samples == Sampled(old(samples), latency, totalOps)
    {
      ghost var before := View();
      totalOps := totalOps + 1;
      if write {
        writeOps := writeOps + 1;
      } else {
        readOps := readOps + 1;
      }
      if second < bucketOps.Length {
        bucketOps[second] := bucketOps[second] + 1;
        assert bucketOps[..] == before.buckets[second := before.buckets[second] + 1];
      } else {
        late := late + 1;
      }
      if |samples| < MAX_LATENCY_SAMPLES {
        samples := samples + [latency];
      } else {
        var idx := totalOps % MAX_LATENCY_SAMPLES;
        if idx < |samples| {
          samples := samples[idx := latency];
        }
      }
      records := records + [Recorded(latency, totalOps)];
    }

    /** finish, the elapsed seconds already raised to at least a millisecond. */
    method Finish(elapsed: real) returns (r: EngineResults)
      requires elapsed > 0.0
      ensures r.intervals == Intervals(bucketOps[..], bs)
      ensures r.totalOperations == totalOps && r.iops == totalOps as real / elapsed
      ensures r.readIops == readOps as real / elapsed && r.writeIops == writeOps as real / elapsed
      ensures r.mbps == MbpsOf(totalOps, bs) / elapsed
      ensures r.mbps * elapsed * MIB == (totalOps * bs) as real
      ensures r.latency == Summary(samples, r.iops)
    {
      var iops := totalOps as real / elapsed;
      var intervals: seq<EngineSample> := [];
      var i := 0;
      while i < bucketOps.Length
        invariant 0 <= i <= bucketOps.Length
        invariant intervals == Intervals(bucketOps[..i], bs)
      {
        var n := bucketOps[i];
        assert bucketOps[..i + 1][..i] == bucketOps[..i];
        if n > 0 {
          intervals := intervals + [EngineSample(i + 1, n, bs)];
        }
        i := i + 1;
      }
      assert bucketOps[..i] == bucketOps[..];
      CountsMebibytes(totalOps, bs);
      QuotientTimes(MbpsOf(totalOps, bs), elapsed);
      r := EngineResults(iops, readOps as real / elapsed, writeOps as real / elapsed,
                         MbpsOf(totalOps, bs) / elapsed, totalOps, Summary(samples, iops), intervals);
    }
  }
}
