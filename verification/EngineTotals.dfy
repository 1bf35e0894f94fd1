/** The workers and the counters together: what finish reports is what the workers did. */
module EngineTotals {
  import opened EngineRunState
  import IoUring

  // ----- What a run of the counters was asked to record -----

  /** The kinds thread tid passes to record in a run, in order; a call begins when a thread
      that is outside record takes a step. */
  function Calls(s: Shared, es: seq<Event>, tid: nat): seq<bool>
    decreases |es|
  {
    if es == [] then []
    else
      var rest := Calls(Step(s, es[0]), es[1..], tid);
      if es[0].tid == tid && Begins(s, es[0]) then [es[0].write] + rest else rest
  }

  predicate Begins(s: Shared, e: Event) { e.tid < |s.threads| && s.threads[e.tid].Quiet? }

  function OfKind(kinds: seq<bool>, write: bool): nat {
    if kinds == [] then 0 else (if kinds[0] == write then 1 else 0) + OfKind(kinds[1..], write)
  }

  lemma {:induction false} BothKinds(kinds: seq<bool>)
    ensures OfKind(kinds, true) + OfKind(kinds, false) == |kinds|
  {
    if kinds != [] { BothKinds(kinds[1..]); }
  }

  /** Thread by thread, how many calls of one kind a run begins. */
  function Tally(s: Shared, es: seq<Event>, write: bool): seq<nat> {
    seq(|s.threads|, t requires 0 <= t < |s.threads| => OfKind(Calls(s, es, t), write))
  }

  function Counter(s: Shared, write: bool): nat { if write then s.writeCount else s.readCount }

  /** The calls of one kind that have counted towards the total only. */
  function Begun(s: Shared, write: bool): nat { Count(s.threads, IsBegun(write)) }

  function IsBegun(write: bool): Thread -> bool { t => t == Counted(write) }

  /** One more call of this kind, if the event begins one. */
  function NewCall(s: Shared, e: Event, write: bool): nat {
    if Begins(s, e) && e.write == write then 1 else 0
  }

  lemma StepCounts(s: Shared, e: Event, write: bool)
    ensures
      Counter(Step(s, e), write) + Begun(Step(s, e), write) ==
      Counter(s, write) + Begun(s, write) + NewCall(s, e, write)
  {
    if e.tid < |s.threads| {
      var t := Step(s, e).threads[e.tid];
      assert Step(s, e).threads == s.threads[e.tid := t];
      hide Count;
      CountUpdate(s.threads, e.tid, t, IsBegun(write));
    }
  }

  lemma StepTallies(s: Shared, es: seq<Event>, write: bool)
    requires es != []
    ensures |Step(s, es[0]).threads| == |s.threads|
    ensures
      SumOf(Tally(s, es, write)) ==
      SumOf(Tally(Step(s, es[0]), es[1..], write)) + NewCall(s, es[0], write)
  {
    var e := es[0];
    var before, after := Tally(s, es, write), Tally(Step(s, e), es[1..], write);
    hide SumOf;
    if e.tid < |s.threads| {
      SumUpdate(before, e.tid, after[e.tid]);
      assert before[e.tid := after[e.tid]] == after;
    } else {
      assert before == after;
    }
  }

  lemma {:induction false} RunTallies(s: Shared, es: seq<Event>, write: bool)
    ensures
      Counter(Run(s, es), write) + Begun(Run(s, es), write) ==
      Counter(s, write) + Begun(s, write) + SumOf(Tally(s, es, write))
    decreases |es|
  {
    if es == [] {
      assert Tally(s, es, write) == seq(|s.threads|, _ => 0);
      ZeroSum(|s.threads|);
    } else {
      StepCounts(s, es[0], write);
      StepTallies(s, es, write);
      RunTallies(Step(s, es[0]), es[1..], write);
    }
  }

  // ----- What the workers did -----

  /** The kinds of the successful operations, as they were pushed. */
  function Kinds(log: IoUring.Log): seq<bool>
    requires log.KindsRecorded()
  {
    seq(|log.recorded|, i requires 0 <= i < |log.recorded| => log.issued[log.recorded[i].id].write)
  }

  predicate AllSettled(logs: seq<IoUring.Log>) { forall t :: 0 <= t < |logs| ==> logs[t].Settled() }

  /** The workers have stopped by themselves, and thread t of the run is worker t. */
  predicate WorkersOf(logs: seq<IoUring.Log>, s: Shared, es: seq<Event>) {
    && |logs| == |s.threads| && AllSettled(logs)
    && forall t :: 0 <= t < |logs| ==> Calls(s, es, t) == logs[t].calls
  }

  function Pushes(logs: seq<IoUring.Log>): nat {
    if logs == [] then 0 else |logs[0].issued| + Pushes(logs[1..])
  }

  function Successes(logs: seq<IoUring.Log>): nat {
    if logs == [] then 0 else |logs[0].recorded| + Successes(logs[1..])
  }

  function Failures(logs: seq<IoUring.Log>): nat {
    if logs == [] then 0 else |logs[0].errored| + Failures(logs[1..])
  }

  /** How many successful operations were pushed as writes, or as reads. */
  function SuccessesOfKind(logs: seq<IoUring.Log>, write: bool): nat
    requires AllSettled(logs)
  {
    if logs == [] then 0 else OfKind(Kinds(logs[0]), write) + SuccessesOfKind(logs[1..], write)
  }

  lemma {:induction false} TalliesAreSuccesses(logs: seq<IoUring.Log>, tally: seq<nat>, write: bool)
    requires |tally| == |logs| && AllSettled(logs)
    requires forall t :: 0 <= t < |logs| ==> tally[t] == OfKind(logs[t].calls, write)
    ensures SumOf(tally) == SuccessesOfKind(logs, write)
  {
    if logs != [] {
      assert Kinds(logs[0]) == logs[0].calls;
      TalliesAreSuccesses(logs[1..], tally[1..], write);
    }
  }

  lemma {:induction false} WorkersAddUp(logs: seq<IoUring.Log>)
    requires AllSettled(logs)
    ensures Pushes(logs) == Successes(logs) + Failures(logs)
    ensures SuccessesOfKind(logs, true) + SuccessesOfKind(logs, false) == Successes(logs)
  {
    if logs != [] {
      BothKinds(Kinds(logs[0]));
      WorkersAddUp(logs[1..]);
    }
  }

  /** Whatever way the workers' calls of record interleave: once they have joined, the
      operations finish reports are the successful completions of all workers, by kind as
      they were pushed and in all, and every pushed operation is reported or failed. The
      reported intervals hold them all but those that ended after the last bucket. */
  lemma ReportedTotals(logs: seq<IoUring.Log>, buckets: nat, bs: nat, es: seq<Event>)
    requires WorkersOf(logs, Fresh(|logs|, buckets), es) && Joined(Run(Fresh(|logs|, buckets), es))
    ensures
      var s := Run(Fresh(|logs|, buckets), es);
      && s.total == Successes(logs) == Pushes(logs) - Failures(logs)
      && s.writeCount == SuccessesOfKind(logs, true)
      && s.readCount == SuccessesOfKind(logs, false)
      && TotalOps(Intervals(s.buckets, bs)) + s.late == s.total
  {
    var start := Fresh(|logs|, buckets);
    var s := Run(start, es);
    InterleavingsConserve(|logs|, buckets, es);
    IntervalsConserve(s.buckets, bs);
    WorkersAddUp(logs);
    CallsOfKind(logs, start, es, true);
    CallsOfKind(logs, start, es, false);
  }

  lemma CallsOfKind(logs: seq<IoUring.Log>, s: Shared, es: seq<Event>, write: bool)
    requires WorkersOf(logs, s, es) && Counter(s, write) == 0 && Joined(s) && Joined(Run(s, es))
    ensures Counter(Run(s, es), write) == SuccessesOfKind(logs, write)
  {
    RunTallies(s, es, write);
    NoneBegun(s.threads, write);
    NoneBegun(Run(s, es).threads, write);
    TalliesAreSuccesses(logs, Tally(s, es, write), write);
  }

  lemma {:induction false} NoneBegun(threads: seq<Thread>, write: bool)
    requires forall i :: 0 <= i < |threads| ==> threads[i] == Quiet
    ensures Count(threads, IsBegun(write)) == 0
  {
    if threads != [] { NoneBegun(threads[1..], write); }
  }
}
