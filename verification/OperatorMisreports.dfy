/** When the outcome of one spec's Job is reported as another's, whatever state a crash left. */
module OperatorMisreports {
  import opened Options
  import opened OperatorModel
  import opened OperatorSafety
  import opened OperatorScenarios
  import opened OperatorReports

  predicate Finished(job: Job) { job.succeeded || job.failed }

  /** A reconcile looks up a finished Job of another hash than it has read, and nothing tells it
      so: the stored hash is absent or the one read, no retry is asked for, and the resource is not
      completed. */
  predicate WrongObservation(d: Digest, s: State) {
    && s.pc.GetJob? && s.c.job.Some? && Finished(s.c.job.value)
    && SpecHash(d, s.c.job.value.from) != s.pc.r.hash
    && (s.pc.r.stored == None || s.pc.r.stored == Some(s.pc.r.hash))
    && !s.pc.r.requested && s.pc.r.phase != Completed
  }

  predicate IsOutcome(status: Status) { status.phase == Completed || status.phase == Failed }

  /** An outcome of a Job of another hash than was read is about to be reported. */
  predicate WrongUnderWay(d: Digest, s: State) {
    match s.pc
    case ReadResult(r, job) => SpecHash(d, job.from) != r.hash
    case StampHash(r, status, Some(job)) => SpecHash(d, job.from) != r.hash && IsOutcome(status)
    case WriteStatus(r, status, Some(job)) => SpecHash(d, job.from) != r.hash && IsOutcome(status)
    case _ => false
  }

  /** Some call of the run was such a lookup. */
  predicate WronglyObserved(d: Digest, s: State, ls: seq<Label>) {
    ls != [] &&
    var n := |ls| - 1;
    WronglyObserved(d, s, ls[..n]) || (ls[n].Operator? && WrongObservation(d, Run(d, s, ls[..n])))
  }

  /** Some call of the run wrote such an outcome. */
  predicate WronglyReported(d: Digest, s: State, ls: seq<Label>) {
    ls != [] &&
    var n := |ls| - 1;
    var t := Run(d, s, ls[..n]);
    WronglyReported(d, s, ls[..n]) || (ls[n].Operator? && t.pc.WriteStatus? && WrongUnderWay(d, t))
  }

  lemma WrongStep(d: Digest, s: State, l: Label)
    ensures WrongUnderWay(d, Step(d, s, l)) <==>
      if l.Operator? then WrongObservation(d, s) || (WrongUnderWay(d, s) && !s.pc.WriteStatus?)
      else WrongUnderWay(d, s)
  {
    hide SpecHash;
  }

  lemma RunLast(d: Digest, s: State, ls: seq<Label>)
    requires ls != []
    ensures Run(d, s, ls) == Step(d, Run(d, s, ls[..|ls| - 1]), ls[|ls| - 1])
  {
    var n := |ls| - 1;
    assert ls == ls[..n] + [ls[n]];
    RunConcat(d, s, ls[..n], [ls[n]]);
    RunOnce(d, Run(d, s, ls[..n]), ls[n]);
  }

  /** From any idle state, crashes before it included: a wrong outcome has been reported or is about
      to be, exactly if some reconcile of the run looked up a Job in that way. */
  lemma {:induction false} MisreportIff(d: Digest, s: State, ls: seq<Label>)
    requires s.pc == Idle
    ensures WronglyReported(d, s, ls) || WrongUnderWay(d, Run(d, s, ls)) <==> WronglyObserved(d, s, ls)
    decreases |ls|
  {
    if ls != [] {
      hide SpecHash, WrongUnderWay, WrongObservation, Step;
      var n := |ls| - 1;
      MisreportIff(d, s, ls[..n]);
      RunLast(d, s, ls);
      WrongStep(d, Run(d, s, ls[..n]), ls[n]);
    }
  }

  // ----- Which crashes can be followed by a wrong report at all -----

  /** A valid spec of another hash that does not count as changed. */
  predicate Passes(d: Digest, hash: string, stored: Option<string>, b: Spec) {
    && FromUnstructured(Some(b)).Success? && SpecHash(d, b) != hash
    && (stored == None || stored == Some(SpecHash(d, b)))
  }

  ghost predicate SomePasses(d: Digest, hash: string, stored: Option<string>) {
    exists b :: Passes(d, hash, stored, b)
  }

  predicate JobHash(d: Digest, c: Cluster, hash: string) {
    c.job.Some? ==> SpecHash(d, c.job.value.from) == hash
  }

  /** The Job has the stored hash, or it is the one the crash left. */
  predicate KnownJob(d: Digest, c: Cluster, hash: string, stored: Option<string>) {
    c.job.Some? ==>
      var from := SpecHash(d, c.job.value.from);
      c.cr.specHash == Some(from) || (from == hash && c.cr.specHash == stored)
  }

  predicate CurrentReading(d: Digest, c: Cluster, r: Reading) {
    FromUnstructured(Some(r.spec)).Success? && Fresh(d, c, r)
  }

  predicate Unharmed(d: Digest, s: State, hash: string, stored: Option<string>) {
    match s.pc
    case MarkRetry(r) => JobHash(d, s.c, r.hash)
    case StampHash(r, _, _) => JobHash(d, s.c, r.hash)
    case ReadResult(r, job) => JobHash(d, s.c, r.hash) && KnownJob(d, s.c, hash, stored)
    case GetJob(r) => CurrentReading(d, s.c, r) && KnownJob(d, s.c, hash, stored)
    case CreateJob(r) => CurrentReading(d, s.c, r) && KnownJob(d, s.c, hash, stored)
    case RemoveFile(r) => CurrentReading(d, s.c, r) && KnownJob(d, s.c, hash, stored)
    case DeleteJob(r) => CurrentReading(d, s.c, r) && KnownJob(d, s.c, hash, stored)
    case PatchPending(r) => CurrentReading(d, s.c, r) && KnownJob(d, s.c, hash, stored)
    case UpsertConfigMap(r) => CurrentReading(d, s.c, r) && KnownJob(d, s.c, hash, stored)
    case _ => KnownJob(d, s.c, hash, stored)
  }

  lemma LookupUnharmed(d: Digest, s: State, hash: string, stored: Option<string>)
    requires Unharmed(d, s, hash, stored) && !SomePasses(d, hash, stored) && s.pc.GetJob?
    ensures !WrongObservation(d, s) && Unharmed(d, Step(d, s, Operator), hash, stored)
  {
    hide SpecHash, FromUnstructured;
    assert !Passes(d, hash, stored, s.pc.r.spec);
  }

  lemma CallUnharmed(d: Digest, s: State, hash: string, stored: Option<string>)
    requires Unharmed(d, s, hash, stored) && !s.pc.GetJob?
    ensures Unharmed(d, Step(d, s, Operator), hash, stored)
  {
    hide SpecHash;
  }

  lemma OutsideUnharmed(d: Digest, s: State, e: Env, hash: string, stored: Option<string>)
    requires Unharmed(d, s, hash, stored)
    ensures Unharmed(d, Step(d, s, Outside(e)), hash, stored)
  {
    hide SpecHash, FromUnstructured;
  }

  lemma StepUnharmed(d: Digest, s: State, l: Label, hash: string, stored: Option<string>)
    requires Unharmed(d, s, hash, stored) && !SomePasses(d, hash, stored)
    ensures Unharmed(d, Step(d, s, l), hash, stored)
  {
    hide Unharmed, SomePasses, Step;
    if l.Outside? {
      OutsideUnharmed(d, s, l.e, hash, stored);
    } else if s.pc.GetJob? {
      LookupUnharmed(d, s, hash, stored);
    } else {
      CallUnharmed(d, s, hash, stored);
    }
  }

  lemma {:induction false} RunUnharmed(d: Digest, s: State, ls: seq<Label>, hash: string, stored: Option<string>)
    requires Unharmed(d, s, hash, stored) && !SomePasses(d, hash, stored)
    ensures Unharmed(d, Run(d, s, ls), hash, stored)
    decreases |ls|
  {
    if ls != [] {
      hide Unharmed, SomePasses, Step;
      StepUnharmed(d, s, ls[0], hash, stored);
      RunUnharmed(d, Step(d, s, ls[0]), ls[1..], hash, stored);
    }
  }

  lemma {:induction false} NeverWrong(d: Digest, s: State, ls: seq<Label>, hash: string, stored: Option<string>)
    requires s.pc == Idle && Unharmed(d, s, hash, stored) && !SomePasses(d, hash, stored)
    ensures !WronglyReported(d, s, ls) && !WronglyObserved(d, s, ls)
    decreases |ls|
  {
    if ls != [] {
      var n := |ls| - 1;
      hide Unharmed, SomePasses, WrongObservation, WrongUnderWay;
      NeverWrong(d, s, ls[..n], hash, stored);
      RunUnharmed(d, s, ls[..n], hash, stored);
      if Run(d, s, ls[..n]).pc.GetJob? {
        LookupUnharmed(d, Run(d, s, ls[..n]), hash, stored);
      } else {
        OnlyLookups(d, Run(d, s, ls[..n]));
      }
    }
    MisreportIff(d, s, ls);
  }

  lemma OnlyLookups(d: Digest, s: State)
    requires !s.pc.GetJob?
    ensures !WrongObservation(d, s)
  {
  }

  /** What is under way is reported, if the operator goes on. */
  lemma {:induction false} WrongEnds(d: Digest, s: State, ls: seq<Label>) returns (all: seq<Label>)
    requires WrongUnderWay(d, Run(d, s, ls))
    ensures WronglyReported(d, s, all)
    decreases Remaining(Run(d, s, ls).pc)
  {
    var t := Run(d, s, ls);
    all := ls + [Operator];
    assert all[..|ls|] == ls;
    if !t.pc.WriteStatus? {
      RunLast(d, s, all);
      WrongStep(d, t, Operator);
      all := WrongEnds(d, s, all);
    }
  }

  /** A retry is asked for while the Job is there: it is deleted and lingers. */
  function Lingering(c: Cluster, b: Spec, job: Job): Cluster {
    PutStatus(c.(job := Some(job.(terminating := true)), statusFile := None, configMap := Some(b)),
              Status(Pending, "", WaitingForCleanup), None)
  }

  lemma TearsAndWaits(d: Digest, c: Cluster, b: Spec)
    requires c.cr.spec == Some(b) && FromUnstructured(Some(b)).Success? && RetryRequested(c.cr) && c.job.Some?
    ensures Run(d, State(c, Idle), Times(5) + Times(3)) == State(Lingering(c, b, c.job.value), Idle)
  {
    hide SpecHash, Run;
    UsableIff(b);
    TeardownStarts(d, c, b);
    var torn := Run(d, State(c, Idle), Times(5)).c;
    RunConcat(d, State(c, Idle), Times(5), Times(3));
    WaitsForCleanup(d, torn, ReadingOf(d, c, b));
  }

  /** A token that asks for a retry. */
  function AnotherToken(cr: Resource): string { cr.retryApplied + "!" }

  /** The edits that make a lingering Job pass for one of spec b. */
  function Misleading(c: Cluster, b: Spec): seq<Label> {
    [Outside(EditRetry(AnotherToken(c.cr))), Outside(EditSpec(Some(b)))] + (Times(5) + Times(3))
  }

  function Misled(c: Cluster, b: Spec, job: Job): Cluster {
    Lingering(c.(cr := c.cr.(spec := Some(b), retry := AnotherToken(c.cr))), b, job)
  }

  lemma ReachesMisled(d: Digest, c: Cluster, b: Spec)
    requires FromUnstructured(Some(b)).Success? && c.job.Some?
    ensures Run(d, State(c, Idle), Misleading(c, b)) == State(Misled(c, b, c.job.value), Idle)
  {
    hide Run;
    var first, second := Outside(EditRetry(AnotherToken(c.cr))), Outside(EditSpec(Some(b)));
    var s := State(c, Idle);
    assert [first, second] == [first] + [second];
    RunConcat(d, s, [first, second], Times(5) + Times(3));
    RunConcat(d, s, [first], [second]);
    RunOnce(d, s, first);
    RunOnce(d, Step(d, s, first), second);
    assert AnotherToken(c.cr)[|c.cr.retryApplied|] == '!';
    TearsAndWaits(d, c.(cr := c.cr.(spec := Some(b), retry := AnotherToken(c.cr))), b);
  }

  /** The request is withdrawn, the Job ends, and the next reconcile looks it up. */
  lemma MisledLooksUp(d: Digest, c: Cluster, b: Spec, job: Job)
    requires Passes(d, SpecHash(d, job.from), c.cr.specHash, b)
    ensures
      var s := State(Misled(c, b, job), Idle);
      WrongObservation(d, Run(d, s, [Outside(EditRetry("")), Outside(JobFails)] + [Operator]))
  {
    hide SpecHash, Run;
    var first, second := Outside(EditRetry("")), Outside(JobFails);
    var s := State(Misled(c, b, job), Idle);
    assert [first, second] == [first] + [second];
    RunConcat(d, s, [first, second], [Operator]);
    RunConcat(d, s, [first], [second]);
    RunOnce(d, s, first);
    RunOnce(d, Step(d, s, first), second);
    RunOnce(d, Step(d, Step(d, s, first), second), Operator);
  }

  lemma CanMislead(d: Digest, c: Cluster, b: Spec) returns (ls: seq<Label>)
    requires c.job.Some? && Passes(d, SpecHash(d, c.job.value.from), c.cr.specHash, b)
    ensures WronglyReported(d, State(c, Idle), ls)
  {
    hide WrongObservation, WrongUnderWay, Run, SpecHash;
    var s := State(c, Idle);
    var more := [Outside(EditRetry("")), Outside(JobFails)] + [Operator];
    ReachesMisled(d, c, b);
    RunConcat(d, s, Misleading(c, b), more);
    MisledLooksUp(d, c, b, c.job.value);
    var before := Misleading(c, b) + more;
    ls := before + [Operator];
    assert ls[..|before|] == before;
    RunLast(d, s, ls);
    WrongStep(d, Run(d, s, before), Operator);
    ls := WrongEnds(d, s, ls);
  }

  /** Whatever happens after a crash, an outcome can be reported for the wrong spec exactly if the
      crash came between the creation of the Job and the stamp of a hash that was not stored yet,
      and some valid spec of another hash has the stored one, or any if none is stored. */
  lemma CrashMisleadsIff(d: Digest, s: State)
    requires Inv(d, s)
    ensures
      (exists ls :: WronglyReported(d, Crash(s), ls)) <==>
      JobAhead(s.pc) && s.c.cr.specHash != Some(s.pc.r.hash) && SomePasses(d, s.pc.r.hash, s.c.cr.specHash)
  {
    hide Inv, WronglyReported, Run;
    if JobAhead(s.pc) && s.c.cr.specHash != Some(s.pc.r.hash) {
      AheadOfStamp(d, s);
      if SomePasses(d, s.pc.r.hash, s.c.cr.specHash) {
        var b :| Passes(d, s.pc.r.hash, s.c.cr.specHash, b);
        var ls := CanMislead(d, s.c, b);
      } else {
        forall ls ensures !WronglyReported(d, Crash(s), ls) {
          NeverWrong(d, Crash(s), ls, s.pc.r.hash, s.c.cr.specHash);
        }
      }
    } else {
      StampedIsUnharmed(d, s);
      forall ls ensures !WronglyReported(d, Crash(s), ls) { NeverWrong(d, Crash(s), ls, "", Some("")); }
    }
  }

  lemma AheadOfStamp(d: Digest, s: State)
    requires Inv(d, s) && JobAhead(s.pc)
    ensures s.c.job.Some? && SpecHash(d, s.c.job.value.from) == s.pc.r.hash
    ensures Unharmed(d, Crash(s), s.pc.r.hash, s.c.cr.specHash)
  {
    hide SpecHash;
  }

  lemma StampedIsUnharmed(d: Digest, s: State)
    requires Inv(d, s) && (JobAhead(s.pc) ==> s.c.cr.specHash == Some(s.pc.r.hash))
    ensures Unharmed(d, Crash(s), "", Some("")) && !SomePasses(d, "", Some(""))
  {
    hide SpecHash;
  }

  /** The hash is that of a valid spec. */
  ghost predicate HashOfSpec(d: Digest, hash: string) {
    exists b :: FromUnstructured(Some(b)).Success? && SpecHash(d, b) == hash
  }

  ghost predicate HashesOfSpecs(d: Digest, s: State) {
    && (s.c.cr.specHash.Some? ==> HashOfSpec(d, s.c.cr.specHash.value))
    && (!s.pc.Idle? && !s.pc.RejectSpec? ==> HashOfSpec(d, s.pc.r.hash))
  }

  lemma ReadHashOfSpec(d: Digest, c: Cluster)
    ensures Read(d, c.cr).GetJob? ==> HashOfSpec(d, Read(d, c.cr).r.hash)
  {
    hide SpecHash;
  }

  lemma {:induction false} RunHashesOfSpecs(d: Digest, s: State, ls: seq<Label>)
    requires HashesOfSpecs(d, s)
    ensures HashesOfSpecs(d, Run(d, s, ls))
    decreases |ls|
  {
    hide SpecHash, HashOfSpec;
    if ls != [] {
      ReadHashOfSpec(d, s.c);
      RunHashesOfSpecs(d, Step(d, s, ls[0]), ls[1..]);
    }
  }

  /** On a run every stored hash is that of some valid spec the user can go back to: with a hash
      stored, each crash before the stamp of another one can mislead. */
  lemma CrashOfRunMisleadsIff(d: Digest, spec: Option<Spec>, retry: string, before: seq<Label>)
    ensures
      var s := Run(d, Initial(spec, retry), before);
      (exists ls :: WronglyReported(d, Crash(s), ls)) <==>
      && JobAhead(s.pc) && s.c.cr.specHash != Some(s.pc.r.hash)
      && (s.c.cr.specHash.None? ==> exists b :: FromUnstructured(Some(b)).Success? && SpecHash(d, b) != s.pc.r.hash)
  {
    hide WronglyReported, Run, SpecHash, FromUnstructured;
    var s := Run(d, Initial(spec, retry), before);
    RunKeeps(d, Initial(spec, retry), before);
    RunHashesOfSpecs(d, Initial(spec, retry), before);
    CrashMisleadsIff(d, s);
    if JobAhead(s.pc) && s.c.cr.specHash != Some(s.pc.r.hash) {
      if s.c.cr.specHash.Some? {
        var b :| FromUnstructured(Some(b)).Success? && SpecHash(d, b) == s.c.cr.specHash.value;
        assert Passes(d, s.pc.r.hash, s.c.cr.specHash, b);
      } else if b: Spec :| FromUnstructured(Some(b)).Success? && SpecHash(d, b) != s.pc.r.hash {
        assert Passes(d, s.pc.r.hash, None, b);
      }
    }
  }

  // ----- The other way a crash misreports -----

  /** The second Job of a run is lost before its stamp, and the user goes back to the first spec. */
  function Reverted(d: Digest, a: Spec, b: Spec, result: ApplyResult): State {
    var before := Crash(SecondCreated(d, a, b, ""));
    Step(d, Step(d, before, Outside(EditSpec(Some(a)))), Outside(JobSucceeds(Some(result))))
  }

  /** The next reconcile reads the first spec and finds the second one's Job. */
  function RevertedRead(d: Digest, a: Spec, b: Spec, result: ApplyResult): State {
    var r := Reading(a, SpecHash(d, a), Pending, Some(SpecHash(d, a)), "", false);
    State(Reverted(d, a, b, result).c, ReadResult(r, FreshJob(b).(succeeded := true, wrote := Some(result))))
  }

  lemma ReachesRevertedRead(d: Digest, a: Spec, b: Spec, result: ApplyResult)
    requires FromUnstructured(Some(a)).Success?
    ensures Step(d, Step(d, Reverted(d, a, b, result), Operator), Operator) == RevertedRead(d, a, b, result)
    ensures Reverted(d, a, b, result).c.statusFile == Some(result)
  {
    hide SpecHash;
  }

  lemma RevertedIsReported(d: Digest, a: Spec, b: Spec, result: ApplyResult)
    requires FromUnstructured(Some(a)).Success?
    ensures
      var after := Run(d, Reverted(d, a, b, result), Times(5));
      && after.pc == Idle && after.c.cr.status == ResultStatus(Some(result))
      && after.c.cr.specHash == Some(SpecHash(d, a)) && after.c.source.Some? && after.c.source.value.from == b
  {
    hide SpecHash, Run, FromUnstructured, Reverted, Read, Dispatch;
    var s := Reverted(d, a, b, result);
    RunTimes(d, s, 4);
    RunTimes(d, Step(d, s, Operator), 3);
    ReachesRevertedRead(d, a, b, result);
    RunThreeTimes(d, RevertedRead(d, a, b, result));
  }

  /** With a hash stored the way back is as wrong as any other edit without one: the Job of the
      second spec is reported as the completed run of the first. */
  lemma RevertMisattributes(d: Digest, a: Spec, b: Spec, result: ApplyResult)
    requires FromUnstructured(Some(a)).Success? && FromUnstructured(Some(b)).Success?
    requires SpecHash(d, a) != SpecHash(d, b)
    ensures
      var before := Run(d, Initial(Some(a), ""), TwoRuns(b, ""));
      var events := [Outside(EditSpec(Some(a))), Outside(JobSucceeds(Some(result)))];
      var after := Run(d, Crash(before), events + Times(5));
      && Exposed(d, before)
      && after.c.cr.status.phase == Completed && after.c.cr.status.runId == result.runId
      && after.c.cr.specHash == Some(SpecHash(d, a)) && after.c.source.Some? && after.c.source.value.from == b
  {
    hide SpecHash, Run, Step;
    var revert, success := Outside(EditSpec(Some(a))), Outside(JobSucceeds(Some(result)));
    ReachesSecond(d, a, b, "");
    var crashed := Crash(SecondCreated(d, a, b, ""));
    RunConcat(d, crashed, [revert, success], Times(5));
    RunConcat(d, crashed, [revert], [success]);
    assert [revert] + [success] == [revert, success];
    RunOnce(d, crashed, revert);
    RunOnce(d, Step(d, crashed, revert), success);
    RevertedIsReported(d, a, b, result);
  }
}
