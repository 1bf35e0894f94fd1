/** Which result a completed resource reports: the status file has no owner, and it is read
    once. */
module OperatorResults {
  import opened Options
  import opened OperatorModel
  import opened OperatorSafety
  import opened OperatorConvergence
  import opened OperatorScenarios

  // ----- The file is read at one call -----

  predicate Answerless(c: Cluster, d: Digest, b: Spec) {
    && c.cr.spec == Some(b) && FromUnstructured(Some(b)).Success?
    && c.cr.specHash == Some(SpecHash(d, b)) && !RetryRequested(c.cr)
  }

  /** On the way from reading the file to the final status of this Job; left is how many calls are
      missing. */
  predicate Reporting(d: Digest, s: State, b: Spec, status: Status, job: Job, left: nat) {
    && Answerless(s.c, d, b) && status.phase == Completed
    && match left
       case 0 => Final(d, s, b) && s.c.cr.status == status && s.c.source == Some(job)
       case 1 => s.pc.WriteStatus? && s.pc.status == status && s.pc.seen == Some(job)
       case _ =>
         && left == 2 && s.pc.StampHash? && s.pc.status == status && s.pc.seen == Some(job)
         && s.pc.r.hash == SpecHash(d, b)
  }

  lemma ReportingStep(d: Digest, s: State, b: Spec, status: Status, job: Job, left: nat, l: Label)
    requires Reporting(d, s, b, status, job, left) && (l.Outside? ==> !IsEdit(l.e))
    ensures Reporting(d, Step(d, s, l), b, status, job, if l.Operator? && left > 0 then left - 1 else left)
  {
    hide SpecHash;
  }

  function Calls(ls: seq<Label>): nat {
    if ls == [] then 0 else (if ls[0].Operator? then 1 else 0) + Calls(ls[1..])
  }

  lemma {:induction false} ReportingEnds(d: Digest, s: State, b: Spec, status: Status, job: Job, left: nat,
                                         ls: seq<Label>)
    requires Reporting(d, s, b, status, job, left) && CalmLabels(ls) && Calls(ls) >= left
    ensures Reporting(d, Run(d, s, ls), b, status, job, 0)
    decreases |ls|
  {
    hide Reporting, Step;
    if ls != [] {
      var less := if ls[0].Operator? && left > 0 then left - 1 else left;
      ReportingStep(d, s, b, status, job, left, ls[0]);
      ReportingEnds(d, Step(d, s, ls[0]), b, status, job, less, ls[1..]);
    }
  }

  /** A reconcile of a run is about to read the status file, and nothing else is asked for. */
  predicate AboutToRead(d: Digest, s: State, b: Spec) {
    s.pc.ReadResult? && s.c.cr.spec == Some(b) && FromUnstructured(Some(b)).Success? && !Outstanding(d, s.c, b)
  }

  /** Once it has written its status, and for as long as nobody edits, the resource shows what the
      file held at that one call, for the Job it had observed. */
  lemma ReadingDecides(d: Digest, spec: Option<Spec>, retry: string, before: seq<Label>, b: Spec, after: seq<Label>)
    requires AboutToRead(d, Run(d, Initial(spec, retry), before), b)
    requires CalmLabels(after) && Calls(after) >= 2
    ensures
      var s := Run(d, Initial(spec, retry), before);
      var c := Run(d, Step(d, s, Operator), after).c;
      c.cr.status == ResultStatus(s.c.statusFile) && c.source == Some(s.pc.job)
  {
    var s := Run(d, Initial(spec, retry), before);
    RunKeeps(d, Initial(spec, retry), before);
    assert s.c.cr.specHash == Some(s.pc.r.hash);
    ReportingEnds(d, Step(d, s, Operator), b, ResultStatus(s.c.statusFile), s.pc.job, 2, after);
  }

  /** The run id of the file is reported if and only if the file was there at that call, and
      otherwise there is none for ever. */
  lemma RunIdReportedIff(d: Digest, spec: Option<Spec>, retry: string, before: seq<Label>, b: Spec, after: seq<Label>)
    requires AboutToRead(d, Run(d, Initial(spec, retry), before), b)
    requires CalmLabels(after) && Calls(after) >= 2
    ensures
      var s := Run(d, Initial(spec, retry), before);
      var status := Run(d, Step(d, s, Operator), after).c.cr.status;
      && status.phase == Completed
      && (status.message.ProfileRan? <==> s.c.statusFile.Some?)
      && (s.c.statusFile.Some? ==>
            status.runId == s.c.statusFile.value.runId && status.message.profile == s.c.statusFile.value.profile)
      && (s.c.statusFile.None? ==> status.runId == "" && status.message == StatusFilePending)
  {
    ReadingDecides(d, spec, retry, before, b, after);
  }

  // ----- Whose result it is -----

  /** Every success leaves its result in the file, and nothing else does. */
  predicate Prompt(l: Label) {
    l.Outside? ==> !l.e.ResultAppears? && (l.e.JobSucceeds? ==> l.e.written.Some?)
  }

  predicate AllPrompt(ls: seq<Label>) { forall i :: 0 <= i < |ls| ==> Prompt(ls[i]) }

  /** The file, if it is there, is this Job's. */
  predicate OwnFile(file: Option<ApplyResult>, job: Job) { job.wrote.Some? && (file.None? || file == job.wrote) }

  /** No result, or the Job's own. */
  predicate OwnResult(status: Status, job: Job) {
    job.wrote.Some? && (status == ResultStatus(None) || status == ResultStatus(job.wrote))
  }

  predicate ResultInv(s: State) {
    && (s.c.job.Some? && s.c.job.value.succeeded ==> OwnFile(s.c.statusFile, s.c.job.value))
    && (s.c.cr.status.phase == Completed ==> s.c.source.Some? && OwnResult(s.c.cr.status, s.c.source.value))
    && match s.pc
       case ReadResult(_, job) => OwnFile(s.c.statusFile, job) && (s.c.job.Some? ==> s.c.job.value.succeeded)
       case StampHash(_, status, seen) => status.phase == Completed ==> seen.Some? && OwnResult(status, seen.value)
       case WriteStatus(_, status, seen) => status.phase == Completed ==> seen.Some? && OwnResult(status, seen.value)
       case _ => true
  }

  lemma CallKeepsResult(d: Digest, s: State)
    requires ResultInv(s) && !s.pc.GetJob? && !s.pc.CreateJob?
    ensures ResultInv(Step(d, s, Operator))
  {
  }

  lemma CreationKeepsResult(d: Digest, s: State)
    requires ResultInv(s) && s.pc.CreateJob?
    ensures ResultInv(Step(d, s, Operator))
  {
  }

  lemma DispatchKeepsResult(d: Digest, s: State)
    requires ResultInv(s) && s.pc.GetJob?
    ensures ResultInv(Step(d, s, Operator))
  {
  }

  lemma OutsideKeepsResult(d: Digest, s: State, e: Env)
    requires ResultInv(s) && Prompt(Outside(e))
    ensures ResultInv(Step(d, s, Outside(e)))
  {
  }

  lemma {:induction false} RunKeepsResult(d: Digest, s: State, ls: seq<Label>)
    requires ResultInv(s) && AllPrompt(ls)
    ensures ResultInv(Run(d, s, ls))
    decreases |ls|
  {
    if ls != [] {
      assert Prompt(ls[0]);
      if ls[0].Outside? {
        OutsideKeepsResult(d, s, ls[0].e);
      } else if s.pc.GetJob? {
        DispatchKeepsResult(d, s);
      } else if s.pc.CreateJob? {
        CreationKeepsResult(d, s);
      } else {
        CallKeepsResult(d, s);
      }
      RunKeepsResult(d, Step(d, s, ls[0]), ls[1..]);
    }
  }

  /** While every success writes the file and nothing else does, a run id is never another
      Job's: a completed resource reports the result written by the very Job it speaks of, or,
      if a teardown had removed the file, none. */
  lemma ResultIsTheJobsOwn(d: Digest, spec: Option<Spec>, retry: string, ls: seq<Label>)
    requires AllPrompt(ls)
    ensures
      var c := Run(d, Initial(spec, retry), ls).c;
      c.cr.status.phase == Completed ==>
        && c.source.Some? && c.source.value.succeeded && c.source.value.wrote.Some?
        && (c.cr.status == ResultStatus(c.source.value.wrote) || c.cr.status == ResultStatus(None))
  {
    RunKeepsResult(d, Initial(spec, retry), ls);
    RunKeeps(d, Initial(spec, retry), ls);
  }

  /** In general: exactly if at the one call that reads it the file is not there or is the one
      that the observed Job wrote. */
  lemma OwnResultIff(d: Digest, spec: Option<Spec>, retry: string, before: seq<Label>, b: Spec, after: seq<Label>)
    requires AboutToRead(d, Run(d, Initial(spec, retry), before), b)
    requires CalmLabels(after) && Calls(after) >= 2
    ensures
      var s := Run(d, Initial(spec, retry), before);
      var c := Run(d, Step(d, s, Operator), after).c;
      && c.source.Some?
      && (c.cr.status == ResultStatus(None) || c.cr.status == ResultStatus(c.source.value.wrote) <==>
            s.c.statusFile.None? || s.c.statusFile == s.pc.job.wrote)
  {
    ReadingDecides(d, spec, retry, before, b, after);
  }

  /** The second Job of a run has ended well, and then a result of the first appears. */
  function LateResult(b: Spec, own: ApplyResult, stale: ApplyResult): seq<Label> {
    TwoRuns(b, "") + (Times(2) + ([Outside(JobSucceeds(Some(own))), Outside(ResultAppears(stale))] + Times(5)))
  }

  /** What the last reconcile starts from. */
  function LateState(d: Digest, a: Spec, b: Spec, own: ApplyResult, stale: ApplyResult): State {
    var cr := Resource(Some(b), Some(SpecHash(d, b)), "", "", JOB_CREATED);
    var job := Job(b, true, false, false, Some(own));
    State(Cluster(cr, Some(job), Some(b), Some(stale), SecondCreations(a, b, ""), [], None), Idle)
  }

  lemma ReachesLateState(d: Digest, a: Spec, b: Spec, own: ApplyResult, stale: ApplyResult)
    ensures
      var ls := Times(2) + [Outside(JobSucceeds(Some(own))), Outside(ResultAppears(stale))];
      Run(d, SecondCreated(d, a, b, ""), ls) == LateState(d, a, b, own, stale)
  {
    hide SpecHash, Run;
    var s := SecondCreated(d, a, b, "");
    var first, second := Outside(JobSucceeds(Some(own))), Outside(ResultAppears(stale));
    RunTimes(d, s, 1);
    RunTimes(d, Step(d, s, Operator), 0);
    RunTimes(d, Step(d, Step(d, s, Operator), Operator), 0);
    RunConcat(d, s, Times(2), [first, second]);
    RunConcat(d, Step(d, Step(d, s, Operator), Operator), [first], [second]);
    assert [first] + [second] == [first, second];
    RunOnce(d, Step(d, Step(d, s, Operator), Operator), first);
    RunOnce(d, Step(d, Step(d, Step(d, s, Operator), Operator), first), second);
  }

  lemma ReportsLateResult(d: Digest, a: Spec, b: Spec, own: ApplyResult, stale: ApplyResult)
    requires FromUnstructured(Some(b)).Success?
    ensures
      var c := Run(d, LateState(d, a, b, own, stale), Times(5)).c;
      c.cr.status == ResultStatus(Some(stale)) && c.source == Some(Job(b, true, false, false, Some(own)))
  {
    hide SpecHash, Run;
    var s := LateState(d, a, b, own, stale);
    RunTimes(d, s, 4);
    RunTimes(d, Step(d, s, Operator), 3);
    RunThreeTimes(d, Step(d, Step(d, s, Operator), Operator));
  }

  /** An old Job's late result is reported as the run of the Job for the edited spec. */
  lemma LateResultMisreported(d: Digest, a: Spec, b: Spec, own: ApplyResult, stale: ApplyResult)
    requires FromUnstructured(Some(a)).Success? && FromUnstructured(Some(b)).Success?
    requires SpecHash(d, a) != SpecHash(d, b)
    ensures
      var c := Run(d, Initial(Some(a), ""), LateResult(b, own, stale)).c;
      && c.cr.status.phase == Completed && c.cr.status.runId == stale.runId
      && c.source.Some? && c.source.value.from == b && c.source.value.wrote == Some(own)
  {
    hide SpecHash, Run, Step;
    var events := [Outside(JobSucceeds(Some(own))), Outside(ResultAppears(stale))];
    ReachesSecond(d, a, b, "");
    RunConcat(d, Initial(Some(a), ""), TwoRuns(b, ""), Times(2) + (events + Times(5)));
    assert Times(2) + (events + Times(5)) == (Times(2) + events) + Times(5);
    RunConcat(d, SecondCreated(d, a, b, ""), Times(2) + events, Times(5));
    ReachesLateState(d, a, b, own, stale);
    ReportsLateResult(d, a, b, own, stale);
  }
}
