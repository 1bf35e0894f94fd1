/** What one reconcile does when nothing happens between its calls: by the state of the resource
    and of its Job, the cluster it leaves. */
module OperatorReports {
  import opened Options
  import opened OperatorModel
  import opened OperatorScenarios

  // ----- Which specs are accepted -----

  /** A spec says what to run and, unless it leaves that to the planner, where. */
  predicate Usable(b: Spec) {
    (b.intent != "" || b.profile != "") && (b.intent != "" || b.target != "" || b.targets != [])
  }

  lemma UsableIff(b: Spec)
    ensures FromUnstructured(Some(b)) == Success(b) <==> Usable(b)
    ensures FromUnstructured(Some(b)).Failure? <==> !Usable(b)
  {
  }

  /** Why a spec is refused. */
  predicate Refusal(spec: Option<Spec>, m: Message) {
    match spec
    case None => m == MissingSpec
    case Some(b) => !Usable(b) && m == if b.profile == "" then ProfileOrIntentRequired else TargetRequired
  }

  /** An unusable spec is reported as failed, with the reason, and nothing else is touched. */
  lemma RefusalReported(d: Digest, c: Cluster, m: Message)
    requires Refusal(c.cr.spec, m)
    ensures
      Run(d, State(c, Idle), Times(2)) ==
      State(c.(cr := c.cr.(status := Status(Failed, "", m)), source := None), Idle)
  {
    hide Run;
    RunTimes(d, State(c, Idle), 1);
    RunTimes(d, Step(d, State(c, Idle), Operator), 0);
    RunTimes(d, Step(d, Step(d, State(c, Idle), Operator), Operator), 0);
  }

  // ----- What a usable spec asks for -----

  /** The stored hash is another spec's. */
  predicate Changed(d: Digest, c: Cluster, b: Spec) { c.cr.specHash != None && c.cr.specHash != Some(SpecHash(d, b)) }

  /** A retry token that was not applied yet. */
  predicate Asked(c: Cluster) { c.cr.retry != "" && c.cr.retry != c.cr.retryApplied }

  predicate Given(c: Cluster, b: Spec) { c.cr.spec == Some(b) && Usable(b) }

  function ReadingOf(d: Digest, c: Cluster, b: Spec): Reading {
    Reading(b, SpecHash(d, b), c.cr.status.phase, c.cr.specHash, c.cr.retry, Asked(c))
  }

  lemma StartsReading(d: Digest, c: Cluster, b: Spec)
    requires Given(c, b)
    ensures Step(d, State(c, Idle), Operator) == State(c, GetJob(ReadingOf(d, c, b)))
  {
    UsableIff(b);
  }

  /** The first two calls read the resource and look up the Job. */
  lemma LooksUp(d: Digest, c: Cluster, b: Spec, n: nat)
    requires Given(c, b)
    ensures
      Run(d, State(c, Idle), Times(n + 2)) == Run(d, State(c, Dispatch(c, ReadingOf(d, c, b))), Times(n))
  {
    hide Run, Dispatch, SpecHash;
    StartsReading(d, c, b);
    RunTimes(d, State(c, Idle), n + 1);
    RunTimes(d, State(c, GetJob(ReadingOf(d, c, b))), n);
  }

  /** A completed run that neither changed nor is to be repeated is left alone. */
  lemma CompletedLeftAlone(d: Digest, c: Cluster, b: Spec)
    requires Given(c, b) && c.cr.status.phase == Completed && !Changed(d, c, b) && !Asked(c)
    ensures Run(d, State(c, Idle), Times(2)) == State(c, Idle)
  {
    hide Run, SpecHash;
    LooksUp(d, c, b, 0);
    RunTimes(d, State(c, Idle), 0);
  }

  // ----- Teardown -----

  /** A Job of another spec, or one to be repeated: the status file is removed, the Job deleted and
      the reason given. */
  lemma TeardownStarts(d: Digest, c: Cluster, b: Spec)
    requires Given(c, b) && c.job.Some? && (Changed(d, c, b) || Asked(c))
    ensures
      var why := if Changed(d, c, b) then StartingAfterSpecChange else StartingAfterRetry;
      var gone := c.(job := Some(c.job.value.(terminating := true)), statusFile := None, source := None);
      Run(d, State(c, Idle), Times(5)) ==
      State(gone.(cr := c.cr.(status := Status(Pending, "", why))), UpsertConfigMap(ReadingOf(d, c, b)))
  {
    hide Run, SpecHash;
    LooksUp(d, c, b, 3);
    RunThreeTimes(d, State(c, RemoveFile(ReadingOf(d, c, b))));
  }

  /** A Job that still exists then makes the reconcile wait; no other is created. */
  lemma WaitsForCleanup(d: Digest, c: Cluster, r: Reading)
    requires c.job.Some?
    ensures
      Run(d, State(c, UpsertConfigMap(r)), Times(3)) ==
      State(c.(configMap := Some(r.spec), source := None,
               cr := c.cr.(status := Status(Pending, "", WaitingForCleanup))), Idle)
  {
    hide Run;
    RunThreeTimes(d, State(c, UpsertConfigMap(r)));
  }

  // ----- Creation -----

  /** Without a Job, unless the run is completed and stands, one is created from the spec, under the
      retry token if there is one; token and hash are marked and the Job is reported. */
  lemma JobCreated(d: Digest, c: Cluster, b: Spec)
    requires Given(c, b) && c.job.None?
    requires c.cr.status.phase != Completed || Changed(d, c, b) || Asked(c)
    ensures
      var marked := if c.cr.retry == "" then c.cr.retryApplied else c.cr.retry;
      var c' := Run(d, State(c, Idle), Times(4 + MarkingCalls(c.cr.retry))).c;
      && Run(d, State(c, Idle), Times(4 + MarkingCalls(c.cr.retry))).pc == Idle
      && c'.cr == Resource(Some(b), Some(SpecHash(d, b)), c.cr.retry, marked, Status(Running, "", JobWasCreated))
      && c'.job == Some(Job(b, false, false, false, None)) && c'.configMap == Some(b)
      && c'.statusFile == c.statusFile && c'.source == None
      && c'.created == c.created + [Creation(b, c.cr.retry, Asked(c))]
      && c'.applied == c.applied + if c.cr.retry == "" then [] else [c.cr.retry]
  {
    hide Run, SpecHash;
    var n, r := MarkingCalls(c.cr.retry), ReadingOf(d, c, b);
    LooksUp(d, c, b, 2 + n);
    var s := State(c, UpsertConfigMap(r));
    assert Dispatch(c, r) == UpsertConfigMap(r);
    RunTimes(d, s, 1 + n);
    RunTimes(d, Step(d, s, Operator), n);
    CreatedMarks(d, c, r);
  }

  /** The Job exists and is to be marked. */
  function CreatedState(c: Cluster, r: Reading): State {
    var job := Job(r.spec, false, false, false, None);
    var created := c.created + [Creation(r.spec, r.token, r.requested)];
    State(c.(configMap := Some(r.spec), job := Some(job), created := created), Marking(r))
  }

  lemma CreatedMarks(d: Digest, c: Cluster, r: Reading)
    requires c.job.None?
    ensures
      var s, n := CreatedState(c, r), MarkingCalls(r.token);
      var s', c' := Run(d, s, Times(n)), Run(d, s, Times(n)).c;
      && Step(d, Step(d, State(c, UpsertConfigMap(r)), Operator), Operator) == s
      && s'.pc == Idle && c'.job == s.c.job && c'.configMap == s.c.configMap && c'.created == s.c.created
      && c'.statusFile == c.statusFile && c'.source == None
      && c'.applied == c.applied + (if r.token == "" then [] else [r.token])
      && c'.cr == c.cr.(specHash := Some(r.hash), status := Status(Running, "", JobWasCreated),
                        retryApplied := if r.token == "" then c.cr.retryApplied else r.token)
  {
    hide Run;
    var s := CreatedState(c, r);
    if r.token == "" {
      RunTimes(d, s, 1);
      RunTimes(d, Step(d, s, Operator), 0);
      RunTimes(d, Step(d, Step(d, s, Operator), Operator), 0);
      assert c.applied + [] == c.applied;
    } else {
      RunThreeTimes(d, s);
    }
  }

  // ----- Observation -----

  /** What the Job's own state is reported as, if anything new is to be said. */
  function Report(c: Cluster, job: Job): Option<Status> {
    if job.succeeded && c.statusFile.Some? then
      Some(Status(Completed, c.statusFile.value.runId, ProfileRan(c.statusFile.value.profile)))
    else if job.succeeded then Some(Status(Completed, "", StatusFilePending))
    else if job.failed then Some(Status(Failed, "", JobHasFailed))
    else if c.cr.status.phase != Running then Some(Status(Running, "", JobIsRunning))
    else None
  }

  /** The Job of this spec is observed: its outcome is reported under the spec's hash, with the run id
      of the status file; a running Job is reported once. */
  lemma JobObserved(d: Digest, c: Cluster, b: Spec, job: Job)
    requires Given(c, b) && c.job == Some(job) && c.cr.status.phase != Completed && !Changed(d, c, b) && !Asked(c)
    ensures
      var calls := if Report(c, job) == None then 2 else if job.succeeded then 5 else 4;
      var s' := Run(d, State(c, Idle), Times(calls));
      && s'.pc == Idle
      && s'.c ==
           if Report(c, job) == None then c
           else c.(cr := c.cr.(specHash := Some(SpecHash(d, b)), status := Report(c, job).value), source := Some(job))
  {
    hide Run, SpecHash, Dispatch, Step;
    var r := ReadingOf(d, c, b);
    ObservesJob(d, c, b, job);
    if job.succeeded {
      LooksUp(d, c, b, 3);
      ReadsAndReports(d, c, r, job);
    } else if Report(c, job) != None {
      LooksUp(d, c, b, 2);
      StampsAndWrites(d, c, r, Report(c, job).value, job);
    } else {
      LooksUp(d, c, b, 0);
      RunTimes(d, State(c, Idle), 0);
    }
  }

  lemma ObservesJob(d: Digest, c: Cluster, b: Spec, job: Job)
    requires c.job == Some(job) && c.cr.status.phase != Completed && !Changed(d, c, b) && !Asked(c)
    ensures Dispatch(c, ReadingOf(d, c, b)) == Observe(ReadingOf(d, c, b), job)
  {
    hide SpecHash;
  }

  lemma ReadsAndReports(d: Digest, c: Cluster, r: Reading, job: Job)
    ensures
      Run(d, State(c, ReadResult(r, job)), Times(3)) ==
      State(c.(cr := c.cr.(specHash := Some(r.hash), status := ResultStatus(c.statusFile)), source := Some(job)), Idle)
  {
    hide Run;
    RunThreeTimes(d, State(c, ReadResult(r, job)));
  }

  lemma StampsAndWrites(d: Digest, c: Cluster, r: Reading, status: Status, job: Job)
    ensures
      Run(d, State(c, StampHash(r, status, Some(job))), Times(2)) ==
      State(c.(cr := c.cr.(specHash := Some(r.hash), status := status), source := Some(job)), Idle)
  {
    hide Run;
    var s := State(c, StampHash(r, status, Some(job)));
    RunTimes(d, s, 1);
    RunTimes(d, Step(d, s, Operator), 0);
    RunTimes(d, Step(d, Step(d, s, Operator), Operator), 0);
  }
}
