/** The reconciler as it is written: methods that call the cluster one after the other,
    with outside events after every call. Each method computes what the step machine of
    OperatorModel computes from the same calls. */
module OperatorReconciler {
  import opened Options
  import opened OperatorModel
  import opened OperatorConvergence

  lemma FinishStep(d: Digest, c: Cluster, pc: PC, batches: seq<seq<Env>>)
    ensures Finish(d, c, pc, batches) ==
      if pc.Idle? then c
      else Finish(d, Interfere(Effect(c, pc), Head(batches)), Next(d, c, pc), Tail(batches))
  {
  }

  class Reconciler {
    const digest: Digest
    var cluster: Cluster
    /** Outside events still to come, one batch after each call. */
    var events: seq<seq<Env>>

    constructor (digest: Digest, cluster: Cluster)
      ensures this.digest == digest && this.cluster == cluster && events == []
    {
      this.digest := digest;
      this.cluster := cluster;
      events := [];
    }

    /** The cluster once the reconcile that stands at pc has ended. */
    function Outcome(pc: PC): Cluster
      reads this
    {
      Finish(digest, cluster, pc, events)
    }

    method Interference()
      modifies this
      ensures cluster == Interfere(old(cluster), Head(old(events))) && events == Tail(old(events))
    {
      var batch := Head(events);
      events := Tail(events);
      ghost var start := cluster;
      var i := 0;
      while i < |batch|
        invariant 0 <= i <= |batch|
        invariant Interfere(cluster, batch[i..]) == Interfere(start, batch)
        invariant events == Tail(old(events))
      {
        assert batch[i..][1..] == batch[i + 1..];
        cluster := EnvStep(cluster, batch[i]);
        i := i + 1;
      }
    }

    method UpdateStatus(status: Status, source: Option<Job>)
      modifies this
      ensures cluster == Interfere(PutStatus(old(cluster), status, source), Head(old(events)))
      ensures events == Tail(old(events))
    {
      cluster := PutStatus(cluster, status, source);
      Interference();
    }

    method PatchStatus(r: Reading, status: Status, seen: Option<Job>)
      modifies this
      ensures cluster == old(Outcome(StampHash(r, status, seen)))
    {
      FinishStep(digest, cluster, StampHash(r, status, seen), events);
      cluster := cluster.(cr := cluster.cr.(specHash := Some(r.hash)));
      Interference();
      FinishStep(digest, cluster, WriteStatus(r, status, seen), events);
      UpdateStatus(status, seen);
    }

    method TeardownRun(r: Reading)
      modifies this
      ensures Outcome(PatchPending(r)) == old(Outcome(RemoveFile(r)))
    {
      FinishStep(digest, cluster, RemoveFile(r), events);
      cluster := cluster.(statusFile := None);
      Interference();
      FinishStep(digest, cluster, DeleteJob(r), events);
      if cluster.job.Some? {
        cluster := cluster.(job := Some(cluster.job.value.(terminating := true)));
      }
      Interference();
    }

    method MarkRetryApplied(r: Reading)
      modifies this
      ensures Outcome(StampHash(r, JOB_CREATED, None)) ==
        old(Outcome(if r.token == "" then StampHash(r, JOB_CREATED, None) else MarkRetry(r)))
    {
      if r.token == "" {
        return;
      }
      FinishStep(digest, cluster, MarkRetry(r), events);
      cluster := cluster.(cr := cluster.cr.(retryApplied := r.token), applied := cluster.applied + [r.token]);
      Interference();
    }

    method EnsureJob(r: Reading)
      modifies this
      ensures cluster == old(Outcome(UpsertConfigMap(r)))
    {
      FinishStep(digest, cluster, UpsertConfigMap(r), events);
      cluster := cluster.(configMap := Some(r.spec));
      Interference();
      FinishStep(digest, cluster, CreateJob(r), events);
      var alreadyExists := cluster.job.Some?;
      if alreadyExists {
        Interference();
        FinishStep(digest, cluster, PatchWaiting(r), events);
        UpdateStatus(Status(Pending, "", WaitingForCleanup), None);
        return;
      }
      cluster := cluster.(job := Some(Job(r.spec, false, false, false, None)),
                          created := cluster.created + [Creation(r.spec, r.token, r.requested)]);
      Interference();
      MarkRetryApplied(r);
      PatchStatus(r, JOB_CREATED, None);
    }

    method ObserveJob(r: Reading, job: Job)
      modifies this
      ensures cluster == old(Outcome(Observe(r, job)))
    {
      if job.succeeded {
        FinishStep(digest, cluster, ReadResult(r, job), events);
        var file := cluster.statusFile;
        Interference();
        var status := Status(Completed, "", StatusFilePending);
        if file.Some? {
          status := Status(Completed, file.value.runId, ProfileRan(file.value.profile));
        }
        PatchStatus(r, status, Some(job));
      } else if job.failed {
        PatchStatus(r, Status(Failed, "", JobHasFailed), Some(job));
      } else if r.phase != Running {
        PatchStatus(r, Status(Running, "", JobIsRunning), Some(job));
      }
    }

    method ReconcileOne(obj: Resource)
      modifies this
      ensures cluster == old(Outcome(Read(digest, obj)))
    {
      var parsed := FromUnstructured(obj.spec);
      if parsed.Failure? {
        FinishStep(digest, cluster, RejectSpec(parsed.error), events);
        UpdateStatus(Status(Failed, "", parsed.error), None);
        return;
      }
      var r := Reading(parsed.value, SpecHash(digest, parsed.value), obj.status.phase,
                       obj.specHash, obj.retry, RetryRequested(obj));
      FinishStep(digest, cluster, GetJob(r), events);
      var job := cluster.job;
      Interference();
      match DecideReconcile(r.phase, r.stored, r.hash, job.Some?, r.requested)
      case Skip =>
      case TeardownAndRerun =>
        TeardownRun(r);
        FinishStep(digest, cluster, PatchPending(r), events);
        UpdateStatus(Status(Pending, "", RerunMessage(r)), None);
        EnsureJob(r);
      case EnsureJob => EnsureJob(r);
      case ObserveJob => ObserveJob(r, job.value);
    }

    /** The list call and the reconcile of the one object it returns. */
    method ReconcileAll()
      modifies this
      ensures cluster == Reconcile(digest, old(cluster), old(events))
    {
      var obj := cluster.cr;
      Interference();
      ReconcileOne(obj);
    }

    /** The resync loop over a schedule of outside events. */
    method Loop(rounds: seq<Round>)
      modifies this
      ensures cluster == Rounds(digest, old(cluster), rounds)
    {
      var i := 0;
      while i < |rounds|
        invariant 0 <= i <= |rounds|
        invariant Rounds(digest, cluster, rounds[i..]) == Rounds(digest, old(cluster), rounds)
      {
        assert rounds[i..][1..] == rounds[i + 1..];
        events := [rounds[i].before];
        Interference();
        events := rounds[i].during;
        ReconcileAll();
        i := i + 1;
      }
    }
  }
}
