/** One Benchmark resource under the Kubernetes operator: the cluster objects it owns,
    the API calls of one reconcile as atomic steps, and what users, Jobs and the garbage
    collector may do between any two of those calls. */
module OperatorModel {
  import opened Options

  // ----- Resources -----

  datatype Phase = NoPhase | Pending | Running | Completed | Failed

  datatype Spec = Spec(
    profile: string, target: string, targets: seq<string>, clients: seq<string>,
    topology: string, mock: bool, skipValidate: bool, checkBaseline: bool,
    checkHardware: Option<bool>, intent: string, useOllama: bool)

  /** The status messages, one constructor for each text the operator writes. */
  datatype Message =
    | NoMessage
    | MissingSpec
    | ProfileOrIntentRequired
    | TargetRequired
    | StartingAfterSpecChange
    | StartingAfterRetry
    | WaitingForCleanup
    | JobWasCreated
    | JobIsRunning
    | JobHasFailed
    | ProfileRan(profile: string)
    | StatusFilePending

  datatype Status = Status(phase: Phase, runId: string, message: Message)

  /** The Benchmark object. A digest is never the empty string, so the empty spec-hash that
      a Go map lookup gives for an absent annotation is None here; for the two retry
      annotations, which users write, absent and empty are the same. A missing or malformed
      spec section is None. */
  datatype Resource = Resource(
    spec: Option<Spec>, specHash: Option<string>, retry: string, retryApplied: string, status: Status)

  /** The Job, with the spec it was created from. A deleted Job stays, terminating, until
      the garbage collector removes it. wrote is history: the result it left in the status
      file when it succeeded. */
  datatype Job = Job(from: Spec, succeeded: bool, failed: bool, terminating: bool, wrote: Option<ApplyResult>)

  datatype ApplyResult = ApplyResult(runId: string, profile: string)

  datatype Creation = Creation(spec: Spec, token: string, requested: bool)

  /** The last three fields are history: every Job creation with the retry token its
      reconcile had read and whether that asked for a retry, every token marked applied, and the Job whose outcome the
      current status reports. No operator branch reads them. */
  datatype Cluster = Cluster(
    cr: Resource, job: Option<Job>, configMap: Option<Spec>, statusFile: Option<ApplyResult>,
    created: seq<Creation>, applied: seq<string>, source: Option<Job>)

  // ----- Spec hash -----

  /** sha256 cut to eight bytes and printed in hex: any function, collisions included. */
  type Digest = string -> string

  function JoinSpaced(items: seq<string>): string {
    if |items| == 0 then "" else if |items| == 1 then items[0]
    else items[0] + " " + JoinSpaced(items[1..])
  }

  function FormatList(items: seq<string>): string { "[" + JoinSpaced(items) + "]" }

  function FormatBool(b: bool): string { if b then "true" else "false" }

  /** The text that is digested: topology, checkBaseline, checkHardware and useOllama are
      not part of it. */
  function HashInput(b: Spec): string { b.profile + "|" + b.target + HashTail(b) }

  function HashTail(b: Spec): string {
    "|" + b.intent + "|" + FormatList(b.clients) + "|" + FormatList(b.targets) + "|" + FormatBool(b.mock) + "|" +
    FormatBool(b.skipValidate)
  }

  function SpecHash(d: Digest, b: Spec): string { d(HashInput(b)) }

  function FromUnstructured(spec: Option<Spec>): Result<Spec, Message> {
    match spec
    case None => Failure(MissingSpec)
    case Some(b) =>
      if b.profile == "" && b.intent == "" then
        Failure(ProfileOrIntentRequired)
      else if b.target == "" && |b.targets| == 0 && b.intent == "" then
        Failure(TargetRequired)
      else Success(b)
  }

  // ----- Decision -----

  datatype Action = Skip | EnsureJob | TeardownAndRerun | ObserveJob

  predicate SpecChanged(stored: Option<string>, current: string) { stored.Some? && stored.value != current }

  predicate RetryRequested(cr: Resource) { cr.retry != "" && cr.retry != cr.retryApplied }

  function DecideReconcile(
    phase: Phase, stored: Option<string>, current: string, jobExists: bool, retry: bool): Action
  {
    if phase == Completed && !SpecChanged(stored, current) && !retry then Skip
    else if (SpecChanged(stored, current) || retry) && jobExists then TeardownAndRerun
    else if !jobExists then EnsureJob
    else ObserveJob
  }

  // ----- One reconcile as atomic steps -----

  /** What reconcileOne keeps from the object it was handed. */
  datatype Reading = Reading(
    spec: Spec, hash: string, phase: Phase, stored: Option<string>, token: string, requested: bool)

  /** The next API or file-system call of the reconcile in progress. A get followed by an
      update under the resource version is one call: an intervening write makes the
      update fail, and failures are Crash below. */
  datatype PC =
    | Idle
    | RejectSpec(message: Message)
    | GetJob(r: Reading)
    | RemoveFile(r: Reading)
    | DeleteJob(r: Reading)
    | PatchPending(r: Reading)
    | UpsertConfigMap(r: Reading)
    | CreateJob(r: Reading)
    | PatchWaiting(r: Reading)
    | MarkRetry(r: Reading)
    | ReadResult(r: Reading, job: Job)
    | StampHash(r: Reading, status: Status, seen: Option<Job>)
    | WriteStatus(r: Reading, status: Status, seen: Option<Job>)

  const JOB_CREATED := Status(Running, "", JobWasCreated)

  function Read(d: Digest, cr: Resource): PC {
    match FromUnstructured(cr.spec)
    case Failure(e) => RejectSpec(e)
    case Success(b) =>
      GetJob(Reading(b, SpecHash(d, b), cr.status.phase, cr.specHash, cr.retry, RetryRequested(cr)))
  }

  function Observe(r: Reading, job: Job): PC {
    if job.succeeded then ReadResult(r, job)
    else if job.failed then StampHash(r, Status(Failed, "", JobHasFailed), Some(job))
    else if r.phase != Running then StampHash(r, Status(Running, "", JobIsRunning), Some(job))
    else Idle
  }

  function Dispatch(c: Cluster, r: Reading): PC {
    match DecideReconcile(r.phase, r.stored, r.hash, c.job.Some?, r.requested)
    case Skip => Idle
    case TeardownAndRerun => RemoveFile(r)
    case EnsureJob => UpsertConfigMap(r)
    case ObserveJob => if c.job.Some? then Observe(r, c.job.value) else Idle
  }

  function ResultStatus(file: Option<ApplyResult>): Status {
    match file
    case Some(result) => Status(Completed, result.runId, ProfileRan(result.profile))
    case None => Status(Completed, "", StatusFilePending)
  }

  function RerunMessage(r: Reading): Message {
    if r.requested && !SpecChanged(r.stored, r.hash) then StartingAfterRetry
    else StartingAfterSpecChange
  }

  function PutStatus(c: Cluster, status: Status, source: Option<Job>): Cluster {
    c.(cr := c.cr.(status := status), source := source)
  }

  function Terminate(job: Option<Job>): Option<Job> {
    match job case None => None case Some(j) => Some(j.(terminating := true))
  }

  /** The effect of the next call on the cluster. */
  function Effect(c: Cluster, pc: PC): Cluster {
    match pc
    case Idle => c
    case RejectSpec(m) => PutStatus(c, Status(Failed, "", m), None)
    case GetJob(r) => c
    case RemoveFile(r) => c.(statusFile := None)
    case DeleteJob(r) => c.(job := Terminate(c.job))
    case PatchPending(r) => PutStatus(c, Status(Pending, "", RerunMessage(r)), None)
    case UpsertConfigMap(r) => c.(configMap := Some(r.spec))
    case CreateJob(r) =>
      if c.job.Some? then c
      else c.(job := Some(Job(r.spec, false, false, false, None)),
                created := c.created + [Creation(r.spec, r.token, r.requested)])
    case PatchWaiting(r) => PutStatus(c, Status(Pending, "", WaitingForCleanup), None)
    case MarkRetry(r) => c.(cr := c.cr.(retryApplied := r.token), applied := c.applied + [r.token])
    case ReadResult(r, job) => c
    case StampHash(r, status, seen) => c.(cr := c.cr.(specHash := Some(r.hash)))
    case WriteStatus(r, status, seen) => PutStatus(c, status, seen)
  }

  /** The call that follows it. */
  function Next(d: Digest, c: Cluster, pc: PC): (next: PC)
    ensures !pc.Idle? ==> Remaining(next) < Remaining(pc)
  {
    match pc
    case Idle => Read(d, c.cr)
    case RejectSpec(m) => Idle
    case GetJob(r) => Dispatch(c, r)
    case RemoveFile(r) => DeleteJob(r)
    case DeleteJob(r) => PatchPending(r)
    case PatchPending(r) => UpsertConfigMap(r)
    case UpsertConfigMap(r) => CreateJob(r)
    case CreateJob(r) =>
      if c.job.Some? then PatchWaiting(r)
      else if r.token == "" then StampHash(r, JOB_CREATED, None)
      else MarkRetry(r)
    case PatchWaiting(r) => Idle
    case MarkRetry(r) => StampHash(r, JOB_CREATED, None)
    case ReadResult(r, job) => StampHash(r, ResultStatus(c.statusFile), Some(job))
    case StampHash(r, status, seen) => WriteStatus(r, status, seen)
    case WriteStatus(r, status, seen) => Idle
  }

  // ----- Environment -----

  datatype Env =
    | EditSpec(spec: Option<Spec>)
    | EditRetry(token: string)
    | JobSucceeds(written: Option<ApplyResult>)
    | JobFails
    | JobVanishes
    | ResultAppears(result: ApplyResult)

  predicate IsEdit(e: Env) { e.EditSpec? || e.EditRetry? }

  predicate Unfinished(job: Option<Job>) {
    job.Some? && !job.value.succeeded && !job.value.failed
  }

  /** One outside event; an event that is not possible now changes nothing. */
  function EnvStep(c: Cluster, e: Env): Cluster {
    match e
    case EditSpec(spec) => c.(cr := c.cr.(spec := spec))
    case EditRetry(token) => c.(cr := c.cr.(retry := token))
    case JobSucceeds(written) =>
      if Unfinished(c.job) then
        c.(job := Some(c.job.value.(succeeded := true, wrote := written)),
           statusFile := if written.Some? then written else c.statusFile)
      else c
    case JobFails => if Unfinished(c.job) then c.(job := Some(c.job.value.(failed := true))) else c
    case JobVanishes => if c.job.Some? && c.job.value.terminating then c.(job := None) else c
    case ResultAppears(result) => c.(statusFile := Some(result))
  }

  function Interfere(c: Cluster, es: seq<Env>): Cluster
    decreases |es|
  {
    if es == [] then c else Interfere(EnvStep(c, es[0]), es[1..])
  }

  // ----- Runs -----

  datatype State = State(c: Cluster, pc: PC)

  datatype Label = Operator | Outside(e: Env)

  function Step(d: Digest, s: State, l: Label): State {
    match l
    case Operator => State(Effect(s.c, s.pc), Next(d, s.c, s.pc))
    case Outside(e) => State(EnvStep(s.c, e), s.pc)
  }

  /** Any interleaving of operator calls and outside events. */
  function Run(d: Digest, s: State, ls: seq<Label>): State
    decreases |ls|
  {
    if ls == [] then s else Run(d, Step(d, s, ls[0]), ls[1..])
  }

  function Initial(spec: Option<Spec>, retry: string): State {
    var resource := Resource(spec, None, retry, "", Status(NoPhase, "", NoMessage));
    State(Cluster(resource, None, None, None, [], [], None), Idle)
  }

  /** The operator process dies, or the call it was making fails. */
  function Crash(s: State): State { State(s.c, Idle) }

  // ----- Whole reconciles -----

  /** A bound on the calls left before the reconcile ends. */
  function Remaining(pc: PC): nat {
    match pc
    case Idle => 0
    case RejectSpec(_) => 1
    case WriteStatus(_, _, _) => 1
    case PatchWaiting(_) => 1
    case StampHash(_, _, _) => 2
    case ReadResult(_, _) => 3
    case MarkRetry(_) => 3
    case CreateJob(_) => 4
    case UpsertConfigMap(_) => 5
    case PatchPending(_) => 6
    case DeleteJob(_) => 7
    case RemoveFile(_) => 8
    case GetJob(_) => 9
  }

  function Head(batches: seq<seq<Env>>): seq<Env> { if |batches| == 0 then [] else batches[0] }

  function Tail(batches: seq<seq<Env>>): seq<seq<Env>> { if |batches| == 0 then [] else batches[1..] }

  /** The cluster when the reconcile at pc ends, one batch of outside events following
      each of its calls. */
  function Finish(d: Digest, c: Cluster, pc: PC, batches: seq<seq<Env>>): Cluster
    decreases Remaining(pc)
  {
    if pc.Idle? then c
    else Finish(d, Interfere(Effect(c, pc), Head(batches)), Next(d, c, pc), Tail(batches))
  }

  /** One whole reconcile of an idle operator. */
  function Reconcile(d: Digest, c: Cluster, batches: seq<seq<Env>>): Cluster {
    Finish(d, Interfere(c, Head(batches)), Read(d, c.cr), Tail(batches))
  }
}
