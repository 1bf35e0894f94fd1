/** What holds at every point of every crash-free run of the operator, and exactly which
    crashes break it. */
module OperatorSafety {
  import opened Options
  import opened OperatorModel

  // ----- The invariant -----

  /** The existing Job, terminating or not, was created from a spec with the stored hash. */
  predicate JobAttributed(d: Digest, c: Cluster) {
    c.job.Some? ==> c.cr.specHash == Some(SpecHash(d, c.job.value.from))
  }

  /** A reported outcome is the outcome of a Job; Failed may also report an invalid spec. */
  predicate OutcomeReal(c: Cluster) {
    && (c.cr.status.phase == Completed ==> c.source.Some? && c.source.value.succeeded)
    && (c.cr.status.phase == Failed && c.source.Some? ==> c.source.value.failed)
  }

  /** The Job whose outcome is reported was created from a spec with the stored hash. */
  predicate StatusAttributed(d: Digest, c: Cluster) {
    c.source.Some? ==> c.cr.specHash == Some(SpecHash(d, c.source.value.from))
  }

  predicate Attributed(d: Digest, c: Cluster) { JobAttributed(d, c) && StatusAttributed(d, c) }

  predicate LiveJob(c: Cluster) { c.job.Some? && !c.job.value.terminating }

  /** The ConfigMap that a live Job mounts holds the spec the Job was created from. */
  predicate MountsOwnSpec(c: Cluster) { LiveJob(c) ==> c.configMap == Some(c.job.value.from) }

  /** The retry tokens under which Jobs were created. */
  function Tokens(created: seq<Creation>): seq<string> {
    if created == [] then []
    else
      var last := created[|created| - 1];
      Tokens(created[..|created| - 1]) + if last.token == "" then [] else [last.token]
  }

  function Last(tokens: seq<string>): string { if tokens == [] then "" else tokens[|tokens| - 1] }

  /** Tokens marked applied, and the one about to be, match the creations one to one. */
  predicate TokensConsumed(c: Cluster, pc: PC) {
    && Tokens(c.created) == c.applied + (if pc.MarkRetry? then [pc.r.token] else [])
    && c.cr.retryApplied == Last(c.applied)
  }

  predicate Fresh(d: Digest, c: Cluster, r: Reading) {
    r.hash == SpecHash(d, r.spec) && r.stored == c.cr.specHash
  }

  /** The Job is the one this reconcile has just created. */
  predicate JustCreated(c: Cluster, r: Reading) { LiveJob(c) && c.job.value.from == r.spec }

  /** The status to be written is an outcome of the Job that was observed. */
  predicate Reports(d: Digest, c: Cluster, r: Reading, status: Status, job: Job) {
    && SpecHash(d, job.from) == r.hash
    && c.cr.specHash == Some(r.hash)
    && (status.phase == Completed ==> job.succeeded)
    && (status.phase == Failed ==> job.failed)
  }

  /** Between Job creation and the hash stamp the Job is ahead of the annotation. */
  predicate JobAhead(pc: PC) { pc.MarkRetry? || (pc.StampHash? && pc.seen.None?) }

  /** Between the stamp and the status patch the annotation is ahead of the status. */
  predicate StatusBehind(pc: PC) { pc.WriteStatus? && pc.seen.None? }

  predicate PCInv(d: Digest, c: Cluster, pc: PC) {
    match pc
    case Idle => true
    case RejectSpec(_) => true
    case GetJob(r) => Fresh(d, c, r) && r.phase == c.cr.status.phase
    case RemoveFile(r) => Fresh(d, c, r)
    case DeleteJob(r) => Fresh(d, c, r)
    case PatchPending(r) => Fresh(d, c, r) && !LiveJob(c)
    case UpsertConfigMap(r) => Fresh(d, c, r) && !LiveJob(c)
    case CreateJob(r) => Fresh(d, c, r) && !LiveJob(c) && c.configMap == Some(r.spec)
    case PatchWaiting(r) => Fresh(d, c, r)
    case MarkRetry(r) => Fresh(d, c, r) && JustCreated(c, r) && r.token != ""
    case ReadResult(r, job) =>
      Fresh(d, c, r) && Reports(d, c, r, Status(Completed, "", StatusFilePending), job)
    case StampHash(r, status, seen) =>
      && Fresh(d, c, r)
      && match seen {
           case None => JustCreated(c, r) && status == JOB_CREATED
           case Some(job) => Reports(d, c, r, status, job)
         }
    case WriteStatus(r, status, seen) =>
      match seen {
        case None =>
          && JustCreated(c, r) && c.cr.specHash == Some(SpecHash(d, r.spec))
          && r.hash == SpecHash(d, r.spec) && status == JOB_CREATED
        case Some(job) => Reports(d, c, r, status, job)
      }
  }

  predicate Inv(d: Digest, s: State) {
    && PCInv(d, s.c, s.pc)
    && (!JobAhead(s.pc) ==> JobAttributed(d, s.c))
    && (!StatusBehind(s.pc) ==> StatusAttributed(d, s.c))
    && OutcomeReal(s.c)
    && MountsOwnSpec(s.c)
    && TokensConsumed(s.c, s.pc)
  }

  // ----- Every step keeps it -----

  lemma DispatchKeeps(d: Digest, c: Cluster, r: Reading)
    requires Inv(d, State(c, GetJob(r)))
    ensures Inv(d, State(c, Dispatch(c, r)))
  {
    hide SpecHash, FromUnstructured, Tokens;
  }

  lemma TokensAppend(created: seq<Creation>, x: Creation)
    ensures Tokens(created + [x]) == Tokens(created) + if x.token == "" then [] else [x.token]
  {
    assert (created + [x])[..|created|] == created;
  }

  lemma ReadKeeps(d: Digest, c: Cluster)
    requires Inv(d, State(c, Idle))
    ensures Inv(d, State(c, Read(d, c.cr)))
  {
  }

  /** The calls before Job creation, and the two status patches of no Job. */
  lemma PreparationKeeps(d: Digest, s: State)
    requires Inv(d, s)
    requires s.pc.RejectSpec? || s.pc.RemoveFile? || s.pc.DeleteJob? || s.pc.PatchPending? || s.pc.UpsertConfigMap?
      || s.pc.PatchWaiting?
    ensures Inv(d, Step(d, s, Operator))
  {
    hide SpecHash, FromUnstructured, Tokens;
  }

  /** A Job of the name still exists. */
  lemma CreationBlockedKeeps(d: Digest, s: State)
    requires Inv(d, s) && s.pc.CreateJob? && s.c.job.Some?
    ensures Inv(d, Step(d, s, Operator))
  {
  }

  lemma TokensAfterCreation(c: Cluster, x: Creation)
    requires Tokens(c.created) == c.applied
    ensures Tokens(c.created + [x]) == c.applied + if x.token == "" then [] else [x.token]
  {
    TokensAppend(c.created, x);
  }

  lemma UntokenedCreationKeeps(d: Digest, s: State)
    requires Inv(d, s) && s.pc.CreateJob? && s.c.job.None? && s.pc.r.token == ""
    ensures Inv(d, Step(d, s, Operator))
  {
    TokensAfterCreation(s.c, Creation(s.pc.r.spec, s.pc.r.token, s.pc.r.requested));
  }

  lemma TokenedCreationKeeps(d: Digest, s: State)
    requires Inv(d, s) && s.pc.CreateJob? && s.c.job.None? && s.pc.r.token != ""
    ensures Inv(d, Step(d, s, Operator))
  {
    TokensAfterCreation(s.c, Creation(s.pc.r.spec, s.pc.r.token, s.pc.r.requested));
  }

  lemma CreationKeeps(d: Digest, s: State)
    requires Inv(d, s) && s.pc.CreateJob?
    ensures Inv(d, Step(d, s, Operator))
  {
    if s.c.job.Some? {
      CreationBlockedKeeps(d, s);
    } else if s.pc.r.token == "" {
      UntokenedCreationKeeps(d, s);
    } else {
      TokenedCreationKeeps(d, s);
    }
  }

  lemma MarkKeeps(d: Digest, s: State)
    requires Inv(d, s) && s.pc.MarkRetry?
    ensures Inv(d, Step(d, s, Operator))
  {
  }

  lemma StampKeeps(d: Digest, s: State)
    requires Inv(d, s) && (s.pc.ReadResult? || s.pc.StampHash?)
    ensures Inv(d, Step(d, s, Operator))
  {
    hide SpecHash, FromUnstructured, Tokens;
  }

  lemma ReportKeeps(d: Digest, s: State)
    requires Inv(d, s) && s.pc.WriteStatus?
    ensures Inv(d, Step(d, s, Operator))
  {
    hide SpecHash, FromUnstructured, Tokens;
  }

  lemma OperatorKeeps(d: Digest, s: State)
    requires Inv(d, s)
    ensures Inv(d, Step(d, s, Operator))
  {
    hide Inv;
    match s.pc
    case Idle => ReadKeeps(d, s.c);
    case GetJob(r) => DispatchKeeps(d, s.c, r);
    case CreateJob(_) => CreationKeeps(d, s);
    case MarkRetry(_) => MarkKeeps(d, s);
    case ReadResult(_, _) => StampKeeps(d, s);
    case StampHash(_, _, _) => StampKeeps(d, s);
    case WriteStatus(_, _, _) => ReportKeeps(d, s);
    case _ => PreparationKeeps(d, s);
  }

  lemma EditKeeps(d: Digest, s: State, e: Env)
    requires Inv(d, s) && IsEdit(e)
    ensures Inv(d, Step(d, s, Outside(e)))
  {
    hide SpecHash, FromUnstructured, Tokens;
  }

  lemma OutcomeKeeps(d: Digest, s: State, e: Env)
    requires Inv(d, s) && (e.JobSucceeds? || e.JobFails?)
    ensures Inv(d, Step(d, s, Outside(e)))
  {
    hide SpecHash, FromUnstructured, Tokens;
  }

  lemma LeftoverKeeps(d: Digest, s: State, e: Env)
    requires Inv(d, s) && (e.JobVanishes? || e.ResultAppears?)
    ensures Inv(d, Step(d, s, Outside(e)))
  {
    hide SpecHash, FromUnstructured, Tokens;
  }

  lemma OutsideKeeps(d: Digest, s: State, e: Env)
    requires Inv(d, s)
    ensures Inv(d, Step(d, s, Outside(e)))
  {
    hide Inv, Step;
    if IsEdit(e) {
      EditKeeps(d, s, e);
    } else if e.JobSucceeds? || e.JobFails? {
      OutcomeKeeps(d, s, e);
    } else {
      LeftoverKeeps(d, s, e);
    }
  }

  lemma {:induction false} RunKeeps(d: Digest, s: State, ls: seq<Label>)
    requires Inv(d, s)
    ensures Inv(d, Run(d, s, ls))
    decreases |ls|
  {
    hide Inv, Step;
    if ls != [] {
      if ls[0].Operator? { OperatorKeeps(d, s); } else { OutsideKeeps(d, s, ls[0].e); }
      RunKeeps(d, Step(d, s, ls[0]), ls[1..]);
    }
  }

  // ----- Theorems over every crash-free run -----

  /** The existing Job has the stored hash, or the one its creator is about to store. */
  predicate JobHashKnown(d: Digest, s: State) {
    s.c.job.Some? ==>
      Some(SpecHash(d, s.c.job.value.from)) == if JobAhead(s.pc) then Some(s.pc.r.hash) else s.c.cr.specHash
  }

  lemma InvKnowsJobHash(d: Digest, s: State)
    requires Inv(d, s)
    ensures JobHashKnown(d, s)
  {
  }

  /** Whatever users, Jobs and the collector do between any two calls: the existing Job has
      the stored hash, or the one its creator is about to store; the reported outcome is a
      real outcome of a Job with the stored hash, except while the status of a Job just
      stamped is being written; a live Job mounts the spec it was created from; and the
      tokens marked applied are, in order, those under which Jobs were created. */
  lemma EveryRunAttributes(d: Digest, spec: Option<Spec>, retry: string, ls: seq<Label>)
    ensures
      var s := Run(d, Initial(spec, retry), ls);
      && JobHashKnown(d, s)
      && (!StatusBehind(s.pc) ==> StatusAttributed(d, s.c))
      && OutcomeReal(s.c)
      && MountsOwnSpec(s.c)
      && (!s.pc.MarkRetry? ==> s.c.applied == Tokens(s.c.created))
  {
    var s := Run(d, Initial(spec, retry), ls);
    RunKeeps(d, Initial(spec, retry), ls);
    InvKnowsJobHash(d, s);
    assert s.c.applied + [] == s.c.applied;
  }

  /** An outcome about to be written is that of a Job of the hash that was read and stored. */
  predicate OutcomeOfReadHash(d: Digest, s: State) {
    s.pc.WriteStatus? && (s.pc.status.phase == Completed || s.pc.status.phase == Failed) ==>
      && s.pc.seen.Some?
      && SpecHash(d, s.pc.seen.value.from) == s.pc.r.hash
      && s.c.cr.specHash == Some(s.pc.r.hash)
      && (s.pc.status.phase == Completed ==> s.pc.seen.value.succeeded)
      && (s.pc.status.phase == Failed ==> s.pc.seen.value.failed)
  }

  lemma InvWritesReadHash(d: Digest, s: State)
    requires Inv(d, s)
    ensures OutcomeOfReadHash(d, s)
  {
  }

  /** The call that reports a Job's success or failure reports a Job whose hash is the hash
      the reconcile read, and the annotation already holds that hash. */
  lemma OutcomeWrittenOnlyForReadHash(d: Digest, spec: Option<Spec>, retry: string, ls: seq<Label>)
    ensures OutcomeOfReadHash(d, Run(d, Initial(spec, retry), ls))
  {
    RunKeeps(d, Initial(spec, retry), ls);
    InvWritesReadHash(d, Run(d, Initial(spec, retry), ls));
  }

  // ----- One whole reconcile -----

  lemma {:induction false} InterfereKeeps(d: Digest, c: Cluster, pc: PC, es: seq<Env>)
    requires Inv(d, State(c, pc))
    ensures Inv(d, State(Interfere(c, es), pc))
    decreases |es|
  {
    hide Inv;
    if es != [] {
      OutsideKeeps(d, State(c, pc), es[0]);
      InterfereKeeps(d, EnvStep(c, es[0]), pc, es[1..]);
    }
  }

  lemma {:induction false} FinishKeeps(d: Digest, c: Cluster, pc: PC, batches: seq<seq<Env>>)
    requires Inv(d, State(c, pc))
    ensures Inv(d, State(Finish(d, c, pc, batches), Idle))
    decreases Remaining(pc)
  {
    hide Inv, Effect, Next;
    if !pc.Idle? {
      OperatorKeeps(d, State(c, pc));
      InterfereKeeps(d, Effect(c, pc), Next(d, c, pc), Head(batches));
      FinishKeeps(d, Interfere(Effect(c, pc), Head(batches)), Next(d, c, pc), Tail(batches));
    }
  }

  lemma ReconcileKeeps(d: Digest, c: Cluster, batches: seq<seq<Env>>)
    requires Inv(d, State(c, Idle))
    ensures Inv(d, State(Reconcile(d, c, batches), Idle))
  {
    hide Inv, Interfere, Finish;
    OperatorKeeps(d, State(c, Idle));
    InterfereKeeps(d, c, Read(d, c.cr), Head(batches));
    FinishKeeps(d, Interfere(c, Head(batches)), Read(d, c.cr), Tail(batches));
  }

  /** The annotations and the creation log against their values c0 when r was read. */
  predicate Marks(c0: Cluster, r: Reading, c: Cluster, created: bool, marked: bool, stamped: bool) {
    && c.created == c0.created + (if created then [Creation(r.spec, r.token, r.requested)] else [])
    && c.cr.retryApplied == (if marked && r.token != "" then r.token else c0.cr.retryApplied)
    && c.cr.specHash == (if stamped then Some(r.hash) else c0.cr.specHash)
  }

  predicate Acted(c0: Cluster, r: Reading, c: Cluster, pc: PC) {
    match pc
    case Idle => Marks(c0, r, c, false, false, false) || Marks(c0, r, c, true, true, true)
    case RejectSpec(_) => Marks(c0, r, c, false, false, false)
    case MarkRetry(r') => r' == r && Marks(c0, r, c, true, false, false)
    case StampHash(r', _, seen) =>
      r' == r && if seen.None? then Marks(c0, r, c, true, true, false) else Marks(c0, r, c, false, false, false)
    case WriteStatus(r', _, seen) =>
      r' == r && if seen.None? then Marks(c0, r, c, true, true, true) else Marks(c0, r, c, false, false, false)
    case _ => pc.r == r && Marks(c0, r, c, false, false, false)
  }

  lemma ActedStep(d: Digest, c0: Cluster, r: Reading, c: Cluster, pc: PC)
    requires Inv(d, State(c, pc)) && Acted(c0, r, c, pc) && !pc.Idle?
    ensures Acted(c0, r, Effect(c, pc), Next(d, c, pc))
  {
    hide SpecHash, FromUnstructured, Tokens;
    match pc
    case CreateJob(_) =>
      var created := [Creation(r.spec, r.token, r.requested)];
      assert c.created + created == c0.created + created;
    case _ =>
  }

  lemma {:induction false} ActedInterfere(c0: Cluster, r: Reading, c: Cluster, pc: PC, es: seq<Env>)
    requires Acted(c0, r, c, pc)
    ensures Acted(c0, r, Interfere(c, es), pc)
    decreases |es|
  {
    if es != [] { ActedInterfere(c0, r, EnvStep(c, es[0]), pc, es[1..]); }
  }

  lemma {:induction false} ActedFinish(d: Digest, c0: Cluster, r: Reading, c: Cluster, pc: PC, batches: seq<seq<Env>>)
    requires Inv(d, State(c, pc)) && Acted(c0, r, c, pc)
    ensures Acted(c0, r, Finish(d, c, pc, batches), Idle)
    decreases Remaining(pc)
  {
    hide Inv, Acted, Effect, Next;
    if !pc.Idle? {
      OperatorKeeps(d, State(c, pc));
      ActedStep(d, c0, r, c, pc);
      InterfereKeeps(d, Effect(c, pc), Next(d, c, pc), Head(batches));
      ActedInterfere(c0, r, Effect(c, pc), Next(d, c, pc), Head(batches));
      ActedFinish(d, c0, r, Interfere(Effect(c, pc), Head(batches)), Next(d, c, pc), Tail(batches));
    }
  }

  /** A reconcile leaves both annotations and the creation log alone, or creates exactly one
      Job from the spec and token it read at its start and stamps exactly those. Edits that
      arrive while it runs, wherever they land, are therefore never marked as handled. */
  lemma ReconcileStampsWhatItRead(d: Digest, c: Cluster, batches: seq<seq<Env>>)
    requires Inv(d, State(c, Idle))
    ensures
      var c' := Reconcile(d, c, batches);
      || (c'.created == c.created && c'.cr.specHash == c.cr.specHash && c'.cr.retryApplied == c.cr.retryApplied)
      || (&& c.cr.spec.Some?
          && c'.created == c.created + [Creation(c.cr.spec.value, c.cr.retry, RetryRequested(c.cr))]
          && c'.cr.specHash == Some(SpecHash(d, c.cr.spec.value))
          && c'.cr.retryApplied == (if c.cr.retry == "" then c.cr.retryApplied else c.cr.retry))
  {
    var pc := Read(d, c.cr);
    var noSpec := Spec("", "", [], [], "", false, false, false, None, "", false);
    var r := if pc.GetJob? then pc.r else Reading(noSpec, "", NoPhase, None, "", false);
    assert c.created + [] == c.created;
    OperatorKeeps(d, State(c, Idle));
    InterfereKeeps(d, c, pc, Head(batches));
    ActedInterfere(c, r, c, pc, Head(batches));
    ActedFinish(d, c, r, Interfere(c, Head(batches)), pc, Tail(batches));
    if pc.RejectSpec? {
      RejectEnds(d, Interfere(c, Head(batches)), pc, Tail(batches));
      InterfereMarks(c, Head(batches));
    }
  }

  lemma {:induction false} InterfereMarks(c: Cluster, es: seq<Env>)
    ensures
      var c' := Interfere(c, es);
      c'.created == c.created && c'.cr.specHash == c.cr.specHash && c'.cr.retryApplied == c.cr.retryApplied
    decreases |es|
  {
    if es != [] { InterfereMarks(EnvStep(c, es[0]), es[1..]); }
  }

  lemma RejectEnds(d: Digest, c: Cluster, pc: PC, batches: seq<seq<Env>>)
    requires pc.RejectSpec?
    ensures
      var c' := Finish(d, c, pc, batches);
      c'.created == c.created && c'.cr.specHash == c.cr.specHash && c'.cr.retryApplied == c.cr.retryApplied
  {
    assert Finish(d, c, pc, batches) == Interfere(Effect(c, pc), Head(batches)) by {
      assert Next(d, c, pc) == Idle;
    }
    InterfereMarks(Effect(c, pc), Head(batches));
  }

  // ----- Crashes -----

  /** The points at which losing the operator, or the call it makes, misattributes. */
  predicate Exposed(d: Digest, s: State) {
    match s.pc
    case MarkRetry(r) => s.c.cr.specHash != Some(r.hash)
    case StampHash(r, _, None) => s.c.cr.specHash != Some(r.hash)
    case WriteStatus(r, _, None) => s.c.source.Some? && SpecHash(d, s.c.source.value.from) != r.hash
    case _ => false
  }

  /** A crash leaves Job or status misattributed exactly at the exposed points; one between
      Job creation and the applied mark also loses the token, so the retry runs again. */
  lemma CrashSafeIff(d: Digest, s: State)
    requires Inv(d, s)
    ensures Attributed(d, Crash(s).c) <==> !Exposed(d, s)
    ensures Inv(d, Crash(s)) <==> !Exposed(d, s) && !s.pc.MarkRetry?
  {
  }

  /** The first four calls of a first reconcile end with the Job created and not stamped. */
  function JustBeforeStamp(d: Digest, a: Spec): State {
    var r := Reading(a, SpecHash(d, a), NoPhase, None, "", false);
    var start := Initial(Some(a), "");
    var job := Job(a, false, false, false, None);
    State(start.c.(configMap := Some(a), job := Some(job), created := [Creation(a, "", false)]),
          StampHash(r, JOB_CREATED, None))
  }

  lemma ReachesStamp(d: Digest, a: Spec)
    requires FromUnstructured(Some(a)).Success?
    ensures Run(d, Initial(Some(a), ""), [Operator, Operator, Operator, Operator]) == JustBeforeStamp(d, a)
  {
    RunFour(d, Initial(Some(a), ""), Operator, Operator, Operator, Operator);
  }

  /** A succeeded Job of spec a, no stored hash, and spec b asked for: four more calls after the
      read report a's result as b's. */
  lemma MisattributesUnstamped(d: Digest, s: State, b: Spec)
    requires FromUnstructured(Some(b)).Success? && s.pc == Idle && s.c.cr.spec == Some(b)
    requires s.c.cr.specHash == None && s.c.cr.retry == "" && s.c.cr.status.phase == NoPhase
    requires s.c.job.Some? && s.c.job.value.succeeded
    ensures
      var after := Run(d, Step(d, s, Operator), [Operator, Operator, Operator, Operator]);
      && after.pc == Idle && after.c.cr.status.phase == Completed
      && after.c.cr.specHash == Some(SpecHash(d, b)) && after.c.source == s.c.job
  {
    RunFour(d, Step(d, s, Operator), Operator, Operator, Operator, Operator);
  }

  /** A crash between Job creation and the first stamp, then an edit: the Job of the first
      spec is reported as the completed run of the second. */
  lemma CrashMisattributes(d: Digest, a: Spec, b: Spec, result: ApplyResult)
    requires FromUnstructured(Some(a)).Success? && FromUnstructured(Some(b)).Success?
    requires SpecHash(d, a) != SpecHash(d, b)
    ensures
      var before := Run(d, Initial(Some(a), ""), [Operator, Operator, Operator, Operator]);
      var after := Run(d, Crash(before), [Outside(EditSpec(Some(b))), Outside(JobSucceeds(Some(result)))] +
                                         ([Operator] + [Operator, Operator, Operator, Operator]));
      && Exposed(d, before)
      && after.pc == Idle
      && after.c.cr.status.phase == Completed
      && after.c.cr.specHash == Some(SpecHash(d, b))
      && after.c.source.Some? && after.c.source.value.from == a
  {
    hide Run, SpecHash;
    ReachesStamp(d, a);
    var before := JustBeforeStamp(d, a);
    var edit, success := Outside(EditSpec(Some(b))), Outside(JobSucceeds(Some(result)));
    var edited := Step(d, Crash(before), edit);
    var done := Step(d, edited, success);
    var calls := [Operator] + [Operator, Operator, Operator, Operator];
    MisattributesUnstamped(d, done, b);
    RunCons(d, done, Operator, [Operator, Operator, Operator, Operator]);
    RunCons(d, edited, success, calls);
    RunCons(d, Crash(before), edit, [success] + calls);
    assert [edit, success] + calls == [edit] + ([success] + calls);
  }

  lemma RunCons(d: Digest, s: State, l: Label, ls: seq<Label>)
    ensures Run(d, s, [l] + ls) == Run(d, Step(d, s, l), ls)
  {
    assert ([l] + ls)[1..] == ls;
  }

  lemma RunFour(d: Digest, s: State, l0: Label, l1: Label, l2: Label, l3: Label)
    ensures Run(d, s, [l0, l1, l2, l3]) == Step(d, Step(d, Step(d, Step(d, s, l0), l1), l2), l3)
  {
    var s3 := Step(d, Step(d, Step(d, s, l0), l1), l2);
    assert Run(d, s3, [l3]) == Step(d, s3, l3);
    RunCons(d, Step(d, Step(d, s, l0), l1), l2, [l3]);
    RunCons(d, Step(d, s, l0), l1, [l2] + [l3]);
    RunCons(d, s, l0, [l1] + ([l2] + [l3]));
    assert [l0] + ([l1] + ([l2] + [l3])) == [l0, l1, l2, l3];
  }
}
