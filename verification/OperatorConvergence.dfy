/** Once users stop editing: every outstanding request is answered by exactly one Job, in a
    bounded number of reconciles, after which reconciling changes nothing. */
module OperatorConvergence {
  import opened Options
  import opened OperatorModel
  import opened OperatorSafety

  /** A request the operator has not acted on: another hash than the stored one, or a retry
      token that was not applied. */
  predicate Outstanding(d: Digest, c: Cluster, b: Spec) {
    SpecChanged(c.cr.specHash, SpecHash(d, b)) || RetryRequested(c.cr)
  }

  /** The goal: the stored hash is current, no retry is pending, and there is either a Job
      of that hash that nobody deleted or a completed run. */
  predicate Converged(d: Digest, c: Cluster, b: Spec) {
    && c.cr.specHash == Some(SpecHash(d, b))
    && !RetryRequested(c.cr)
    && (LiveJob(c) || c.cr.status.phase == Completed)
  }

  /** Job operations left: tear down and create, create, none. */
  function Rank(d: Digest, c: Cluster, b: Spec): nat {
    if Converged(d, c, b) then 0 else if LiveJob(c) then 2 else 1
  }

  /** Rank during a reconcile; once the Job is created only its two marks are missing. */
  function RankAt(d: Digest, s: State, b: Spec): nat {
    if JobAhead(s.pc) || StatusBehind(s.pc) then 0 else Rank(d, s.c, b)
  }

  // ----- One reconcile without edits -----

  /** The fixed wish, and what is known at the start: the creations so far, whether the
      request was outstanding, the rank, and whether a deleted Job was still in the way. */
  datatype Wish = Wish(
    spec: Spec, token: string, requested: bool, base: seq<Creation>, outstanding: bool, rank: nat, blocked: bool)

  /** What the reconcile has read still agrees with the cluster. */
  predicate UpToDate(c: Cluster, w: Wish, r: Reading) {
    r.spec == w.spec && r.token == w.token && r.requested == RetryRequested(c.cr)
  }

  predicate WishPC(d: Digest, c: Cluster, w: Wish, pc: PC) {
    match pc
    case Idle => true
    case RejectSpec(_) => false
    case GetJob(r) => UpToDate(c, w, r)
    case RemoveFile(r) => UpToDate(c, w, r) && Outstanding(d, c, w.spec)
    case DeleteJob(r) => UpToDate(c, w, r) && Outstanding(d, c, w.spec)
    case PatchPending(r) => UpToDate(c, w, r) && Rank(d, c, w.spec) == 1
    case UpsertConfigMap(r) => UpToDate(c, w, r) && Rank(d, c, w.spec) == 1
    case CreateJob(r) => UpToDate(c, w, r) && Rank(d, c, w.spec) == 1
    case PatchWaiting(r) => UpToDate(c, w, r) && Rank(d, c, w.spec) == 1
    case MarkRetry(r) => UpToDate(c, w, r)
    case ReadResult(r, _) => r.spec == w.spec && !Outstanding(d, c, w.spec) && c.cr.status.phase != Completed
    case StampHash(r, _, seen) =>
      r.spec == w.spec && !RetryRequested(c.cr) &&
      (seen.Some? ==> !Outstanding(d, c, w.spec) && c.cr.status.phase != Completed)
    case WriteStatus(r, _, seen) =>
      r.spec == w.spec && !RetryRequested(c.cr) &&
      (seen.Some? ==> !Outstanding(d, c, w.spec) && c.cr.status.phase != Completed)
  }

  /** A reconcile that no deleted Job blocks is on its way to a smaller rank. */
  predicate OnTrack(d: Digest, s: State, w: Wish) {
    || RankAt(d, s, w.spec) < w.rank
    || (w.rank == 1 && (s.pc.GetJob? || s.pc.UpsertConfigMap? || s.pc.CreateJob?) && s.c.job.None?)
    || (w.rank == 2 && ((s.pc.GetJob? && LiveJob(s.c)) || s.pc.RemoveFile? || s.pc.DeleteJob?))
    || w.rank == 0
  }

  /** No Job was created yet and an outstanding request still is, or exactly the wished Job
      was created and nothing is left to do. */
  predicate Answered(d: Digest, s: State, w: Wish) {
    || (&& s.c.created == w.base
        && (w.outstanding ==> Outstanding(d, s.c, w.spec))
        && !JobAhead(s.pc) && !StatusBehind(s.pc)
        && RetryRequested(s.c.cr) == w.requested)
    || (s.c.created == w.base + [Creation(w.spec, w.token, w.requested)] && RankAt(d, s, w.spec) == 0)
  }

  predicate Granting(d: Digest, s: State, w: Wish) {
    && s.c.cr.spec == Some(w.spec) && FromUnstructured(Some(w.spec)).Success?
    && s.c.cr.retry == w.token
    && WishPC(d, s.c, w, s.pc)
    && RankAt(d, s, w.spec) <= w.rank
    && Answered(d, s, w)
    && (!w.blocked && !s.pc.Idle? ==> OnTrack(d, s, w))
    && (!w.blocked && s.pc.Idle? && w.rank > 0 ==> RankAt(d, s, w.spec) < w.rank)
  }

  lemma DispatchGrants(d: Digest, c: Cluster, r: Reading, w: Wish)
    requires Inv(d, State(c, GetJob(r))) && Granting(d, State(c, GetJob(r)), w)
    ensures Granting(d, State(c, Dispatch(c, r)), w)
  {
    hide SpecHash, FromUnstructured, Tokens;
  }

  lemma PreparationGrants(d: Digest, s: State, w: Wish)
    requires Inv(d, s) && Granting(d, s, w)
    requires s.pc.RejectSpec? || s.pc.RemoveFile? || s.pc.DeleteJob? || s.pc.PatchPending? || s.pc.UpsertConfigMap?
      || s.pc.PatchWaiting?
    ensures Granting(d, Step(d, s, Operator), w)
  {
    hide SpecHash, FromUnstructured, Tokens;
  }

  lemma CreationGrants(d: Digest, s: State, w: Wish)
    requires Inv(d, s) && Granting(d, s, w) && s.pc.CreateJob?
    ensures Granting(d, Step(d, s, Operator), w)
  {
    hide SpecHash, FromUnstructured, Tokens;
  }

  lemma MarkGrants(d: Digest, s: State, w: Wish)
    requires Inv(d, s) && Granting(d, s, w) && s.pc.MarkRetry?
    ensures Granting(d, Step(d, s, Operator), w)
  {
    hide SpecHash, FromUnstructured, Tokens;
  }

  lemma StampGrants(d: Digest, s: State, w: Wish)
    requires Inv(d, s) && Granting(d, s, w) && (s.pc.ReadResult? || s.pc.StampHash?)
    ensures Granting(d, Step(d, s, Operator), w)
  {
    hide SpecHash, FromUnstructured, Tokens;
  }

  lemma ReportGrants(d: Digest, s: State, w: Wish)
    requires Inv(d, s) && Granting(d, s, w) && s.pc.WriteStatus?
    ensures Granting(d, Step(d, s, Operator), w)
  {
    hide SpecHash, FromUnstructured, Tokens;
  }

  lemma OperatorGrants(d: Digest, s: State, w: Wish)
    requires Inv(d, s) && Granting(d, s, w) && !s.pc.Idle?
    ensures Granting(d, Step(d, s, Operator), w)
  {
    hide Inv, Granting;
    match s.pc
    case GetJob(r) => DispatchGrants(d, s.c, r, w);
    case CreateJob(_) => CreationGrants(d, s, w);
    case MarkRetry(_) => MarkGrants(d, s, w);
    case ReadResult(_, _) => StampGrants(d, s, w);
    case StampHash(_, _, _) => StampGrants(d, s, w);
    case WriteStatus(_, _, _) => ReportGrants(d, s, w);
    case _ => PreparationGrants(d, s, w);
  }

  /** Success, failure and a late file change nothing that is granted. */
  lemma OutcomeGrants(d: Digest, s: State, w: Wish, e: Env)
    requires Inv(d, s) && Granting(d, s, w) && (e.JobSucceeds? || e.JobFails? || e.ResultAppears?)
    ensures Granting(d, Step(d, s, Outside(e)), w)
  {
    hide SpecHash, FromUnstructured, Tokens;
    SameRank(d, s, EnvStep(s.c, e), w.spec);
  }

  lemma SameRank(d: Digest, s: State, c: Cluster, b: Spec)
    requires c.cr == s.c.cr && LiveJob(c) == LiveJob(s.c)
    ensures RankAt(d, State(c, s.pc), b) == RankAt(d, s, b) && Rank(d, c, b) == Rank(d, s.c, b)
  {
  }

  /** Only a terminating Job vanishes, and that was no live one. */
  lemma VanishingGrants(d: Digest, s: State, w: Wish)
    requires Inv(d, s) && Granting(d, s, w)
    ensures Granting(d, Step(d, s, Outside(JobVanishes)), w)
  {
    hide SpecHash, FromUnstructured, Tokens;
    SameRank(d, s, EnvStep(s.c, JobVanishes), w.spec);
  }

  lemma OutsideGrants(d: Digest, s: State, w: Wish, e: Env)
    requires Inv(d, s) && Granting(d, s, w) && !IsEdit(e)
    ensures Granting(d, Step(d, s, Outside(e)), w)
  {
    hide Inv, Granting;
    if e.JobVanishes? { VanishingGrants(d, s, w); } else { OutcomeGrants(d, s, w, e); }
  }

  predicate Calm(es: seq<Env>) { forall i :: 0 <= i < |es| ==> !IsEdit(es[i]) }

  predicate CalmBatches(batches: seq<seq<Env>>) { forall i :: 0 <= i < |batches| ==> Calm(batches[i]) }

  lemma {:induction false} InterfereGrants(d: Digest, c: Cluster, pc: PC, w: Wish, es: seq<Env>)
    requires Inv(d, State(c, pc)) && Granting(d, State(c, pc), w) && Calm(es)
    ensures Inv(d, State(Interfere(c, es), pc)) && Granting(d, State(Interfere(c, es), pc), w)
    decreases |es|
  {
    hide Inv, Granting;
    if es != [] {
      OutsideKeeps(d, State(c, pc), es[0]);
      OutsideGrants(d, State(c, pc), w, es[0]);
      InterfereGrants(d, EnvStep(c, es[0]), pc, w, es[1..]);
    }
  }

  lemma {:induction false} FinishGrants(d: Digest, c: Cluster, pc: PC, w: Wish, batches: seq<seq<Env>>)
    requires Inv(d, State(c, pc)) && Granting(d, State(c, pc), w) && CalmBatches(batches)
    ensures Inv(d, State(Finish(d, c, pc, batches), Idle))
    ensures Granting(d, State(Finish(d, c, pc, batches), Idle), w)
    decreases Remaining(pc)
  {
    hide Inv, Granting, Effect, Next;
    if !pc.Idle? {
      OperatorKeeps(d, State(c, pc));
      OperatorGrants(d, State(c, pc), w);
      InterfereGrants(d, Effect(c, pc), Next(d, c, pc), w, Head(batches));
      FinishGrants(d, Interfere(Effect(c, pc), Head(batches)), Next(d, c, pc), w, Tail(batches));
    }
  }

  // ----- Many reconciles without edits -----

  /** Outside events, then a reconcile interleaved with more of them. */
  datatype Round = Round(before: seq<Env>, during: seq<seq<Env>>)

  predicate CalmRounds(rounds: seq<Round>) {
    forall i :: 0 <= i < |rounds| ==> Calm(rounds[i].before) && CalmBatches(rounds[i].during)
  }

  function Rounds(d: Digest, c: Cluster, rounds: seq<Round>): Cluster
    decreases |rounds|
  {
    if rounds == [] then c
    else Rounds(d, Reconcile(d, Interfere(c, rounds[0].before), rounds[0].during), rounds[1..])
  }

  predicate DeletedJobLingers(c: Cluster) { c.job.Some? && c.job.value.terminating }

  /** How many of the reconciles start when no deleted Job lingers. */
  function Unblocked(d: Digest, c: Cluster, rounds: seq<Round>): nat
    decreases |rounds|
  {
    if rounds == [] then 0
    else
      var ready := Interfere(c, rounds[0].before);
      (if DeletedJobLingers(ready) then 0 else 1) +
      Unblocked(d, Reconcile(d, ready, rounds[0].during), rounds[1..])
  }

  function Less(rank: nat, n: nat): nat { if rank <= n then 0 else rank - n }

  /** Starting a reconcile fixes the rank to beat. */
  lemma ReadGrants(d: Digest, c: Cluster, w: Wish)
    requires Inv(d, State(c, Idle)) && Granting(d, State(c, Idle), w) && w.blocked
    ensures
      var w' := w.(rank := Rank(d, c, w.spec), blocked := DeletedJobLingers(c));
      Inv(d, State(c, Read(d, c.cr))) && Granting(d, State(c, Read(d, c.cr)), w')
  {
    OperatorKeeps(d, State(c, Idle));
  }

  lemma ReconcileGrants(d: Digest, c: Cluster, w: Wish, batches: seq<seq<Env>>)
    requires Inv(d, State(c, Idle)) && Granting(d, State(c, Idle), w) && w.blocked && CalmBatches(batches)
    ensures
      var c' := Reconcile(d, c, batches);
      && Inv(d, State(c', Idle)) && Granting(d, State(c', Idle), w)
      && Rank(d, c', w.spec) <= Less(Rank(d, c, w.spec), if DeletedJobLingers(c) then 0 else 1)
  {
    var w' := w.(rank := Rank(d, c, w.spec), blocked := DeletedJobLingers(c));
    var pc := Read(d, c.cr);
    ReadGrants(d, c, w);
    InterfereGrants(d, c, pc, w', Head(batches));
    FinishGrants(d, Interfere(c, Head(batches)), pc, w', Tail(batches));
  }

  lemma WaitGrants(d: Digest, c: Cluster, w: Wish, es: seq<Env>)
    requires Inv(d, State(c, Idle)) && Granting(d, State(c, Idle), w) && w.blocked && Calm(es)
    ensures
      var c' := Interfere(c, es);
      && Inv(d, State(c', Idle)) && Granting(d, State(c', Idle), w)
      && Rank(d, c', w.spec) <= Rank(d, c, w.spec)
  {
    InterfereGrants(d, c, Idle, w.(rank := Rank(d, c, w.spec)), es);
  }

  lemma LessTwice(rank: nat, middle: nat, last: nat, k: nat, n: nat)
    requires middle <= Less(rank, k) && last <= Less(middle, n)
    ensures last <= Less(rank, k + n)
  {
  }

  /** One round: some waiting, then a reconcile. */
  lemma RoundGrants(d: Digest, c: Cluster, w: Wish, round: Round)
    requires Inv(d, State(c, Idle)) && Granting(d, State(c, Idle), w) && w.blocked
    requires Calm(round.before) && CalmBatches(round.during)
    ensures
      var ready := Interfere(c, round.before);
      var c' := Reconcile(d, ready, round.during);
      && Inv(d, State(c', Idle)) && Granting(d, State(c', Idle), w)
      && Rank(d, c', w.spec) <= Less(Rank(d, c, w.spec), if DeletedJobLingers(ready) then 0 else 1)
  {
    hide Reconcile, Interfere, Rank, Granting, Inv;
    WaitGrants(d, c, w, round.before);
    ReconcileGrants(d, Interfere(c, round.before), w, round.during);
  }

  lemma {:induction false} RoundsGrant(d: Digest, c: Cluster, w: Wish, rounds: seq<Round>)
    requires Inv(d, State(c, Idle)) && CalmRounds(rounds)
    requires w.blocked && Granting(d, State(c, Idle), w)
    ensures
      var c' := Rounds(d, c, rounds);
      && Inv(d, State(c', Idle))
      && Granting(d, State(c', Idle), w)
      && Rank(d, c', w.spec) <= Less(Rank(d, c, w.spec), Unblocked(d, c, rounds))
    decreases |rounds|
  {
    hide Reconcile, Interfere, Rank, Granting, Inv;
    if rounds != [] {
      var ready := Interfere(c, rounds[0].before);
      var c1 := Reconcile(d, ready, rounds[0].during);
      RoundGrants(d, c, w, rounds[0]);
      RoundsGrant(d, c1, w, rounds[1..]);
      LessTwice(Rank(d, c, w.spec), Rank(d, c1, w.spec), Rank(d, Rounds(d, c, rounds), w.spec),
                if DeletedJobLingers(ready) then 0 else 1, Unblocked(d, c1, rounds[1..]));
    }
  }

  /** From any idle state of any run, with the spec valid and no more edits: two reconciles
      that start without a lingering deleted Job, among any number and under any other
      outside events, reach the goal. An outstanding request is then answered by exactly
      one Job, created from the last edited spec and token; without one at most one Job is
      created. */
  lemma TwoUnblockedReconcilesConverge(d: Digest, c: Cluster, b: Spec, rounds: seq<Round>)
    requires Inv(d, State(c, Idle)) && CalmRounds(rounds)
    requires c.cr.spec == Some(b) && FromUnstructured(Some(b)).Success?
    requires Unblocked(d, c, rounds) >= 2
    ensures
      var c' := Rounds(d, c, rounds);
      && Inv(d, State(c', Idle))
      && Converged(d, c', b)
      && (c'.created == c.created || c'.created == c.created + [Creation(b, c.cr.retry, RetryRequested(c.cr))])
      && (Outstanding(d, c, b) ==> c'.created == c.created + [Creation(b, c.cr.retry, RetryRequested(c.cr))])
  {
    var w := Wish(b, c.cr.retry, RetryRequested(c.cr), c.created, Outstanding(d, c, b), 2, true);
    RoundsGrant(d, c, w, rounds);
  }

  /** Without outside events, one reconcile reaches a state that reconciling keeps. */
  lemma SettledIsFixpoint(d: Digest, c: Cluster, b: Spec)
    requires Inv(d, State(c, Idle)) && Converged(d, c, b)
    requires c.cr.spec == Some(b) && FromUnstructured(Some(b)).Success?
    ensures
      var c' := Reconcile(d, c, []);
      Converged(d, c', b) && Reconcile(d, c', []) == c'
  {
    Settles(d, c, b);
    ReconcileKeeps(d, c, []);
    Settles(d, Reconcile(d, c, []), b);
  }

  /** The status a reconcile without outside events writes to a converged cluster. */
  function Settled(c: Cluster): Cluster {
    if c.cr.status.phase == Completed || c.job.None? then c
    else if c.job.value.succeeded then PutStatus(c, ResultStatus(c.statusFile), c.job)
    else if c.job.value.failed then PutStatus(c, Status(Failed, "", JobHasFailed), c.job)
    else if c.cr.status.phase != Running then PutStatus(c, Status(Running, "", JobIsRunning), c.job)
    else c
  }

  lemma Settles(d: Digest, c: Cluster, b: Spec)
    requires Inv(d, State(c, Idle)) && Converged(d, c, b)
    requires c.cr.spec == Some(b) && FromUnstructured(Some(b)).Success?
    ensures Reconcile(d, c, []) == Settled(c)
  {
    var pc := Read(d, c.cr);
    var pc1 := Next(d, c, pc);
    assert Reconcile(d, c, []) == Finish(d, c, pc1, []);
    if pc1.StampHash? {
      StampEnds(d, c, pc1);
    } else if pc1.ReadResult? {
      assert Finish(d, c, pc1, []) == Finish(d, c, Next(d, c, pc1), []);
      StampEnds(d, c, Next(d, c, pc1));
    }
  }

  lemma StampEnds(d: Digest, c: Cluster, pc: PC)
    requires pc.StampHash? && c.cr.specHash == Some(pc.r.hash)
    ensures Finish(d, c, pc, []) == PutStatus(c, pc.status, pc.seen)
  {
    var pc1 := Next(d, c, pc);
    assert Effect(c, pc) == c;
    assert Finish(d, c, pc, []) == Finish(d, c, pc1, []);
    assert Next(d, c, pc1) == Idle;
    assert Finish(d, c, pc1, []) == Effect(c, pc1);
  }

  // ----- A completed run is final -----

  predicate CalmLabels(ls: seq<Label>) { forall i :: 0 <= i < |ls| ==> ls[i].Outside? ==> !IsEdit(ls[i].e) }

  /** A completed run nobody asked to repeat. */
  predicate Final(d: Digest, s: State, b: Spec) {
    && s.c.cr.spec == Some(b) && FromUnstructured(Some(b)).Success?
    && s.c.cr.status.phase == Completed
    && !Outstanding(d, s.c, b)
    && (s.pc.Idle? || (s.pc.GetJob? && s.pc.r.phase == Completed && !s.pc.r.requested &&
                       !SpecChanged(s.pc.r.stored, s.pc.r.hash)))
  }

  /** Nothing but an edit ever changes the resource again: in particular a status file that
      appears after "status file pending" was reported is never read, and the run id stays
      empty. */
  lemma {:induction false} CompletedIsFinal(d: Digest, s: State, b: Spec, ls: seq<Label>)
    requires Final(d, s, b) && CalmLabels(ls)
    ensures
      var s' := Run(d, s, ls);
      Final(d, s', b) && s'.c.cr == s.c.cr && s'.c.created == s.c.created
    decreases |ls|
  {
    if ls != [] {
      CompletedIsFinal(d, Step(d, s, ls[0]), b, ls[1..]);
    }
  }

  // ----- Edits after a completed run -----

  /** An edit to a valid spec with the same hash is never acted on. */
  lemma SameHashEditIgnored(d: Digest, s: State, b: Spec, b': Spec, ls: seq<Label>)
    requires Final(d, s, b) && CalmLabels(ls)
    requires FromUnstructured(Some(b')).Success? && SpecHash(d, b') == SpecHash(d, b)
    ensures
      var s' := Run(d, Step(d, s, Outside(EditSpec(Some(b')))), ls);
      s'.c.cr == s.c.cr.(spec := Some(b')) && s'.c.created == s.c.created
  {
    CompletedIsFinal(d, Step(d, s, Outside(EditSpec(Some(b')))), b', ls);
  }

  /** Which edits have the same hash: those of topology, baseline and hardware checks and the
      planner choice, ... */
  lemma UndigestedFields(b: Spec, topology: string, checkBaseline: bool, checkHardware: Option<bool>, useOllama: bool)
    ensures
      var b' := b.(topology := topology, checkBaseline := checkBaseline,
                   checkHardware := checkHardware, useOllama := useOllama);
      HashInput(b') == HashInput(b) && FromUnstructured(Some(b')).Success? == FromUnstructured(Some(b)).Success?
  {
  }

  /** ... those that join two clients into one with a space between, ... */
  lemma JoinedClientsCollide(b: Spec, x: string, y: string)
    ensures HashInput(b.(clients := [x + " " + y])) == HashInput(b.(clients := [x, y]))
  {
    assert [x, y][1..] == [y];
    assert JoinSpaced([x + " " + y]) == x + " " + y;
    assert JoinSpaced([x, y]) == x + " " + y;
  }

  lemma ShiftedText(x: string, y: string, z: string)
    ensures (x + "|" + y) + "|" + z == x + "|" + (y + "|" + z)
  {
  }

  /** ... and those that move text across a separator. */
  lemma ShiftedTextCollides(b: Spec, x: string, y: string, z: string)
    ensures HashInput(b.(profile := x + "|" + y, target := z)) == HashInput(b.(profile := x, target := y + "|" + z))
  {
    ShiftedText(x, y, z);
  }

  lemma {:induction false} InterfereCalm(c: Cluster, es: seq<Env>)
    requires Calm(es)
    ensures Interfere(c, es).cr == c.cr && Interfere(c, es).created == c.created
    decreases |es|
  {
    if es != [] { InterfereCalm(EnvStep(c, es[0]), es[1..]); }
  }

  lemma FinalReconcile(d: Digest, c: Cluster, b: Spec, batches: seq<seq<Env>>)
    requires Final(d, State(c, Idle), b) && CalmBatches(batches)
    ensures Reconcile(d, c, batches).cr == c.cr && Reconcile(d, c, batches).created == c.created
  {
    var pc, c1 := Read(d, c.cr), Interfere(c, Head(batches));
    InterfereCalm(c, Head(batches));
    InterfereCalm(c1, Head(Tail(batches)));
    assert Effect(c1, pc) == c1 && Next(d, c1, pc) == Idle;
    assert Finish(d, c1, pc, Tail(batches)) == Finish(d, Interfere(c1, Head(Tail(batches))), Idle, Tail(Tail(batches)));
  }

  lemma {:induction false} FinalRounds(d: Digest, c: Cluster, b: Spec, rounds: seq<Round>)
    requires Final(d, State(c, Idle), b) && CalmRounds(rounds)
    ensures Rounds(d, c, rounds).cr == c.cr && Rounds(d, c, rounds).created == c.created
    decreases |rounds|
  {
    if rounds != [] {
      var ready := Interfere(c, rounds[0].before);
      InterfereCalm(c, rounds[0].before);
      FinalReconcile(d, ready, b, rounds[0].during);
      FinalRounds(d, Reconcile(d, ready, rounds[0].during), b, rounds[1..]);
    }
  }

  /** Whether an edit after a completed run is acted on: with no later edits and two reconciles
      that no deleted Job blocks, exactly one Job is created, from the edited spec, if and only
      if the hash changed, and otherwise none. */
  lemma EditAnsweredIff(d: Digest, c: Cluster, b: Spec, b': Spec, rounds: seq<Round>)
    requires Inv(d, State(c, Idle)) && Final(d, State(c, Idle), b) && CalmRounds(rounds)
    requires FromUnstructured(Some(b')).Success?
    requires Unblocked(d, EnvStep(c, EditSpec(Some(b'))), rounds) >= 2
    ensures
      var c' := Rounds(d, EnvStep(c, EditSpec(Some(b'))), rounds);
      && (SpecHash(d, b') != SpecHash(d, b) <==> c'.created == c.created + [Creation(b', c.cr.retry, false)])
      && (SpecHash(d, b') == SpecHash(d, b) <==> c'.created == c.created)
  {
    var edited := EnvStep(c, EditSpec(Some(b')));
    OutsideKeeps(d, State(c, Idle), EditSpec(Some(b')));
    assert c.cr.specHash == Some(SpecHash(d, b));
    if SpecHash(d, b') == SpecHash(d, b) {
      FinalRounds(d, edited, b', rounds);
    } else {
      TwoUnblockedReconcilesConverge(d, edited, b', rounds);
    }
  }
}
