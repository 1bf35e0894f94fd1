/** Which request each Job answers: how retry tokens are consumed, and when the same token is
    used again. */
module OperatorRequests {
  import opened Options
  import opened OperatorModel
  import opened OperatorSafety
  import opened OperatorConvergence
  import opened OperatorScenarios

  /** The token a creation used, if any, is new against the last one used exactly when its
      reconcile saw a request. */
  predicate AsRequested(created: seq<Creation>, j: nat)
    requires j < |created|
  {
    created[j].requested <==> created[j].token != "" && created[j].token != Last(Tokens(created[..j]))
  }

  predicate AllAsRequested(created: seq<Creation>) {
    forall j :: 0 <= j < |created| ==> AsRequested(created, j)
  }

  /** A reading that may still lead to a creation agrees with the applied token. */
  predicate RequestCurrent(c: Cluster, pc: PC) {
    pc.GetJob? || pc.RemoveFile? || pc.DeleteJob? || pc.PatchPending? || pc.UpsertConfigMap? || pc.CreateJob? ==>
      (pc.r.requested <==> pc.r.token != "" && pc.r.token != c.cr.retryApplied)
  }

  predicate RequestInv(s: State) { AllAsRequested(s.c.created) && RequestCurrent(s.c, s.pc) }

  lemma CreationAppended(created: seq<Creation>, x: Creation)
    requires AllAsRequested(created)
    requires x.requested <==> x.token != "" && x.token != Last(Tokens(created))
    ensures AllAsRequested(created + [x])
  {
    forall j | 0 <= j < |created + [x]| ensures AsRequested(created + [x], j) {
      assert (created + [x])[..j] == created[..j];
      if j < |created| {
        assert AsRequested(created, j);
      } else {
        assert created[..j] == created;
      }
    }
  }

  lemma CreationAsRequested(d: Digest, s: State)
    requires Inv(d, s) && RequestInv(s) && s.pc.CreateJob?
    ensures RequestInv(Step(d, s, Operator))
  {
    if s.c.job.None? { CreationAppended(s.c.created, Creation(s.pc.r.spec, s.pc.r.token, s.pc.r.requested)); }
  }

  lemma ReadIsCurrent(d: Digest, c: Cluster)
    ensures RequestCurrent(c, Read(d, c.cr))
  {
  }

  lemma OtherCallsKeepRequests(d: Digest, s: State)
    requires Inv(d, s) && RequestInv(s) && !s.pc.CreateJob? && !s.pc.Idle?
    ensures RequestInv(Step(d, s, Operator))
  {
  }

  lemma StepKeepsRequests(d: Digest, s: State, l: Label)
    requires Inv(d, s) && RequestInv(s)
    ensures RequestInv(Step(d, s, l))
  {
    hide Inv;
    if l.Operator? {
      if s.pc.CreateJob? {
        CreationAsRequested(d, s);
      } else if s.pc.Idle? {
        ReadIsCurrent(d, s.c);
      } else {
        OtherCallsKeepRequests(d, s);
      }
    }
  }

  lemma {:induction false} RunKeepsRequests(d: Digest, s: State, ls: seq<Label>)
    requires Inv(d, s) && RequestInv(s)
    ensures RequestInv(Run(d, s, ls))
    decreases |ls|
  {
    hide Inv, RequestInv, Step;
    if ls != [] {
      StepKeepsRequests(d, s, ls[0]);
      if ls[0].Operator? { OperatorKeeps(d, s); } else { OutsideKeeps(d, s, ls[0].e); }
      RunKeepsRequests(d, Step(d, s, ls[0]), ls[1..]);
    }
  }

  lemma {:induction false} UsedThenLast(created: seq<Creation>, i: nat)
    requires i < |created| && created[i].token != ""
    ensures Last(Tokens(created)) == created[i].token
      || exists k :: i < k < |created| && created[k].token != "" && created[k].token != created[i].token
  {
    var n := |created| - 1;
    if created[n].token == "" {
      UsedThenLast(created[..n], i);
      if Last(Tokens(created)) != created[i].token {
        var k :| i < k < n && created[..n][k].token != "" && created[..n][k].token != created[i].token;
        assert created[k].token != "" && created[k].token != created[i].token;
      }
    } else if created[n].token != created[i].token {
      assert i < n;
    }
  }

  /** On every crash-free run a creation uses a new token, non-empty and different from the last
      one used, exactly if its reconcile saw a request; every other one uses none or the last one
      again. */
  lemma RequestsUseNewTokens(d: Digest, spec: Option<Spec>, retry: string, ls: seq<Label>, j: nat)
    requires j < |Run(d, Initial(spec, retry), ls).c.created|
    ensures
      var created := Run(d, Initial(spec, retry), ls).c.created;
      created[j].requested <==> created[j].token != "" && created[j].token != Last(Tokens(created[..j]))
  {
    RunKeepsRequests(d, Initial(spec, retry), ls);
    assert AsRequested(Run(d, Initial(spec, retry), ls).c.created, j);
  }

  /** So a request is consumed by one creation: two requested creations with the same token have
      one with another token between. */
  lemma RequestsConsumedOnce(d: Digest, spec: Option<Spec>, retry: string, ls: seq<Label>, i: nat, j: nat)
    requires i < j < |Run(d, Initial(spec, retry), ls).c.created|
    ensures
      var created := Run(d, Initial(spec, retry), ls).c.created;
      created[j].requested && created[i].token == created[j].token ==>
        exists k :: i < k < j && created[k].token != "" && created[k].token != created[j].token
  {
    var created := Run(d, Initial(spec, retry), ls).c.created;
    RequestsUseNewTokens(d, spec, retry, ls, j);
    if created[j].requested && created[i].token == created[j].token {
      UsedThenLast(created[..j], i);
      var k :| i < k < j && created[..j][k].token != "" && created[..j][k].token != created[..j][i].token;
      assert created[k].token != "" && created[k].token != created[j].token;
    }
  }

  /** From any idle state of any run: when the hash has changed while the applied token still
      stands, the Job that answers the edit uses and marks that token again. */
  lemma EditReusesAppliedToken(d: Digest, c: Cluster, b: Spec, rounds: seq<Round>)
    requires Inv(d, State(c, Idle)) && CalmRounds(rounds) && Unblocked(d, c, rounds) >= 2
    requires c.cr.spec == Some(b) && FromUnstructured(Some(b)).Success?
    requires SpecChanged(c.cr.specHash, SpecHash(d, b)) && c.cr.retry == c.cr.retryApplied != ""
    ensures
      var c' := Rounds(d, c, rounds);
      c'.created == c.created + [Creation(b, c.cr.retry, false)] && c'.applied == c.applied + [c.cr.retry]
  {
    var c' := Rounds(d, c, rounds);
    TwoUnblockedReconcilesConverge(d, c, b, rounds);
    TokensAppend(c.created, Creation(b, c.cr.retry, false));
    assert c.applied + [] == c.applied && c'.applied + [] == c'.applied;
  }

  /** It happens: a run from the initial state under a token, an edit, and the Job for the edited
      spec mark the token twice. */
  lemma TokenUsedTwice(d: Digest, a: Spec, b: Spec, token: string)
    requires FromUnstructured(Some(a)).Success? && FromUnstructured(Some(b)).Success?
    requires SpecHash(d, a) != SpecHash(d, b) && token != ""
    ensures
      var s := Run(d, Initial(Some(a), token), TwoRuns(b, token) + [Operator]);
      && s.c.applied == [token, token]
      && s.c.created == [Creation(a, token, true), Creation(b, token, false)]
  {
    hide SpecHash, Run;
    ReachesSecond(d, a, b, token);
    RunConcat(d, Initial(Some(a), token), TwoRuns(b, token), [Operator]);
    RunOnce(d, SecondCreated(d, a, b, token), Operator);
  }
}
