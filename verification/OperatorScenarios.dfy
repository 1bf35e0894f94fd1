/** Runs from the initial state: one run, an edit that tears it down, and a second one. */
module OperatorScenarios {
  import opened Options
  import opened OperatorModel
  import opened OperatorSafety

  /** So many operator calls with nothing between them. */
  function Times(n: nat): seq<Label> { if n == 0 then [] else [Operator] + Times(n - 1) }

  lemma {:induction false} RunConcat(d: Digest, s: State, a: seq<Label>, b: seq<Label>)
    ensures Run(d, s, a + b) == Run(d, Run(d, s, a), b)
    decreases |a|
  {
    if a == [] {
      assert a + b == b;
    } else {
      RunConcat(d, Step(d, s, a[0]), a[1..], b);
      assert (a + b)[1..] == a[1..] + b;
    }
  }

  lemma RunTimes(d: Digest, s: State, n: nat)
    ensures Run(d, s, Times(n + 1)) == Run(d, Step(d, s, Operator), Times(n)) && Run(d, s, Times(0)) == s
  {
    assert Times(n + 1)[1..] == Times(n);
  }

  lemma RunThreeTimes(d: Digest, s: State)
    ensures Run(d, s, Times(3)) == Step(d, Step(d, Step(d, s, Operator), Operator), Operator)
  {
    RunTimes(d, s, 2);
    RunTimes(d, Step(d, s, Operator), 1);
    RunTimes(d, Step(d, Step(d, s, Operator), Operator), 0);
  }

  lemma RunOnce(d: Digest, s: State, l: Label)
    ensures Run(d, s, [l]) == Step(d, s, l)
  {
    assert [l][1..] == [];
    assert Run(d, s, [l]) == Run(d, Step(d, s, l), []);
  }

  // ----- The states on the way -----

  function TokenLog(token: string): seq<string> { if token == "" then [] else [token] }

  function Marking(r: Reading): PC { if r.token == "" then StampHash(r, JOB_CREATED, None) else MarkRetry(r) }

  function FreshJob(b: Spec): Job { Job(b, false, false, false, None) }

  function FirstReading(d: Digest, a: Spec, token: string): Reading {
    Reading(a, SpecHash(d, a), NoPhase, None, token, token != "")
  }

  /** The first Job exists; nothing is marked yet. */
  function FirstCreated(d: Digest, a: Spec, token: string): State {
    var cr := Resource(Some(a), None, token, "", Status(NoPhase, "", NoMessage));
    State(Cluster(cr, Some(FreshJob(a)), Some(a), None, [Creation(a, token, token != "")], [], None),
          Marking(FirstReading(d, a, token)))
  }

  /** The first reconcile has ended. */
  function FirstRunning(d: Digest, a: Spec, token: string): State {
    var cr := Resource(Some(a), Some(SpecHash(d, a)), token, token, JOB_CREATED);
    State(Cluster(cr, Some(FreshJob(a)), Some(a), None, [Creation(a, token, token != "")], TokenLog(token), None), Idle)
  }

  function SecondReading(d: Digest, a: Spec, b: Spec, token: string): Reading {
    Reading(b, SpecHash(d, b), Running, Some(SpecHash(d, a)), token, false)
  }

  /** The spec was edited and the first Job deleted; it is gone if it has vanished. */
  function TornDown(d: Digest, a: Spec, b: Spec, token: string, gone: bool): State {
    var cr := Resource(Some(b), Some(SpecHash(d, a)), token, token, JOB_CREATED);
    var job := if gone then None else Some(FreshJob(a).(terminating := true));
    State(Cluster(cr, job, Some(a), None, [Creation(a, token, token != "")], TokenLog(token), None),
          PatchPending(SecondReading(d, a, b, token)))
  }

  function SecondCreations(a: Spec, b: Spec, token: string): seq<Creation> {
    [Creation(a, token, token != ""), Creation(b, token, false)]
  }

  /** The second Job exists; nothing is marked yet. */
  function SecondCreated(d: Digest, a: Spec, b: Spec, token: string): State {
    var cr := Resource(Some(b), Some(SpecHash(d, a)), token, token, Status(Pending, "", StartingAfterSpecChange));
    State(Cluster(cr, Some(FreshJob(b)), Some(b), None, SecondCreations(a, b, token), TokenLog(token), None),
          Marking(SecondReading(d, a, b, token)))
  }

  // ----- How they follow each other -----

  lemma CreatesFirst(d: Digest, a: Spec, token: string)
    requires FromUnstructured(Some(a)).Success?
    ensures Run(d, Initial(Some(a), token), Times(4)) == FirstCreated(d, a, token)
  {
    hide SpecHash, Run;
    var s := Initial(Some(a), token);
    RunTimes(d, s, 3);
    RunThreeTimes(d, Step(d, s, Operator));
  }

  /** Marking, if there is a token, stamping and writing. */
  function MarkingCalls(token: string): nat { if token == "" then 2 else 3 }

  lemma MarksFirst(d: Digest, a: Spec, token: string)
    ensures Run(d, FirstCreated(d, a, token), Times(MarkingCalls(token))) == FirstRunning(d, a, token)
  {
    hide SpecHash, Run;
    var s := FirstCreated(d, a, token);
    if token == "" {
      RunTimes(d, s, 1);
      RunTimes(d, Step(d, s, Operator), 0);
      RunTimes(d, Step(d, Step(d, s, Operator), Operator), 0);
    } else {
      RunThreeTimes(d, s);
    }
  }

  function EditedRunning(d: Digest, a: Spec, b: Spec, token: string): State {
    Step(d, FirstRunning(d, a, token), Outside(EditSpec(Some(b))))
  }

  lemma TearsDown(d: Digest, a: Spec, b: Spec, token: string)
    requires FromUnstructured(Some(b)).Success? && SpecHash(d, a) != SpecHash(d, b)
    ensures Run(d, EditedRunning(d, a, b, token), Times(4)) == TornDown(d, a, b, token, false)
  {
    hide SpecHash, Run;
    var s := EditedRunning(d, a, b, token);
    RunTimes(d, s, 3);
    RunThreeTimes(d, Step(d, s, Operator));
  }

  lemma Vanishes(d: Digest, a: Spec, b: Spec, token: string)
    ensures Step(d, TornDown(d, a, b, token, false), Outside(JobVanishes)) == TornDown(d, a, b, token, true)
  {
  }

  lemma CreatesSecond(d: Digest, a: Spec, b: Spec, token: string)
    requires SpecHash(d, a) != SpecHash(d, b)
    ensures Run(d, TornDown(d, a, b, token, true), Times(3)) == SecondCreated(d, a, b, token)
  {
    hide SpecHash, Run;
    RunThreeTimes(d, TornDown(d, a, b, token, true));
  }

  /** A reconcile under a token, then an edit whose teardown takes effect before the new Job. */
  function TwoRuns(b: Spec, token: string): seq<Label> {
    Times(4) + (Times(MarkingCalls(token)) +
      ([Outside(EditSpec(Some(b)))] + (Times(4) + ([Outside(JobVanishes)] + Times(3)))))
  }

  lemma ReachesSecond(d: Digest, a: Spec, b: Spec, token: string)
    requires FromUnstructured(Some(a)).Success? && FromUnstructured(Some(b)).Success?
    requires SpecHash(d, a) != SpecHash(d, b)
    ensures Run(d, Initial(Some(a), token), TwoRuns(b, token)) == SecondCreated(d, a, b, token)
  {
    hide SpecHash, Run, Step;
    var vanish, edit := [Outside(JobVanishes)], [Outside(EditSpec(Some(b)))];
    var last := vanish + Times(3);
    var tail := edit + (Times(4) + last);
    CreatesFirst(d, a, token);
    RunConcat(d, Initial(Some(a), token), Times(4), Times(MarkingCalls(token)) + tail);
    MarksFirst(d, a, token);
    RunConcat(d, FirstCreated(d, a, token), Times(MarkingCalls(token)), tail);
    RunOnce(d, FirstRunning(d, a, token), Outside(EditSpec(Some(b))));
    RunConcat(d, FirstRunning(d, a, token), edit, Times(4) + last);
    TearsDown(d, a, b, token);
    RunConcat(d, EditedRunning(d, a, b, token), Times(4), last);
    RunOnce(d, TornDown(d, a, b, token, false), Outside(JobVanishes));
    Vanishes(d, a, b, token);
    RunConcat(d, TornDown(d, a, b, token, false), vanish, Times(3));
    CreatesSecond(d, a, b, token);
  }
}
