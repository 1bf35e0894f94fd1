/** The registry of runs in flight, and the races between its load-modify-store updates. */
module RunProgress {
  import opened Options
  import opened Schema

  datatype Phase = Queued | Running | Aggregating | Failed

  datatype Progress = Progress(
    id: string, phase: Phase, total: nat, completed: nat, profile: string, error: string,
    started: int, updated: int, latest: Option<IntervalSample>, intervals: nat)

  function Counted(p: Progress, now: int): Progress { p.(completed := p.completed + 1, updated := now) }

  function Sampled(p: Progress, sample: IntervalSample, now: int): Progress {
    p.(latest := Some(sample), intervals := p.intervals + 1, updated := now)
  }

  /** The process-wide map; each method is one call without interference. */
  class Registry {
    var active: map<string, Progress>

    constructor ()
      ensures active == map[]
    {
      active := map[];
    }

    method Set(p: Progress, now: int)
      modifies this
      ensures active == old(active)[p.id := p.(updated := now)]
    {
      active := active[p.id := p.(updated := now)];
    }

    method Get(id: string) returns (p: Option<Progress>)
      ensures p == if id in active then Some(active[id]) else None
    {
      if id !in active {
        return None;
      }
      p := Some(active[id]);
    }

    method Clear(id: string)
      modifies this
      ensures active == old(active) - {id}
    {
      active := active - {id};
    }

    method IncrementDone(id: string, now: int)
      modifies this
      ensures id !in old(active) ==> active == old(active)
      ensures id in old(active) ==>
        var p := old(active)[id];
        active == old(active)[id := p.(completed := p.completed + 1, updated := now)]
    {
      if id !in active {
        return;
      }
      var p := active[id];
      p := p.(completed := p.completed + 1);
      p := p.(updated := now);
      active := active[id := p];
    }

    method RecordInterval(id: string, sample: IntervalSample, now: int)
      modifies this
      ensures id !in old(active) ==> active == old(active)
      ensures id in old(active) ==>
        var p := old(active)[id];
        active == old(active)[id := p.(latest := Some(sample), intervals := p.intervals + 1, updated := now)]
    {
      if id !in active {
        return;
      }
      var p := active[id];
      p := p.(latest := Some(sample));
      p := p.(intervals := p.intervals + 1);
      p := p.(updated := now);
      active := active[id := p];
    }
  }

  // ----- One run: callbacks race with each other, the drain loop with nobody -----

  /** A goroutine that calls RecordInterval any number of times before it ends; between the
      load and the store it holds a copy. */
  datatype Caller = Idle | Holding(copy: Progress) | Ended

  /** The goroutine of Service.Run: waiting for the callers, draining the channel (between the
      load and the store of IncrementDone it holds a copy), done aggregating, or returned. */
  datatype Main = Waiting | Draining(drained: nat, held: Option<Progress>) | Aggregated | Returned

  /** entry is what the registry has for the run. The last two are history: how often a
      callback loaded and stored. */
  datatype State = State(
    assignments: nat, entry: Option<Progress>, callers: seq<Caller>, main: Main, loads: nat, stores: nat)

  datatype Event =
    | Load(caller: nat)
    | Store(caller: nat, sample: IntervalSample, now: int)
    | End(caller: nat)
    | Join
    | LoadDone
    | StoreDone(now: int)
    | Aggregate(now: int)
    | Return

  function StepCaller(s: State, e: Event): State
    requires e.Load? || e.Store? || e.End?
  {
    if e.caller >= |s.callers| then s
    else
      match e
      case Load(c) =>
        if s.callers[c] == Idle && s.entry.Some?
        then s.(callers := s.callers[c := Holding(s.entry.value)], loads := s.loads + 1)
        else s
      case Store(c, sample, now) =>
        if s.callers[c].Holding?
        then s.(callers := s.callers[c := Idle],
                entry := Some(Sampled(s.callers[c].copy, sample, now)),
                stores := s.stores + 1)
        else s
      case End(c) => if s.callers[c] == Idle then s.(callers := s.callers[c := Ended]) else s
  }

  predicate AllEnded(callers: seq<Caller>) { forall c :: 0 <= c < |callers| ==> callers[c] == Ended }

  function StepMain(s: State, e: Event): State
    requires !(e.Load? || e.Store? || e.End?)
  {
    match e
    case Join => if s.main == Waiting && AllEnded(s.callers) then s.(main := Draining(0, None)) else s
    case LoadDone =>
      if s.main.Draining? && s.main.held == None && s.main.drained < s.assignments
      then if s.entry == None then s.(main := Draining(s.main.drained + 1, None))
           else s.(main := Draining(s.main.drained, s.entry))
      else s
    case StoreDone(now) =>
      if s.main.Draining? && s.main.held != None
      then s.(main := Draining(s.main.drained + 1, None), entry := Some(Counted(s.main.held.value, now)))
      else s
    case Aggregate(now) =>
      if s.main == Draining(s.assignments, None) && s.entry.Some?
      then s.(main := Aggregated,
              entry := Some(s.entry.value.(phase := Aggregating, completed := s.assignments, total := s.assignments,
                                           latest := None, intervals := 0, error := "", updated := now)))
      else s
    case Return =>
      if s.main == Aggregated || s.main == Draining(s.assignments, None) then s.(main := Returned, entry := None) else s
  }

  function Step(s: State, e: Event): State {
    if e.Load? || e.Store? || e.End? then StepCaller(s, e) else StepMain(s, e)
  }

  function Run(s: State, es: seq<Event>): State
    decreases |es|
  {
    if es == [] then s else Run(Step(s, es[0]), es[1..])
  }

  /** After the first Set of Service.Run, with the goroutines started. */
  function Begin(id: string, profile: string, started: int, now: int, assignments: nat, callers: nat): State {
    State(assignments, Some(Progress(id, Running, assignments, 0, profile, "", started, now, None, 0)),
          seq(callers, _ => Idle), Waiting, 0, 0)
  }

  /** What the registry shows of a run of one assignment with one callback: running, the sample, the
      completed assignment, aggregating, and nothing any more. */
  lemma ShowsOnItsWay(id: string, profile: string, t: int, sample: IntervalSample, now: int)
    ensures
      var begun := Begin(id, profile, t, t, 1, 1);
      var stored := Step(Step(begun, Load(0)), Store(0, sample, now));
      var drained := Step(Step(Step(Step(stored, End(0)), Join), LoadDone), StoreDone(now));
      var aggregated := Step(drained, Aggregate(now));
      && begun.entry == Some(Progress(id, Running, 1, 0, profile, "", t, t, None, 0))
      && stored.entry == Some(Progress(id, Running, 1, 0, profile, "", t, now, Some(sample), 1))
      && drained.entry == Some(Progress(id, Running, 1, 1, profile, "", t, now, Some(sample), 1))
      && aggregated.entry == Some(Progress(id, Aggregating, 1, 1, profile, "", t, now, None, 0))
      && Step(aggregated, Return).entry == None && Step(drained, Return).main == Returned
  {
    hide StepCaller;
    var begun := Begin(id, profile, t, t, 1, 1);
    CallbackShows(begun, sample, now);
  }

  lemma CallbackShows(s: State, sample: IntervalSample, now: int)
    requires |s.callers| == 1 && s.callers[0] == Idle && s.entry.Some?
    ensures
      var p := s.entry.value;
      var stored := Step(Step(s, Load(0)), Store(0, sample, now));
      && stored == s.(entry := Some(p.(latest := Some(sample), intervals := p.intervals + 1, updated := now)),
                      loads := s.loads + 1, stores := s.stores + 1)
      && Step(stored, End(0)) == stored.(callers := [Ended])
  {
  }

  /** A value of the entry after at most so many stores, at least one if any happened. */
  predicate Plausible(p: Progress, assignments: nat, completed: nat, stores: nat) {
    && p.total == assignments && p.completed == completed && p.intervals <= stores
    && (p.intervals > 0 <==> p.latest.Some?)
  }

  predicate Inv(s: State) {
    && (forall c :: 0 <= c < |s.callers| && s.callers[c].Holding? ==>
          s.main == Waiting && Plausible(s.callers[c].copy, s.assignments, 0, s.stores))
    && s.loads == s.stores + HoldingCount(s.callers)
    && match s.main
       case Waiting =>
         s.entry.Some? && Plausible(s.entry.value, s.assignments, 0, s.stores)
         && (s.stores > 0 ==> s.entry.value.intervals > 0)
       case Draining(drained, held) =>
         && AllEnded(s.callers) && s.entry.Some? && drained <= s.assignments
         && Plausible(s.entry.value, s.assignments, drained, s.stores)
         && (s.stores > 0 ==> s.entry.value.intervals > 0)
         && (held != None ==> held == s.entry && drained < s.assignments)
       case Aggregated =>
         && AllEnded(s.callers) && s.entry.Some?
         && s.entry.value.total == s.entry.value.completed == s.assignments && s.entry.value.phase == Aggregating
       case Returned => AllEnded(s.callers) && s.entry == None
  }

  function HoldingCount(callers: seq<Caller>): nat {
    if callers == [] then 0
    else HoldingCount(callers[..|callers| - 1]) + if callers[|callers| - 1].Holding? then 1 else 0
  }

  lemma {:induction false} HoldingUpdate(callers: seq<Caller>, c: nat, x: Caller)
    requires c < |callers|
    ensures HoldingCount(callers[c := x]) + (if callers[c].Holding? then 1 else 0)
      == HoldingCount(callers) + if x.Holding? then 1 else 0
  {
    var n := |callers| - 1;
    if c < n {
      HoldingUpdate(callers[..n], c, x);
      assert callers[c := x][..n] == callers[..n][c := x];
    } else {
      assert callers[c := x][..n] == callers[..n];
    }
  }

  lemma {:induction false} NobodyHolds(callers: seq<Caller>)
    requires forall c :: 0 <= c < |callers| ==> !callers[c].Holding?
    ensures HoldingCount(callers) == 0
  {
    if callers != [] { NobodyHolds(callers[..|callers| - 1]); }
  }

  lemma CallerKeepsInv(s: State, e: Event)
    requires Inv(s) && (e.Load? || e.Store? || e.End?)
    ensures Inv(StepCaller(s, e))
  {
    if e.caller < |s.callers| {
      if s.main == Waiting && s.callers[e.caller] == Idle && e.Load? {
        HoldingUpdate(s.callers, e.caller, Holding(s.entry.value));
      } else if s.callers[e.caller].Holding? && e.Store? {
        HoldingUpdate(s.callers, e.caller, Idle);
      } else if s.callers[e.caller] == Idle && e.End? {
        HoldingUpdate(s.callers, e.caller, Ended);
      }
    }
  }

  lemma MainKeepsInv(s: State, e: Event)
    requires Inv(s) && !(e.Load? || e.Store? || e.End?)
    ensures Inv(StepMain(s, e))
  {
  }

  lemma {:induction false} RunKeepsInv(s: State, es: seq<Event>)
    requires Inv(s)
    ensures Inv(Run(s, es)) && Run(s, es).assignments == s.assignments
    decreases |es|
  {
    if es != [] {
      if es[0].Load? || es[0].Store? || es[0].End? { CallerKeepsInv(s, es[0]); } else { MainKeepsInv(s, es[0]); }
      RunKeepsInv(Step(s, es[0]), es[1..]);
    }
  }

  lemma BeginsWell(id: string, profile: string, started: int, now: int, assignments: nat, callers: nat)
    ensures Inv(Begin(id, profile, started, now, assignments, callers))
  {
    NobodyHolds(Begin(id, profile, started, now, assignments, callers).callers);
  }

  /** Lost updates never lose a completion: at every moment of every interleaving a visible
      entry shows the true number of drained assignments, never more than the total, and all
      of them once the channel is drained. */
  lemma CompletionsAreExact(id: string, profile: string, started: int, now: int, assignments: nat, callers: nat,
                            es: seq<Event>)
    ensures var s := Run(Begin(id, profile, started, now, assignments, callers), es);
      && (s.entry.Some? ==> s.entry.value.completed <= s.entry.value.total == assignments)
      && (s.main == Waiting ==> s.entry.Some? && s.entry.value.completed == 0)
      && (s.main.Draining? ==> s.entry.Some? && s.entry.value.completed == s.main.drained)
      && (s.main == Aggregated ==> s.entry.Some? && s.entry.value.completed == assignments)
      && (s.entry == None <==> s.main == Returned)
  {
    BeginsWell(id, profile, started, now, assignments, callers);
    RunKeepsInv(Begin(id, profile, started, now, assignments, callers), es);
  }

  /** The interval count may lose updates, but until the entry is replaced for aggregation it
      never exceeds the finished callbacks and is positive as soon as one has finished; when the
      callers have ended, every callback that loaded has stored. */
  lemma IntervalsBounded(id: string, profile: string, started: int, now: int, assignments: nat, callers: nat,
                         es: seq<Event>)
    ensures var s := Run(Begin(id, profile, started, now, assignments, callers), es);
      && (s.main == Waiting || s.main.Draining? ==>
            && s.entry.Some? && s.entry.value.intervals <= s.stores <= s.loads
            && (s.stores > 0 <==> s.entry.value.intervals > 0)
            && (s.stores > 0 <==> s.entry.value.latest.Some?))
      && (s.main != Waiting ==> s.loads == s.stores)
  {
    BeginsWell(id, profile, started, now, assignments, callers);
    RunKeepsInv(Begin(id, profile, started, now, assignments, callers), es);
    var s := Run(Begin(id, profile, started, now, assignments, callers), es);
    if s.main != Waiting { NobodyHolds(s.callers); }
  }

  /** The number an observer sees never goes back while the entry is there. */
  lemma CompletedMonotone(s: State, e: Event)
    requires Inv(s) && s.entry.Some? && Step(s, e).entry.Some?
    ensures s.entry.value.completed <= Step(s, e).entry.value.completed
  {
    if e.Load? || e.Store? || e.End? { CallerKeepsInv(s, e); } else { MainKeepsInv(s, e); }
  }

  // ----- The interval bounds are tight -----

  function Callbacks(caller: nat, n: nat, sample: IntervalSample, now: int): seq<Event> {
    if n == 0 then [] else [Load(caller), Store(caller, sample, now)] + Callbacks(caller, n - 1, sample, now)
  }

  lemma {:induction false} RunConcat(s: State, a: seq<Event>, b: seq<Event>)
    ensures Run(s, a + b) == Run(Run(s, a), b)
    decreases |a|
  {
    if a == [] {
      assert a + b == b;
    } else {
      RunConcat(Step(s, a[0]), a[1..], b);
      assert (a + b)[1..] == a[1..] + b;
    }
  }

  lemma {:induction false} CallbacksCount(s: State, caller: nat, n: nat, sample: IntervalSample, now: int)
    requires caller < |s.callers| && s.callers[caller] == Idle && s.entry.Some?
    ensures var s' := Run(s, Callbacks(caller, n, sample, now));
      && s'.callers == s.callers && s'.main == s.main && s'.entry.Some? && s'.assignments == s.assignments
      && s'.entry.value.intervals == s.entry.value.intervals + n
      && s'.stores == s.stores + n && s'.loads == s.loads + n
    decreases n
  {
    if n > 0 {
      var rest := Callbacks(caller, n - 1, sample, now);
      var es := Callbacks(caller, n, sample, now);
      var s1 := Step(s, Load(caller));
      var s2 := Step(s1, Store(caller, sample, now));
      assert es[0] == Load(caller) && es[1..] == [Store(caller, sample, now)] + rest;
      assert es[1..][0] == Store(caller, sample, now) && es[1..][1..] == rest;
      assert Run(s, es) == Run(s1, es[1..]) == Run(s2, rest);
      assert s2.callers == s.callers;
      CallbacksCount(s2, caller, n - 1, sample, now);
    }
  }

  /** k - 1 callbacks, a load, n - k callbacks of another caller, and the store of the first. */
  function LosingRun(n: nat, k: nat, sample: IntervalSample, now: int): seq<Event>
    requires 1 <= k <= n
  {
    Callbacks(0, k - 1, sample, now) + ([Load(0)] + (Callbacks(1, n - k, sample, now) + [Store(0, sample, now)]))
  }

  /** With two callers every count from 1 to n is the outcome of some run of n callbacks. */
  lemma EveryCountReachable(s: State, n: nat, k: nat, sample: IntervalSample, now: int)
    requires 1 <= k <= n && |s.callers| >= 2 && s.callers[0] == Idle && s.callers[1] == Idle
    requires s.entry.Some? && s.entry.value.intervals == 0
    ensures var s' := Run(s, LosingRun(n, k, sample, now));
      s'.stores == s.stores + n && s'.callers == s.callers && s'.entry.Some? && s'.entry.value.intervals == k
  {
    var first, second := Callbacks(0, k - 1, sample, now), Callbacks(1, n - k, sample, now);
    var last := [Store(0, sample, now)];
    var s1 := Run(s, first);
    CallbacksCount(s, 0, k - 1, sample, now);
    var s2 := Step(s1, Load(0));
    var s3 := Run(s2, second);
    CallbacksCount(s2, 1, n - k, sample, now);
    var s4 := Step(s3, last[0]);
    RunConcat(s, first, [Load(0)] + (second + last));
    assert ([Load(0)] + (second + last))[1..] == second + last;
    RunConcat(s2, second, last);
    assert Run(s3, last) == Run(s4, last[1..]) == s4;
    assert s4.callers == s.callers;
  }
}
