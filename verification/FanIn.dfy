/** Draining the result channel of a run, grouping by target and aggregating. */
module FanIn {
  import opened Options
  import opened Sequences
  import opened Schema
  import opened Monoids
  import opened Intervals
  import opened Aggregate
  import Topology

  /** What a worker sends: the result of its assignment, with the engine output if there is any. */
  datatype Measured = Measured(results: Results, raw: Option<string>)

  datatype Item = Item(assignment: Topology.Assignment, outcome: Result<Measured, string>)

  datatype ClientRun = ClientRun(host: string, target: string, results: Results)

  datatype TargetRun = TargetRun(target: string, results: Results)

  datatype Drained = Drained(
    resultSet: seq<Results>, errors: seq<string>, raw: Option<string>,
    clientRuns: seq<ClientRun>, buckets: map<string, seq<Results>>)

  datatype Report = Report(
    results: Results, targets: seq<TargetRun>, clients: seq<ClientRun>, raw: Option<string>, warnings: seq<string>)

  // ----- What the loop picks from each item -----

  function Chosen<S, T>(f: S -> Option<T>, xs: seq<S>): seq<T> {
    if xs == [] then []
    else
      var before := Chosen(f, xs[..|xs| - 1]);
      match f(xs[|xs| - 1])
      case None => before
      case Some(y) => before + [y]
  }

  function ResultOf(it: Item): Option<Results> {
    if it.outcome.Success? then Some(it.outcome.value.results) else None
  }

  function ResultFor(target: string): Item -> Option<Results> {
    (it: Item) => if it.assignment.target == target then ResultOf(it) else None
  }

  function RawOf(it: Item): Option<string> {
    if it.outcome.Success? then it.outcome.value.raw else None
  }

  function Label(a: Topology.Assignment): string {
    (if a.client == "" then "local" else a.client) + "\U{2192}" + a.target
  }

  function ErrorOf(it: Item): Option<string> {
    if it.outcome.Failure? then Some(Label(it.assignment) + ": " + it.outcome.error) else None
  }

  /** A local assignment is reported under the coordinator's own name, and only if it is not the only one. */
  function HostOf(a: Topology.Assignment, planned: nat, hostname: string): Option<string> {
    if a.client != "" then Some(a.client)
    else if planned > 1 then Some(if hostname == "" then "coordinator" else hostname)
    else None
  }

  function ClientRunOf(planned: nat, hostname: string): Item -> Option<ClientRun> {
    (it: Item) =>
      var host := HostOf(it.assignment, planned, hostname);
      if it.outcome.Success? && host.Some?
      then Some(ClientRun(host.value, it.assignment.target, it.outcome.value.results))
      else None
  }

  function Successes(items: seq<Item>): seq<Results> { Chosen(ResultOf, items) }

  function ForTarget(items: seq<Item>, target: string): seq<Results> { Chosen(ResultFor(target), items) }

  function First<T>(xs: seq<T>): Option<T> { if xs == [] then None else Some(xs[0]) }

  /** The targets that at least one assignment measured. */
  predicate MeasuredTarget(items: seq<Item>, target: string) {
    exists i :: 0 <= i < |items| && items[i].outcome.Success? && items[i].assignment.target == target
  }

  ghost predicate GroupedByTarget(items: seq<Item>, buckets: map<string, seq<Results>>) {
    && (forall t :: t in buckets <==> MeasuredTarget(items, t))
    && forall t :: t in buckets ==> buckets[t] == ForTarget(items, t)
  }

  lemma {:induction false} NothingForOthers(items: seq<Item>, target: string)
    requires !MeasuredTarget(items, target)
    ensures ForTarget(items, target) == []
  {
    if items != [] {
      var n := |items| - 1;
      assert forall i :: 0 <= i < n ==> items[..n][i] == items[i];
      NothingForOthers(items[..n], target);
      assert !(items[n].outcome.Success? && items[n].assignment.target == target);
    }
  }

  function Bucket(buckets: map<string, seq<Results>>, target: string): seq<Results> {
    if target in buckets then buckets[target] else []
  }

  lemma BucketAppended(items: seq<Item>, n: nat, buckets: map<string, seq<Results>>)
    requires n < |items| && items[n].outcome.Success? && GroupedByTarget(items[..n], buckets)
    ensures var t := items[n].assignment.target;
      GroupedByTarget(items[..n + 1], buckets[t := Bucket(buckets, t) + [items[n].outcome.value.results]])
  {
    var t, before, after := items[n].assignment.target, items[..n], items[..n + 1];
    assert after[..n] == before && after[n] == items[n];
    assert forall x :: MeasuredTarget(before, x) ==> MeasuredTarget(after, x);
    assert forall x :: MeasuredTarget(after, x) && x != t ==> MeasuredTarget(before, x);
    assert MeasuredTarget(after, t);
    if t !in buckets { NothingForOthers(before, t); }
  }

  lemma BucketsKept(items: seq<Item>, n: nat, buckets: map<string, seq<Results>>)
    requires n < |items| && items[n].outcome.Failure? && GroupedByTarget(items[..n], buckets)
    ensures GroupedByTarget(items[..n + 1], buckets)
  {
    var before, after := items[..n], items[..n + 1];
    assert after[..n] == before && after[n] == items[n];
    assert forall x :: MeasuredTarget(before, x) ==> MeasuredTarget(after, x);
    assert forall x :: MeasuredTarget(after, x) ==> MeasuredTarget(before, x);
  }

  /** The drain loop: whatever the order of arrival, every success lands once in the result
      set and once in the bucket of its target, every failure once in the errors. */
  method Drain(items: seq<Item>, planned: nat, hostname: string) returns (d: Drained)
    ensures d.resultSet == Successes(items) && d.errors == Chosen(ErrorOf, items)
    ensures d.raw == First(Chosen(RawOf, items)) && d.clientRuns == Chosen(ClientRunOf(planned, hostname), items)
    ensures GroupedByTarget(items, d.buckets)
  {
    d := Drained([], [], None, [], map[]);
    for i := 0 to |items|
      invariant d.resultSet == Successes(items[..i]) && d.errors == Chosen(ErrorOf, items[..i])
      invariant d.raw == First(Chosen(RawOf, items[..i]))
      invariant d.clientRuns == Chosen(ClientRunOf(planned, hostname), items[..i])
      invariant GroupedByTarget(items[..i], d.buckets)
    {
      var it := items[i];
      assert items[..i + 1][..i] == items[..i];
      if it.outcome.Failure? {
        BucketsKept(items, i, d.buckets);
        d := d.(errors := d.errors + [Label(it.assignment) + ": " + it.outcome.error]);
        continue;
      }
      BucketAppended(items, i, d.buckets);
      var t, measured := it.assignment.target, it.outcome.value;
      d := d.(resultSet := d.resultSet + [measured.results],
              buckets := d.buckets[t := Bucket(d.buckets, t) + [measured.results]]);
      if d.raw == None && measured.raw != None {
        d := d.(raw := measured.raw);
      }
      if it.assignment.client != "" {
        d := d.(clientRuns := d.clientRuns + [ClientRun(it.assignment.client, t, measured.results)]);
      } else if planned > 1 {
        var host := if hostname == "" then "coordinator" else hostname;
        d := d.(clientRuns := d.clientRuns + [ClientRun(host, t, measured.results)]);
      }
    }
    assert items[..|items|] == items;
  }

  // ----- What is reported of each item -----

  function Where<T>(p: T -> bool, xs: seq<T>): (ys: seq<T>)
    ensures forall j :: 0 <= j < |ys| ==> p(ys[j])
  {
    if xs == [] then []
    else Where(p, xs[..|xs| - 1]) + if p(xs[|xs| - 1]) then [xs[|xs| - 1]] else []
  }

  lemma {:induction false} ChosenWhere<S, T>(f: S -> Option<T>, p: S -> bool, xs: seq<S>)
    requires forall x :: f(x).Some? <==> p(x)
    ensures |Chosen(f, xs)| == |Where(p, xs)|
    ensures forall j :: 0 <= j < |Where(p, xs)| ==> f(Where(p, xs)[j]) == Some(Chosen(f, xs)[j])
  {
    if xs != [] { ChosenWhere(f, p, xs[..|xs| - 1]); }
  }

  lemma {:induction false} WhereAgree<T>(p: T -> bool, q: T -> bool, xs: seq<T>)
    requires forall i :: 0 <= i < |xs| ==> p(xs[i]) == q(xs[i])
    ensures Where(p, xs) == Where(q, xs)
  {
    if xs != [] {
      assert forall i :: 0 <= i < |xs| - 1 ==> xs[..|xs| - 1][i] == xs[i];
      WhereAgree(p, q, xs[..|xs| - 1]);
    }
  }

  const SUCCEEDED := (it: Item) => it.outcome.Success?
  const FAILED := (it: Item) => it.outcome.Failure?

  /** Successful items, but a local one only if it is not the only assignment. */
  function Listed(planned: nat): Item -> bool {
    (it: Item) => it.outcome.Success? && (it.assignment.client != "" || planned > 1)
  }

  /** Each client run, in the order of arrival, is the success of its own assignment: measured on
      the client, or on the coordinator under the name it goes by. */
  predicate ClientsReported(items: seq<Item>, planned: nat, hostname: string, runs: seq<ClientRun>) {
    var listed := Where(Listed(planned), items);
    && |runs| == |listed|
    && forall j :: 0 <= j < |runs| ==>
         && runs[j].results == listed[j].outcome.value.results && runs[j].target == listed[j].assignment.target
         && (listed[j].assignment.client != "" ==> runs[j].host == listed[j].assignment.client)
         && (listed[j].assignment.client == "" && hostname != "" ==> runs[j].host == hostname)
         && (listed[j].assignment.client == "" && hostname == "" ==> runs[j].host == "coordinator")
  }

  /** Each error names its assignment: where it ran, an arrow, the target, and what went wrong. */
  predicate FailuresReported(items: seq<Item>, errors: seq<string>) {
    var failed := Where(FAILED, items);
    && |errors| == |failed|
    && forall j :: 0 <= j < |errors| ==>
         var place := if failed[j].assignment.client == "" then "local" else failed[j].assignment.client;
         errors[j] == place + "\U{2192}" + failed[j].assignment.target + ": " + failed[j].outcome.error
  }

  /** The raw output is that of the first success that brought one. */
  predicate RawReported(items: seq<Item>, raw: Option<string>) {
    match raw
    case None => forall i :: 0 <= i < |items| && items[i].outcome.Success? ==> items[i].outcome.value.raw == None
    case Some(_) =>
      exists i ::
        && 0 <= i < |items| && items[i].outcome.Success? && items[i].outcome.value.raw == raw
        && forall j :: 0 <= j < i && items[j].outcome.Success? ==> items[j].outcome.value.raw == None
  }

  /** The counted results are those of the successes, in the order of arrival. */
  predicate SuccessesCounted(items: seq<Item>, results: seq<Results>) {
    var succeeded := Where(SUCCEEDED, items);
    && |results| == |succeeded|
    && forall j :: 0 <= j < |results| ==> results[j] == succeeded[j].outcome.value.results
  }

  lemma ChosenReported(items: seq<Item>, planned: nat, hostname: string)
    ensures ClientsReported(items, planned, hostname, Chosen(ClientRunOf(planned, hostname), items))
    ensures FailuresReported(items, Chosen(ErrorOf, items)) && SuccessesCounted(items, Successes(items))
  {
    ChosenWhere(ClientRunOf(planned, hostname), Listed(planned), items);
    ChosenWhere(ErrorOf, FAILED, items);
    ChosenWhere(ResultOf, SUCCEEDED, items);
  }

  lemma {:induction false} FirstRaw(items: seq<Item>)
    ensures RawReported(items, First(Chosen(RawOf, items)))
  {
    if items != [] {
      var n := |items| - 1;
      FirstRaw(items[..n]);
      assert forall i :: 0 <= i < n ==> items[..n][i] == items[i];
      if First(Chosen(RawOf, items[..n])) == None && RawOf(items[n]) != None {
        assert RawReported(items, RawOf(items[n]));
      }
    }
  }

  /** With more than one assignment, or with every client named, there is one client run for each
      success, and for a lone local assignment there is none. */
  lemma ClientRunCount(items: seq<Item>, planned: nat, hostname: string, runs: seq<ClientRun>)
    requires ClientsReported(items, planned, hostname, runs)
    ensures planned > 1 || (forall i :: 0 <= i < |items| ==> items[i].assignment.client != "") ==>
      Where(Listed(planned), items) == Where(SUCCEEDED, items) && |runs| == |Successes(items)|
    ensures planned <= 1 && (forall i :: 0 <= i < |items| ==> items[i].assignment.client == "") ==> runs == []
  {
    ChosenWhere(ResultOf, SUCCEEDED, items);
    if planned > 1 || (forall i :: 0 <= i < |items| ==> items[i].assignment.client != "") {
      WhereAgree(Listed(planned), SUCCEEDED, items);
    } else if forall i :: 0 <= i < |items| ==> items[i].assignment.client == "" {
      WhereAgree(Listed(planned), it => false, items);
      WhereNone(items);
    }
  }

  lemma {:induction false} WhereNone<T>(xs: seq<T>)
    ensures Where(_ => false, xs) == []
  {
    if xs != [] { WhereNone(xs[..|xs| - 1]); }
  }

  // ----- One result per target -----

  function TargetsOf(runs: seq<TargetRun>): (names: seq<string>)
    ensures |names| == |runs| && forall i :: 0 <= i < |runs| ==> names[i] == runs[i].target
  {
    if runs == [] then [] else TargetsOf(runs[..|runs| - 1]) + [runs[|runs| - 1].target]
  }

  function ResultsOf(runs: seq<TargetRun>): (rs: seq<Results>)
    ensures |rs| == |runs| && forall i :: 0 <= i < |runs| ==> rs[i] == runs[i].results
  {
    if runs == [] then [] else ResultsOf(runs[..|runs| - 1]) + [runs[|runs| - 1].results]
  }

  /** Each measured target exactly once, with the aggregate of its own results. */
  ghost predicate OnePerTarget(items: seq<Item>, runs: seq<TargetRun>) {
    && Distinct(TargetsOf(runs))
    && (forall t :: t in TargetsOf(runs) <==> MeasuredTarget(items, t))
    && forall i :: 0 <= i < |runs| ==> runs[i].results == Aggregated(ForTarget(items, runs[i].target))
  }

  /** OnePerTarget, but only for the buckets that have been visited. */
  ghost predicate Visited(items: seq<Item>, visited: set<string>, runs: seq<TargetRun>) {
    && Distinct(TargetsOf(runs))
    && (forall t :: t in TargetsOf(runs) <==> t in visited)
    && forall i :: 0 <= i < |runs| ==> runs[i].results == Aggregated(ForTarget(items, runs[i].target))
  }

  lemma VisitOne(items: seq<Item>, visited: set<string>, runs: seq<TargetRun>, run: TargetRun)
    requires Visited(items, visited, runs) && run.target !in visited
    requires run.results == Aggregated(ForTarget(items, run.target))
    ensures Visited(items, visited + {run.target}, runs + [run])
  {
    assert TargetsOf(runs + [run]) == TargetsOf(runs) + [run.target];
    assert forall i :: 0 <= i < |runs| ==> TargetsOf(runs)[i] in TargetsOf(runs);
  }

  lemma VisitNone(items: seq<Item>)
    ensures Visited(items, {}, [])
  {
    assert TargetsOf([]) == [];
  }

  lemma VisitAll(items: seq<Item>, buckets: map<string, seq<Results>>, runs: seq<TargetRun>)
    requires GroupedByTarget(items, buckets) && Visited(items, buckets.Keys, runs)
    ensures OnePerTarget(items, runs)
  {
    forall t ensures t in TargetsOf(runs) <==> MeasuredTarget(items, t) {
      assert t in buckets <==> t in buckets.Keys;
    }
  }

  method AggregateTarget(items: seq<Item>, buckets: map<string, seq<Results>>, target: string) returns (run: TargetRun)
    requires GroupedByTarget(items, buckets) && target in buckets
    ensures run.target == target && run.results == Aggregated(ForTarget(items, target))
  {
    var results := AggregateResults(buckets[target]);
    run := TargetRun(target, results);
  }

  /** Ranging over the buckets in any order. */
  method AggregateTargets(items: seq<Item>, buckets: map<string, seq<Results>>) returns (runs: seq<TargetRun>)
    requires GroupedByTarget(items, buckets)
    ensures OnePerTarget(items, runs)
  {
    hide *;
    runs := [];
    var left := buckets.Keys;
    VisitNone(items);
    assert buckets.Keys - left == {};
    while left != {}
      invariant left <= buckets.Keys
      invariant Visited(items, buckets.Keys - left, runs)
      decreases |left|
    {
      var t :| t in left;
      var run := AggregateTarget(items, buckets, t);
      VisitOne(items, buckets.Keys - left, runs, run);
      runs := runs + [run];
      assert buckets.Keys - (left - {t}) == (buckets.Keys - left) + {t};
      left := left - {t};
    }
    assert buckets.Keys - left == buckets.Keys;
    VisitAll(items, buckets, runs);
  }

  /** From the drained channel to the report, or to the joined errors if nothing succeeded. */
  method CollectRun(items: seq<Item>, planned: nat, hostname: string) returns (out: Result<Report, seq<string>>)
    ensures out.Failure? <==> Successes(items) == []
    ensures out.Failure? ==> out.error == Chosen(ErrorOf, items) && FailuresReported(items, out.error)
    ensures out.Success? ==>
      && out.value.results == Aggregated(Successes(items)) && OnePerTarget(items, out.value.targets)
      && out.value.clients == Chosen(ClientRunOf(planned, hostname), items)
      && out.value.raw == First(Chosen(RawOf, items)) && out.value.warnings == Chosen(ErrorOf, items)
    ensures SuccessesCounted(items, Successes(items))
    ensures out.Success? ==>
      && ClientsReported(items, planned, hostname, out.value.clients)
      && RawReported(items, out.value.raw) && FailuresReported(items, out.value.warnings)
  {
    ChosenReported(items, planned, hostname);
    FirstRaw(items);
    var d := Drain(items, planned, hostname);
    if |d.resultSet| == 0 {
      return Failure(d.errors);
    }
    var targets := AggregateTargets(items, d.buckets);
    var total := AggregateResults(d.resultSet);
    out := Success(Report(total, targets, d.clientRuns, d.raw, d.errors));
  }

  // ----- Per-target results add up to the total -----

  function Groups(items: seq<Item>, names: seq<string>): (groups: seq<seq<Results>>)
    ensures |groups| == |names| && forall g :: 0 <= g < |names| ==> groups[g] == ForTarget(items, names[g])
    decreases |names|
  {
    if names == [] then [] else Groups(items, names[..|names| - 1]) + [ForTarget(items, names[|names| - 1])]
  }

  lemma MoreInFirst<T>(a: seq<T>, more: seq<T>, b: seq<T>, x: T)
    requires multiset(more) == multiset(a) + multiset{x}
    ensures multiset(more + b) == multiset(a + b) + multiset{x}
  {
  }

  lemma MoreInSecond<T>(a: seq<T>, b: seq<T>, x: T)
    ensures multiset(a + (b + [x])) == multiset(a + b) + multiset{x}
  {
  }

  lemma FlattenLast<T>(groups: seq<seq<T>>)
    requires groups != []
    ensures Flatten(groups) == Flatten(groups[..|groups| - 1]) + groups[|groups| - 1]
  {
  }

  lemma UpdateBeforeLast<T>(xs: seq<T>, i: nat, x: T)
    requires i < |xs| - 1
    ensures xs[i := x][..|xs| - 1] == xs[..|xs| - 1][i := x] && xs[i := x][|xs| - 1] == xs[|xs| - 1]
  {
  }

  lemma UpdateLast<T>(xs: seq<T>, x: T)
    requires xs != []
    ensures xs[|xs| - 1 := x][..|xs| - 1] == xs[..|xs| - 1] && xs[|xs| - 1 := x][|xs| - 1] == x
  {
  }

  lemma {:induction false} FlattenExtended<T>(groups: seq<seq<T>>, g: nat, x: T)
    requires g < |groups|
    ensures multiset(Flatten(groups[g := groups[g] + [x]])) == multiset(Flatten(groups)) + multiset{x}
  {
    hide *;
    var n, more := |groups| - 1, groups[g := groups[g] + [x]];
    FlattenLast(groups);
    FlattenLast(more);
    if g < n {
      UpdateBeforeLast(groups, g, groups[g] + [x]);
      FlattenExtended(groups[..n], g, x);
      MoreInFirst(Flatten(groups[..n]), Flatten(more[..n]), groups[n], x);
    } else {
      UpdateLast(groups, groups[n] + [x]);
      MoreInSecond(Flatten(groups[..n]), groups[n], x);
    }
  }

  lemma {:induction false} FlattenOfEmpty<T>(groups: seq<seq<T>>)
    requires forall g :: 0 <= g < |groups| ==> groups[g] == []
    ensures Flatten(groups) == []
  {
    if groups != [] { FlattenOfEmpty(groups[..|groups| - 1]); }
  }

  lemma GroupsStep(items: seq<Item>, it: Item, names: seq<string>)
    requires Distinct(names) && (it.outcome.Success? ==> it.assignment.target in names)
    ensures multiset(Flatten(Groups(items + [it], names)))
      == multiset(Flatten(Groups(items, names))) + multiset(Successes([it]))
  {
    var groups, more := Groups(items, names), Groups(items + [it], names);
    assert (items + [it])[..|items|] == items && [it][..0] == [];
    assert Chosen(ResultOf, []) == [] && Successes([it]) == if ResultOf(it) == None then [] else [ResultOf(it).value];
    if it.outcome.Success? {
      var r := it.outcome.value.results;
      var g :| 0 <= g < |names| && names[g] == it.assignment.target;
      FlattenExtended(groups, g, r);
      assert more == groups[g := groups[g] + [r]];
    } else {
      assert more == groups;
    }
  }

  /** The buckets partition the successes, for every order of the targets. */
  lemma {:induction false} BucketsPartition(items: seq<Item>, names: seq<string>)
    requires Distinct(names) && forall t :: MeasuredTarget(items, t) ==> t in names
    ensures multiset(Flatten(Groups(items, names))) == multiset(Successes(items))
    decreases |items|
  {
    if items == [] {
      FlattenOfEmpty(Groups(items, names));
    } else {
      var n := |items| - 1;
      var before, it := items[..n], items[n];
      assert items == before + [it];
      assert forall t :: MeasuredTarget(before, t) ==> MeasuredTarget(items, t);
      assert it.outcome.Success? ==> MeasuredTarget(items, it.assignment.target);
      BucketsPartition(before, names);
      GroupsStep(before, it, names);
      ChosenConcat(ResultOf, before, [it]);
    }
  }

  predicate ItemsSound(items: seq<Item>) {
    forall i :: 0 <= i < |items| && items[i].outcome.Success? ==> Sound(items[i].outcome.value.results)
  }

  lemma {:induction false} ChosenSound(f: Item -> Option<Results>, items: seq<Item>)
    requires ItemsSound(items) && forall it :: f(it) == ResultOf(it) || f(it) == None
    ensures AllSound(Chosen(f, items))
  {
    if items != [] {
      assert f(items[|items| - 1]) == ResultOf(items[|items| - 1]) || f(items[|items| - 1]) == None;
      ChosenSound(f, items[..|items| - 1]);
    }
  }

  /** In every summed, maximal or minimal field the aggregate of the per-target results is the
      reported total, whatever the order of arrival and the order of the bucket map. */
  lemma TargetsAddUp(items: seq<Item>, runs: seq<TargetRun>)
    requires ItemsSound(items) && OnePerTarget(items, runs)
    ensures AllSound(ResultsOf(runs)) && AllSound(Successes(items))
    ensures Sound(Aggregated(ResultsOf(runs))) && Sound(Aggregated(Successes(items)))
    ensures RunSumOf(Aggregated(ResultsOf(runs))) == RunSumOf(Aggregated(Successes(items)))
  {
    var names := TargetsOf(runs);
    var groups := Groups(items, names);
    BucketsPartition(items, names);
    ChosenSound(ResultOf, items);
    forall g | 0 <= g < |groups| ensures AllSound(groups[g]) { ChosenSound(ResultFor(names[g]), items); }
    GroupingHomomorphism(groups, Successes(items));
    assert ResultsOf(runs) == AggregatedGroups(groups);
  }

  predicate ItemsMeasured(items: seq<Item>) {
    forall i :: 0 <= i < |items| && items[i].outcome.Success? ==> NodeMeasured(items[i].outcome.value.results.intervals)
  }

  lemma {:induction false} ChosenMeasured(f: Item -> Option<Results>, items: seq<Item>)
    requires ItemsMeasured(items) && forall it :: f(it) == ResultOf(it) || f(it) == None
    ensures IntervalsMeasured(Chosen(f, items))
  {
    if items != [] {
      assert f(items[|items| - 1]) == ResultOf(items[|items| - 1]) || f(items[|items| - 1]) == None;
      ChosenMeasured(f, items[..|items| - 1]);
    }
  }

  /** The merged intervals of the per-target results are the reported intervals, bucket by bucket. */
  lemma TargetIntervalsAddUp(items: seq<Item>, runs: seq<TargetRun>)
    requires ItemsMeasured(items) && OnePerTarget(items, runs)
    ensures SameBuckets(Aggregated(ResultsOf(runs)).intervals, Aggregated(Successes(items)).intervals)
  {
    hide Aggregated, SameBuckets, NodeMeasured;
    var names := TargetsOf(runs);
    var groups := Groups(items, names);
    BucketsPartition(items, names);
    ChosenMeasured(ResultOf, items);
    forall g | 0 <= g < |groups| ensures IntervalsMeasured(groups[g]) { ChosenMeasured(ResultFor(names[g]), items); }
    GroupingIntervals(groups, Successes(items));
    assert ResultsOf(runs) == AggregatedGroups(groups);
  }

  // ----- The order of arrival -----

  lemma ChosenAppend<S, T>(f: S -> Option<T>, xs: seq<S>, x: S)
    ensures Chosen(f, xs + [x]) == Chosen(f, xs) + match f(x) case None => [] case Some(y) => [y]
  {
    assert (xs + [x])[..|xs|] == xs;
  }

  lemma {:induction false} ChosenConcat<S, T>(f: S -> Option<T>, xs: seq<S>, ys: seq<S>)
    ensures Chosen(f, xs + ys) == Chosen(f, xs) + Chosen(f, ys)
  {
    if ys == [] {
      assert xs + ys == xs;
    } else {
      var n := |ys| - 1;
      ChosenConcat(f, xs, ys[..n]);
      assert ys == ys[..n] + [ys[n]] && xs + ys == (xs + ys[..n]) + [ys[n]];
      ChosenAppend(f, xs + ys[..n], ys[n]);
      ChosenAppend(f, ys[..n], ys[n]);
    }
  }

  lemma MultisetSwap<T>(a: seq<T>, b: seq<T>, c: seq<T>)
    ensures multiset(a + (b + c)) == multiset(a + c) + multiset(b)
  {
  }

  lemma ChosenSplit<S, T>(f: S -> Option<T>, a: seq<S>, x: seq<S>, c: seq<S>)
    ensures Chosen(f, a + (x + c)) == Chosen(f, a) + (Chosen(f, x) + Chosen(f, c))
    ensures Chosen(f, a + c) == Chosen(f, a) + Chosen(f, c)
  {
    ChosenConcat(f, a, x + c);
    ChosenConcat(f, x, c);
    ChosenConcat(f, a, c);
  }

  lemma Parts<T>(xs: seq<T>, i: nat)
    requires i < |xs|
    ensures xs == xs[..i] + ([xs[i]] + xs[i + 1..])
  {
  }

  lemma ChosenWithout<S, T>(f: S -> Option<T>, xs: seq<S>, i: nat)
    requires i < |xs|
    ensures multiset(Chosen(f, xs)) == multiset(Chosen(f, Without(xs, i))) + multiset(Chosen(f, [xs[i]]))
  {
    var a, x, c := xs[..i], [xs[i]], xs[i + 1..];
    Parts(xs, i);
    ChosenSplit(f, a, x, c);
    MultisetSwap(Chosen(f, a), Chosen(f, x), Chosen(f, c));
  }

  lemma {:induction false} ChosenPermuted<S, T>(f: S -> Option<T>, xs: seq<S>, ys: seq<S>)
    requires multiset(xs) == multiset(ys)
    ensures multiset(Chosen(f, xs)) == multiset(Chosen(f, ys))
    decreases |xs|
  {
    if xs == [] {
      assert |multiset(ys)| == |multiset(xs)| == 0;
    } else {
      assert xs[0] in multiset(ys);
      var j :| 0 <= j < |ys| && ys[j] == xs[0];
      PermutedWithout(xs, 0, ys, j);
      ChosenPermuted(f, Without(xs, 0), Without(ys, j));
      ChosenWithout(f, xs, 0);
      ChosenWithout(f, ys, j);
    }
  }

  /** Workers may finish in any order: the totals, and the totals of each target, stay the same,
      and the same client results and errors are reported. */
  lemma ArrivalOrderIrrelevant(items: seq<Item>, other: seq<Item>, target: string, planned: nat, hostname: string)
    requires ItemsSound(items) && ItemsSound(other) && multiset(items) == multiset(other)
    ensures AllSound(Successes(items)) && AllSound(Successes(other))
    ensures Sound(Aggregated(Successes(items))) && Sound(Aggregated(Successes(other)))
    ensures RunSumOf(Aggregated(Successes(items))) == RunSumOf(Aggregated(Successes(other)))
    ensures Sound(Aggregated(ForTarget(items, target))) && Sound(Aggregated(ForTarget(other, target)))
    ensures RunSumOf(Aggregated(ForTarget(items, target))) == RunSumOf(Aggregated(ForTarget(other, target)))
    ensures multiset(Chosen(ErrorOf, items)) == multiset(Chosen(ErrorOf, other))
    ensures multiset(Chosen(ClientRunOf(planned, hostname), items))
      == multiset(Chosen(ClientRunOf(planned, hostname), other))
  {
    ChosenPermuted(ErrorOf, items, other);
    ChosenPermuted(ClientRunOf(planned, hostname), items, other);
    TotalsPermuted(ResultOf, items, other);
    TotalsPermuted(ResultFor(target), items, other);
  }

  lemma TotalsPermuted(f: Item -> Option<Results>, items: seq<Item>, other: seq<Item>)
    requires ItemsSound(items) && ItemsSound(other) && multiset(items) == multiset(other)
    requires forall it :: f(it) == ResultOf(it) || f(it) == None
    ensures AllSound(Chosen(f, items)) && AllSound(Chosen(f, other))
    ensures Sound(Aggregated(Chosen(f, items))) && Sound(Aggregated(Chosen(f, other)))
    ensures RunSumOf(Aggregated(Chosen(f, items))) == RunSumOf(Aggregated(Chosen(f, other)))
  {
    ChosenSound(f, items);
    ChosenSound(f, other);
    ChosenPermuted(f, items, other);
    AggregateTotals(Chosen(f, items));
    AggregateTotals(Chosen(f, other));
    RunSumsPermuted(Chosen(f, items), Chosen(f, other));
  }

  /** Nor do the reported intervals, in all and per target. */
  lemma ArrivalKeepsIntervals(items: seq<Item>, other: seq<Item>, target: string)
    requires ItemsMeasured(items) && ItemsMeasured(other) && multiset(items) == multiset(other)
    ensures SameBuckets(Aggregated(Successes(items)).intervals, Aggregated(Successes(other)).intervals)
    ensures SameBuckets(Aggregated(ForTarget(items, target)).intervals, Aggregated(ForTarget(other, target)).intervals)
  {
    ChosenIntervalsPermuted(ResultOf, items, other);
    ChosenIntervalsPermuted(ResultFor(target), items, other);
  }

  lemma ChosenIntervalsPermuted(f: Item -> Option<Results>, items: seq<Item>, other: seq<Item>)
    requires ItemsMeasured(items) && ItemsMeasured(other) && multiset(items) == multiset(other)
    requires forall it :: f(it) == ResultOf(it) || f(it) == None
    ensures SameBuckets(Aggregated(Chosen(f, items)).intervals, Aggregated(Chosen(f, other)).intervals)
  {
    hide Aggregated, SameBuckets, NodeMeasured;
    ChosenMeasured(f, items);
    ChosenMeasured(f, other);
    ChosenPermuted(f, items, other);
    IntervalsKeepOrderFree(Chosen(f, items), Chosen(f, other));
  }
}
