/** Which client measures which target. */
module Topology {
  import opened Options
  import opened Sequences
  import opened Strings
  import opened Arithmetic

  datatype Assignment = Assignment(client: string, target: string)

  /** The mode names; the empty name is auto too. */
  datatype Mode = Auto | Single | PoolMode | SweepMode | ShardMode | MatrixMode | Unknown(name: string)

  function ModeOf(name: string): Mode {
    if name == "" || name == "auto" then Auto
    else if name == "single" then Single
    else if name == "pool" then PoolMode
    else if name == "sweep" then SweepMode
    else if name == "shard" then ShardMode
    else if name == "matrix" then MatrixMode
    else Unknown(name)
  }

  datatype Schedule = Schedule(mode: Mode, assignments: seq<Assignment>)

  datatype BuildError =
    | NoTarget
    | SingleNeedsOneTarget
    | SingleAllowsOneClient
    | PoolNeedsOneTarget
    | NeedsClient
    | SweepAllowsOneClient
    | UnknownMode(mode: string)

  // ----- Lists -----

  /** Trimmed, without blanks, first occurrences only. */
  function Normalized(items: seq<string>): seq<string> {
    if items == [] then []
    else
      var before := Normalized(items[..|items| - 1]);
      var item := TrimSpace(items[|items| - 1]);
      if item == "" || item in before then before else before + [item]
  }

  method NormalizeList(items: seq<string>) returns (out: seq<string>)
    ensures out == Normalized(items)
  {
    var seen: set<string> := {};
    out := [];
    for i := 0 to |items|
      invariant out == Normalized(items[..i])
      invariant seen == set x | x in out
    {
      assert items[..i + 1][..i] == items[..i];
      var item := TrimSpace(items[i]);
      if item == "" || item in seen {
        continue;
      }
      seen := seen + {item};
      out := out + [item];
    }
    assert items[..|items|] == items;
  }

  predicate Clean(items: seq<string>) {
    Distinct(items) && forall i :: 0 <= i < |items| ==> items[i] != "" && Trimmed(items[i])
  }

  lemma {:induction false} NormalizedIsClean(items: seq<string>)
    ensures Clean(Normalized(items))
    ensures forall x :: x in Normalized(items) <==> x != "" && exists i :: 0 <= i < |items| && TrimSpace(items[i]) == x
  {
    if items != [] {
      var n := |items| - 1;
      NormalizedIsClean(items[..n]);
      TrimSpaceTrims(items[n]);
      forall x ensures x in Normalized(items) <==> x != "" && exists i :: 0 <= i < |items| && TrimSpace(items[i]) == x {
        var before := Normalized(items[..n]);
        if x in before {
          var i :| 0 <= i < n && TrimSpace(items[..n][i]) == x;
          assert TrimSpace(items[i]) == x;
        } else if x != "" && x != TrimSpace(items[n]) {
          assert forall i :: 0 <= i < n ==> items[..n][i] == items[i];
        }
      }
    }
  }

  /** A clean list is left as it is, so normalizing twice is normalizing once. */
  lemma {:induction false} CleanIsFixed(items: seq<string>)
    requires Clean(items)
    ensures Normalized(items) == items
  {
    if items != [] {
      var n := |items| - 1;
      CleanIsFixed(items[..n]);
      TrimmedFixed(items[n]);
      assert items == items[..n] + [items[n]];
      assert items[n] !in items[..n];
    }
  }

  lemma NormalizeTwice(items: seq<string>)
    ensures Normalized(Normalized(items)) == Normalized(items)
  {
    NormalizedIsClean(items);
    CleanIsFixed(Normalized(items));
  }

  function MergeTargets(single: string, list: seq<string>): seq<string> {
    if |list| > 0 then Normalized(list)
    else if TrimSpace(single) != "" then [TrimSpace(single)]
    else []
  }

  /** Building a schedule normalizes the merged targets a second time without effect, and if it
      succeeds the caller may take the first of them. A list of blanks hides the single target. */
  lemma MergedTargetsClean(single: string, list: seq<string>, mode: string, clients: seq<string>)
    ensures Clean(MergeTargets(single, list)) && Normalized(MergeTargets(single, list)) == MergeTargets(single, list)
    ensures MergeTargets(single, list) == [] <==>
      (if list == [] then TrimSpace(single) == "" else forall i :: 0 <= i < |list| ==> TrimSpace(list[i]) == "")
    ensures Built(mode, clients, MergeTargets(single, list)).Success? ==> MergeTargets(single, list) != []
  {
    NormalizedIsClean(list);
    TrimSpaceTrims(single);
    CleanIsFixed(MergeTargets(single, list));
    if list != [] {
      forall i | 0 <= i < |list| && TrimSpace(list[i]) != "" ensures TrimSpace(list[i]) in Normalized(list) {}
      if Normalized(list) != [] { assert Normalized(list)[0] in Normalized(list); }
    }
  }

  // ----- Schedules -----

  function InferMode(clients: nat, targets: nat): Mode {
    if clients <= 1 && targets <= 1 then Single
    else if clients <= 1 && targets > 1 then SweepMode
    else if clients > 1 && targets <= 1 then PoolMode
    else ShardMode
  }

  function FirstOrLocal(clients: seq<string>): string { if clients == [] then "" else clients[0] }

  function Pool(clients: seq<string>, target: string): seq<Assignment> {
    seq(|clients|, i requires 0 <= i < |clients| => Assignment(clients[i], target))
  }

  function Sweep(client: string, targets: seq<string>): seq<Assignment> {
    seq(|targets|, i requires 0 <= i < |targets| => Assignment(client, targets[i]))
  }

  function Shard(clients: seq<string>, targets: seq<string>): seq<Assignment>
    requires targets != []
  {
    seq(|clients|, i requires 0 <= i < |clients| => Assignment(clients[i], targets[i % |targets|]))
  }

  function Matrix(clients: seq<string>, targets: seq<string>): seq<Assignment> {
    if clients == [] then []
    else Matrix(clients[..|clients| - 1], targets) + Sweep(clients[|clients| - 1], targets)
  }

  function Effective(mode: Mode, clients: nat, targets: nat): Mode {
    if mode == Auto then InferMode(clients, targets) else mode
  }

  /** The schedule of a mode over clean lists. */
  function Planned(mode: Mode, clients: seq<string>, targets: seq<string>): Result<Schedule, BuildError> {
    if targets == [] then Failure(NoTarget)
    else
      match Effective(mode, |clients|, |targets|)
      case Auto => Failure(NoTarget)
      case Single =>
        if |targets| != 1 then Failure(SingleNeedsOneTarget)
        else if |clients| > 1 then Failure(SingleAllowsOneClient)
        else Success(Schedule(Single, [Assignment(FirstOrLocal(clients), targets[0])]))
      case PoolMode =>
        if |targets| != 1 then Failure(PoolNeedsOneTarget)
        else if clients == [] then Failure(NeedsClient)
        else Success(Schedule(PoolMode, Pool(clients, targets[0])))
      case SweepMode =>
        if |clients| > 1 then Failure(SweepAllowsOneClient)
        else Success(Schedule(SweepMode, Sweep(FirstOrLocal(clients), targets)))
      case ShardMode =>
        if clients == [] then Failure(NeedsClient) else Success(Schedule(ShardMode, Shard(clients, targets)))
      case MatrixMode =>
        if clients == [] then Failure(NeedsClient) else Success(Schedule(MatrixMode, Matrix(clients, targets)))
      case Unknown(name) => Failure(UnknownMode(name))
  }

  function Built(mode: string, clients: seq<string>, targets: seq<string>): Result<Schedule, BuildError> {
    Planned(ModeOf(mode), Normalized(clients), Normalized(targets))
  }

  method PoolJobs(clients: seq<string>, target: string) returns (jobs: seq<Assignment>)
    ensures jobs == Pool(clients, target)
  {
    jobs := [];
    for i := 0 to |clients|
      invariant jobs == Pool(clients, target)[..i]
    {
      jobs := jobs + [Assignment(clients[i], target)];
    }
  }

  method SweepJobs(client: string, targets: seq<string>) returns (jobs: seq<Assignment>)
    ensures jobs == Sweep(client, targets)
  {
    jobs := [];
    for i := 0 to |targets|
      invariant jobs == Sweep(client, targets)[..i]
    {
      jobs := jobs + [Assignment(client, targets[i])];
    }
  }

  method ShardJobs(clients: seq<string>, targets: seq<string>) returns (jobs: seq<Assignment>)
    requires targets != []
    ensures jobs == Shard(clients, targets)
  {
    jobs := [];
    for i := 0 to |clients|
      invariant jobs == Shard(clients, targets)[..i]
    {
      jobs := jobs + [Assignment(clients[i], targets[i % |targets|])];
    }
  }

  method MatrixJobs(clients: seq<string>, targets: seq<string>) returns (jobs: seq<Assignment>)
    ensures jobs == Matrix(clients, targets)
  {
    jobs := [];
    for i := 0 to |clients|
      invariant jobs == Matrix(clients[..i], targets)
    {
      assert clients[..i + 1][..i] == clients[..i];
      for j := 0 to |targets|
        invariant jobs == Matrix(clients[..i], targets) + Sweep(clients[i], targets)[..j]
      {
        jobs := jobs + [Assignment(clients[i], targets[j])];
      }
    }
    assert clients[..|clients|] == clients;
  }

  method Build(mode: string, clientList: seq<string>, targetList: seq<string>)
    returns (r: Result<Schedule, BuildError>)
    ensures r == Built(mode, clientList, targetList)
  {
    var targets := NormalizeList(targetList);
    var clients := NormalizeList(clientList);
    if |targets| == 0 {
      return Failure(NoTarget);
    }
    var client := if |clients| >= 1 then clients[0] else "";
    var jobs: seq<Assignment>;
    match Effective(ModeOf(mode), |clients|, |targets|)
    case Single =>
      if |targets| != 1 {
        return Failure(SingleNeedsOneTarget);
      }
      if |clients| > 1 {
        return Failure(SingleAllowsOneClient);
      }
      return Success(Schedule(Single, [Assignment(client, targets[0])]));
    case PoolMode =>
      if |targets| != 1 {
        return Failure(PoolNeedsOneTarget);
      }
      if |clients| == 0 {
        return Failure(NeedsClient);
      }
      jobs := PoolJobs(clients, targets[0]);
      return Success(Schedule(PoolMode, jobs));
    case SweepMode =>
      if |clients| > 1 {
        return Failure(SweepAllowsOneClient);
      }
      jobs := SweepJobs(client, targets);
      return Success(Schedule(SweepMode, jobs));
    case ShardMode =>
      if |clients| == 0 {
        return Failure(NeedsClient);
      }
      jobs := ShardJobs(clients, targets);
      return Success(Schedule(ShardMode, jobs));
    case MatrixMode =>
      if |clients| == 0 {
        return Failure(NeedsClient);
      }
      jobs := MatrixJobs(clients, targets);
      return Success(Schedule(MatrixMode, jobs));
    case Unknown(name) => return Failure(UnknownMode(name));
  }

  // ----- Properties of every schedule -----

  /** Auto mode, named or empty, succeeds exactly when some target is not blank. */
  lemma AutoSucceedsIff(mode: string, clients: seq<string>, targets: seq<string>)
    requires ModeOf(mode) == Auto
    ensures Built(mode, clients, targets).Success? <==>
      exists i :: 0 <= i < |targets| && TrimSpace(targets[i]) != ""
  {
    NormalizedIsClean(targets);
    var ts := Normalized(targets);
    if ts != [] {
      assert ts[0] in ts;
      var i :| 0 <= i < |targets| && TrimSpace(targets[i]) == ts[0];
      assert TrimSpace(targets[i]) != "";
    } else {
      forall i | 0 <= i < |targets| ensures TrimSpace(targets[i]) == "" {
        var x := TrimSpace(targets[i]);
        assert x !in ts;
      }
    }
  }

  lemma {:induction false} MatrixIsProduct(clients: seq<string>, targets: seq<string>)
    requires Distinct(clients) && Distinct(targets)
    ensures Distinct(Matrix(clients, targets))
    ensures |Matrix(clients, targets)| == |clients| * |targets|
    ensures forall a :: a in Matrix(clients, targets) <==> a.client in clients && a.target in targets
  {
    if clients != [] {
      var n := |clients| - 1;
      var before, row := Matrix(clients[..n], targets), Sweep(clients[n], targets);
      MatrixIsProduct(clients[..n], targets);
      SweepIsRow(clients[n], targets);
      assert clients[n] !in clients[..n];
      assert clients == clients[..n] + [clients[n]];
      forall i, j | 0 <= i < |before| && 0 <= j < |row| ensures before[i] != row[j] {
        assert before[i] in before && row[j] in row;
      }
      DistinctConcat(before, row);
      assert |clients| * |targets| == n * |targets| + |targets|;
    }
  }

  lemma SweepIsRow(client: string, targets: seq<string>)
    requires Distinct(targets)
    ensures Distinct(Sweep(client, targets))
    ensures forall a :: a in Sweep(client, targets) <==> a.client == client && a.target in targets
  {
    var row := Sweep(client, targets);
    forall a: Assignment | a.client == client && a.target in targets ensures a in row {
      var i :| 0 <= i < |targets| && targets[i] == a.target;
      assert row[i] == a;
    }
  }

  lemma DistinctConcat<T>(a: seq<T>, b: seq<T>)
    requires Distinct(a) && Distinct(b)
    requires forall i, j :: 0 <= i < |a| && 0 <= j < |b| ==> a[i] != b[j]
    ensures Distinct(a + b)
  {
    forall i, j | 0 <= i < j < |a + b| ensures (a + b)[i] != (a + b)[j] {
      if i < |a| && j >= |a| { assert a[i] != b[j - |a|]; }
    }
  }

  /** No schedule repeats an assignment; each pairs a listed target with a listed client, or
      with the local coordinator when no client is listed. */
  lemma ScheduleHasNoDuplicates(mode: string, clients: seq<string>, targets: seq<string>)
    requires Built(mode, clients, targets).Success?
    ensures
      var jobs := Built(mode, clients, targets).value.assignments;
      var cs, ts := Normalized(clients), Normalized(targets);
      && jobs != []
      && Distinct(jobs)
      && forall a :: a in jobs ==> a.target in ts && (a.client in cs || (a.client == "" && cs == []))
  {
    NormalizedIsClean(clients);
    NormalizedIsClean(targets);
    PlannedIsProper(ModeOf(mode), Normalized(clients), Normalized(targets));
  }

  lemma ShardIsProper(clients: seq<string>, targets: seq<string>)
    requires Distinct(clients) && targets != []
    ensures Distinct(Shard(clients, targets))
    ensures forall a :: a in Shard(clients, targets) ==> a.target in targets && a.client in clients
  {
  }

  lemma PoolIsProper(clients: seq<string>, target: string)
    requires Distinct(clients)
    ensures Distinct(Pool(clients, target))
    ensures forall a :: a in Pool(clients, target) ==> a.target == target && a.client in clients
  {
  }

  lemma PlannedIsProper(mode: Mode, clients: seq<string>, targets: seq<string>)
    requires Distinct(clients) && Distinct(targets) && Planned(mode, clients, targets).Success?
    ensures
      var jobs := Planned(mode, clients, targets).value.assignments;
      && jobs != []
      && Distinct(jobs)
      && forall a :: a in jobs ==> a.target in targets && (a.client in clients || (a.client == "" && clients == []))
  {
    match Planned(mode, clients, targets).value.mode
    case PoolMode => PoolIsProper(clients, targets[0]);
    case SweepMode => SweepIsRow(FirstOrLocal(clients), targets);
    case ShardMode => ShardIsProper(clients, targets);
    case MatrixMode =>
      MatrixIsProduct(clients, targets);
      MatrixNotEmpty(clients, targets);
    case _ =>
  }

  lemma MatrixNotEmpty(clients: seq<string>, targets: seq<string>)
    requires clients != [] && targets != []
    ensures Matrix(clients, targets) != []
  {
    var row := Sweep(clients[|clients| - 1], targets);
    assert |row| > 0;
  }

  // ----- Sharding -----

  /** How many assignments a target gets. */
  function Load(jobs: seq<Assignment>, target: string): nat {
    if jobs == [] then 0
    else Load(jobs[..|jobs| - 1], target) + if jobs[|jobs| - 1].target == target then 1 else 0
  }

  lemma {:induction false} ShardLoad(clients: seq<string>, targets: seq<string>, k: nat, j: nat)
    requires targets != [] && Distinct(targets) && k <= |clients| && j < |targets|
    ensures Load(Shard(clients, targets)[..k], targets[j]) == k / |targets| + if j < k % |targets| then 1 else 0
  {
    var m := |targets|;
    if k > 0 {
      ShardLoad(clients, targets, k - 1, j);
      var jobs := Shard(clients, targets)[..k];
      assert jobs[..k - 1] == Shard(clients, targets)[..k - 1];
      NextQuotient(k - 1, m);
      var r := (k - 1) % m;
      assert jobs[k - 1].target == targets[r];
      assert targets[r] == targets[j] <==> r == j;
    } else {
      QuotientUnique(0, m, 0, 0);
    }
  }

  /** Sharding uses every client once, in order; the loads of two targets differ by at most
      one; and with at least as many clients as targets none is left out. */
  lemma ShardBalanced(clients: seq<string>, targets: seq<string>)
    requires Clean(clients) && Clean(targets) && targets != []
    ensures
      var jobs := Shard(clients, targets);
      && |jobs| == |clients|
      && (forall i :: 0 <= i < |clients| ==> jobs[i].client == clients[i])
      && (forall i, j :: 0 <= i < |targets| && 0 <= j < |targets| ==>
            Load(jobs, targets[i]) <= Load(jobs, targets[j]) + 1)
      && (|clients| >= |targets| ==> forall j :: 0 <= j < |targets| ==> Load(jobs, targets[j]) > 0)
  {
    var jobs := Shard(clients, targets);
    assert jobs[..|clients|] == jobs;
    forall j | 0 <= j < |targets|
      ensures Load(jobs, targets[j]) == |clients| / |targets| + if j < |clients| % |targets| then 1 else 0
    {
      ShardLoad(clients, targets, |clients|, j);
    }
    if |clients| >= |targets| {
      QuotientPositive(|clients|, |targets|);
    }
  }

  // ----- What each mode name asks for -----

  /** Each target once, in order, on the one host. */
  predicate OncePerTarget(jobs: seq<Assignment>, host: string, targets: seq<string>) {
    |jobs| == |targets| && forall i :: 0 <= i < |jobs| ==> jobs[i] == Assignment(host, targets[i])
  }

  /** Each client once, in order, on the one target. */
  predicate OncePerClient(jobs: seq<Assignment>, clients: seq<string>, target: string) {
    |jobs| == |clients| && forall i :: 0 <= i < |jobs| ==> jobs[i] == Assignment(clients[i], target)
  }

  /** Each client once, in order; the targets take turns, so their loads are balanced. */
  predicate TakingTurns(jobs: seq<Assignment>, clients: seq<string>, targets: seq<string>)
    requires targets != []
  {
    && |jobs| == |clients|
    && (forall i :: 0 <= i < |jobs| ==> jobs[i] == Assignment(clients[i], targets[i % |targets|]))
    && (forall t, u :: t in targets && u in targets ==> Load(jobs, t) <= Load(jobs, u) + 1)
  }

  /** Each pair of a client and a target once. */
  ghost predicate EachPairOnce(jobs: seq<Assignment>, clients: seq<string>, targets: seq<string>) {
    && |jobs| == |clients| * |targets| && Distinct(jobs)
    && forall a :: a in jobs <==> a.client in clients && a.target in targets
  }

  /** The one client, or the coordinator if none is listed. */
  predicate OnlyHost(clients: seq<string>, host: string) {
    |clients| <= 1 && if clients == [] then host == "" else host == clients[0]
  }

  lemma ModeNames()
    ensures ModeOf("") == ModeOf("auto") == Auto && ModeOf("single") == Single && ModeOf("pool") == PoolMode
    ensures ModeOf("sweep") == SweepMode && ModeOf("shard") == ShardMode && ModeOf("matrix") == MatrixMode
  {
  }

  /** Auto mode goes by how many clients and targets are left: at most one client measures every
      target, several clients share one target, and several clients take turns on several. */
  lemma AutoChooses(mode: string, clients: seq<string>, targets: seq<string>, host: string)
    requires mode == "" || mode == "auto"
    ensures
      var cs, ts, r := Normalized(clients), Normalized(targets), Built(mode, clients, targets);
      && (ts == [] ==> r == Failure(NoTarget))
      && (ts != [] ==> r.Success?)
      && (ts != [] && OnlyHost(cs, host) ==>
            OncePerTarget(r.value.assignments, host, ts) && r.value.mode == if |ts| == 1 then Single else SweepMode)
      && (|ts| == 1 && |cs| > 1 ==> OncePerClient(r.value.assignments, cs, ts[0]) && r.value.mode == PoolMode)
      && (|ts| > 1 && |cs| > 1 ==> TakingTurns(r.value.assignments, cs, ts) && r.value.mode == ShardMode)
  {
    hide ModeOf, Normalized, Shard, TakingTurns, TrimSpace;
    ModeNames();
    NormalizedIsClean(clients);
    NormalizedIsClean(targets);
    if Normalized(targets) != [] { ShardTakesTurns(Normalized(clients), Normalized(targets)); }
  }

  lemma ShardTakesTurns(clients: seq<string>, targets: seq<string>)
    requires Clean(clients) && Clean(targets) && targets != []
    ensures TakingTurns(Shard(clients, targets), clients, targets)
  {
    ShardBalanced(clients, targets);
    var jobs := Shard(clients, targets);
    forall t, u | t in targets && u in targets ensures Load(jobs, t) <= Load(jobs, u) + 1 {
      var i :| 0 <= i < |targets| && targets[i] == t;
      var j :| 0 <= j < |targets| && targets[j] == u;
      assert Load(jobs, targets[i]) <= Load(jobs, targets[j]) + 1;
    }
  }

  /** The modes for one target. */
  lemma OneTargetModes(clients: seq<string>, targets: seq<string>)
    ensures
      var cs, ts := Normalized(clients), Normalized(targets);
      var single, pool := Built("single", clients, targets), Built("pool", clients, targets);
      && (ts == [] ==> single == pool == Failure(NoTarget))
      && (|ts| > 1 ==> single == Failure(SingleNeedsOneTarget) && pool == Failure(PoolNeedsOneTarget))
      && (|ts| == 1 && |cs| > 1 ==> single == Failure(SingleAllowsOneClient))
      && (|ts| == 1 && cs == [] ==> pool == Failure(NeedsClient))
      && (|ts| == 1 && |cs| <= 1 ==>
            single == Success(Schedule(Single, [Assignment(if cs == [] then "" else cs[0], ts[0])])))
      && (|ts| == 1 && cs != [] ==>
            pool.Success? && pool.value.mode == PoolMode && OncePerClient(pool.value.assignments, cs, ts[0]))
  {
    hide ModeOf, Normalized;
    ModeNames();
  }

  /** The modes for any number of targets. */
  lemma ManyTargetModes(clients: seq<string>, targets: seq<string>, host: string)
    ensures
      var cs, ts := Normalized(clients), Normalized(targets);
      var sweep, shard, matrix :=
        Built("sweep", clients, targets), Built("shard", clients, targets), Built("matrix", clients, targets);
      && (ts == [] ==> sweep == shard == matrix == Failure(NoTarget))
      && (ts != [] && |cs| > 1 ==> sweep == Failure(SweepAllowsOneClient))
      && (ts != [] && cs == [] ==> shard == matrix == Failure(NeedsClient))
      && (ts != [] && OnlyHost(cs, host) ==>
            sweep.Success? && sweep.value.mode == SweepMode && OncePerTarget(sweep.value.assignments, host, ts))
      && (ts != [] && cs != [] ==>
            && shard.Success? && shard.value.mode == ShardMode && TakingTurns(shard.value.assignments, cs, ts)
            && matrix.Success? && matrix.value.mode == MatrixMode && EachPairOnce(matrix.value.assignments, cs, ts))
  {
    hide ModeOf, Normalized, Shard, TakingTurns, Matrix, TrimSpace;
    ModeNames();
    NormalizedIsClean(clients);
    NormalizedIsClean(targets);
    MatrixIsProduct(Normalized(clients), Normalized(targets));
    if Normalized(targets) != [] { ShardTakesTurns(Normalized(clients), Normalized(targets)); }
  }

  /** Every other name is refused by that name, once there is a target. */
  lemma OtherNamesRefused(mode: string, clients: seq<string>, targets: seq<string>)
    requires mode != "" && mode != "auto" && mode != "single" && mode != "pool"
    requires mode != "sweep" && mode != "shard" && mode != "matrix"
    ensures
      Built(mode, clients, targets) ==
      Failure(if Normalized(targets) == [] then NoTarget else UnknownMode(mode))
  {
    hide Normalized;
  }

  /** The matrix goes client by client, and for each through the targets in order. */
  lemma {:induction false} MatrixInOrder(clients: seq<string>, targets: seq<string>, i: nat, j: nat)
    requires i < |clients| && j < |targets|
    ensures |Matrix(clients, targets)| == |clients| * |targets|
    ensures 0 <= i * |targets| + j < |clients| * |targets|
    ensures Matrix(clients, targets)[i * |targets| + j] == Assignment(clients[i], targets[j])
  {
    var n, m := |clients| - 1, |targets|;
    MatrixSize(clients[..n], targets);
    assert (n + 1) * m == n * m + m;
    if i < n {
      MatrixInOrder(clients[..n], targets, i, j);
    }
  }

  lemma {:induction false} MatrixSize(clients: seq<string>, targets: seq<string>)
    ensures |Matrix(clients, targets)| == |clients| * |targets|
  {
    if clients != [] {
      MatrixSize(clients[..|clients| - 1], targets);
      assert |clients| * |targets| == (|clients| - 1) * |targets| + |targets|;
    }
  }

  // ----- The order of a normalized list -----

  /** Item i is the first that is x after trimming. */
  predicate FirstAt(items: seq<string>, i: nat, x: string)
    requires i < |items|
  {
    TrimSpace(items[i]) == x && forall k :: 0 <= k < i ==> TrimSpace(items[k]) != x
  }

  /** Entries stand in the order in which they first occur. */
  lemma {:induction false} NormalizedInOrder(items: seq<string>, p: nat, q: nat, i: nat, j: nat)
    requires p < q < |Normalized(items)| && i < |items| && j < |items|
    requires FirstAt(items, i, Normalized(items)[p]) && FirstAt(items, j, Normalized(items)[q])
    ensures i < j
  {
    var n := |items| - 1;
    var before := Normalized(items[..n]);
    NormalizedIsClean(items[..n]);
    assert before[p] in before;
    var k :| 0 <= k < n && TrimSpace(items[..n][k]) == before[p];
    assert TrimSpace(items[k]) == Normalized(items)[p];
    if q < |before| {
      assert before[q] in before;
      var l :| 0 <= l < n && TrimSpace(items[..n][l]) == before[q];
      assert TrimSpace(items[l]) == Normalized(items)[q];
      assert FirstAt(items[..n], i, before[p]) && FirstAt(items[..n], j, before[q]);
      NormalizedInOrder(items[..n], p, q, i, j);
    }
  }
}
