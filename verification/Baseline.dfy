/** Regression checks of a run against a stored baseline or against its history. */
module Baseline {
  import opened Options
  import opened Arithmetic
  import opened Strings

  datatype RunResult = RunResult(
    id: string, profile: string, endpoint: string, device: string, host: string, iops: real, p99: real)

  datatype Metric = Iops | LatencyP99

  /** rolling is the prefix that CheckAgainstReference puts before the message. */
  datatype Alert = Alert(
    metric: Metric, baseline: real, current: real, deltaPct: real, thresholdPct: real, rolling: bool)

  const DEFAULT_IOPS_DEGRADE_PCT := 10.0
  const DEFAULT_LATENCY_DEGRADE_PCT := 15.0

  function TargetKey(run: RunResult): string {
    if run.endpoint != "" then TrimSpace(run.endpoint)
    else if run.device != "" then TrimSpace(run.device)
    else if run.host != "" then TrimSpace(run.host)
    else "_default"
  }

  function PctDelta(base: real, current: real): real {
    if base == 0.0 then 0.0 else (current - base) / base * 100.0
  }

  function Threshold(given: real, default_: real): real { if given <= 0.0 then default_ else given }

  function Check(current: RunResult, base: RunResult, iopsThreshold: real, latencyThreshold: real): seq<Alert> {
    var iopsLimit, latencyLimit :=
      Threshold(iopsThreshold, DEFAULT_IOPS_DEGRADE_PCT), Threshold(latencyThreshold, DEFAULT_LATENCY_DEGRADE_PCT);
    var iopsDelta, latencyDelta := PctDelta(base.iops, current.iops), PctDelta(base.p99, current.p99);
    (if base.iops > 0.0 && current.iops > 0.0 && iopsDelta < -iopsLimit
     then [Alert(Iops, base.iops, current.iops, iopsDelta, iopsLimit, false)] else [])
    + (if base.p99 > 0.0 && current.p99 > 0.0 && latencyDelta > latencyLimit
       then [Alert(LatencyP99, base.p99, current.p99, latencyDelta, latencyLimit, false)] else [])
  }

  predicate AlertsOn(alerts: seq<Alert>, m: Metric) { exists i :: 0 <= i < |alerts| && alerts[i].metric == m }

  // ----- What an alert means, without divisions -----

  /** The value moved the wrong way by more than the threshold's share of the base. */
  predicate Regressed(m: Metric, base: real, current: real, limit: real) {
    && base > 0.0 && current > 0.0
    && match m
       case Iops => 100.0 * (base - current) > limit * base
       case LatencyP99 => 100.0 * (current - base) > limit * base
  }

  function ValueOf(m: Metric, run: RunResult): real { if m == Iops then run.iops else run.p99 }

  /** The threshold that applies: the given one if it is positive, otherwise 10 or 15 percent. */
  predicate IsLimit(m: Metric, iopsThreshold: real, latencyThreshold: real, limit: real) {
    match m
    case Iops => limit == if iopsThreshold > 0.0 then iopsThreshold else 10.0
    case LatencyP99 => limit == if latencyThreshold > 0.0 then latencyThreshold else 15.0
  }

  function LimitOf(m: Metric, iopsThreshold: real, latencyThreshold: real): (limit: real)
    ensures IsLimit(m, iopsThreshold, latencyThreshold, limit) && limit > 0.0
  {
    if m == Iops then Threshold(iopsThreshold, DEFAULT_IOPS_DEGRADE_PCT)
    else Threshold(latencyThreshold, DEFAULT_LATENCY_DEGRADE_PCT)
  }

  lemma PctDeltaScaled(base: real, current: real, limit: real)
    requires base > 0.0
    ensures PctDelta(base, current) < -limit <==> 100.0 * (base - current) > limit * base
    ensures PctDelta(base, current) > limit <==> 100.0 * (current - base) > limit * base
  {
    var q := (current - base) / base;
    assert q * base == current - base;
    ScaledBelow(100.0 * q, -limit, base);
    ScaledBelow(limit, 100.0 * q, base);
  }

  lemma ScaledBelow(x: real, y: real, base: real)
    requires base > 0.0
    ensures x < y <==> x * base < y * base
  {
    if x < y { assert (y - x) * base > 0.0; } else { assert (x - y) * base >= 0.0; }
  }

  lemma AlertMeans(current: RunResult, base: RunResult, iopsThreshold: real, latencyThreshold: real, m: Metric)
    ensures AlertsOn(Check(current, base, iopsThreshold, latencyThreshold), m)
      <==> Regressed(m, ValueOf(m, base), ValueOf(m, current), LimitOf(m, iopsThreshold, latencyThreshold))
  {
    var alerts := Check(current, base, iopsThreshold, latencyThreshold);
    var limit := LimitOf(m, iopsThreshold, latencyThreshold);
    if ValueOf(m, base) > 0.0 { PctDeltaScaled(ValueOf(m, base), ValueOf(m, current), limit); }
    if Regressed(m, ValueOf(m, base), ValueOf(m, current), limit) {
      assert alerts[if m == Iops then 0 else |alerts| - 1].metric == m;
    }
  }

  /** What an alert says: both values of its metric, the change in percent and the limit. */
  predicate Describes(a: Alert, base: RunResult, current: RunResult, iopsThreshold: real, latencyThreshold: real) {
    && a.baseline == ValueOf(a.metric, base) && a.current == ValueOf(a.metric, current)
    && a.deltaPct * a.baseline == 100.0 * (a.current - a.baseline)
    && IsLimit(a.metric, iopsThreshold, latencyThreshold, a.thresholdPct)
  }

  /** At most one alert for each metric, the rate's first, and each says what was compared. */
  lemma AlertsDescribe(current: RunResult, base: RunResult, iopsThreshold: real, latencyThreshold: real)
    ensures
      var alerts := Check(current, base, iopsThreshold, latencyThreshold);
      && (forall i :: 0 <= i < |alerts| ==>
            Describes(alerts[i], base, current, iopsThreshold, latencyThreshold) && !alerts[i].rolling)
      && (|alerts| <= 1 || (|alerts| == 2 && alerts[0].metric == Iops && alerts[1].metric == LatencyP99))
  {
    hide PctDelta, Describes, Threshold;
    if base.iops > 0.0 { AlertDescribes(Iops, base, current, iopsThreshold, latencyThreshold); }
    if base.p99 > 0.0 { AlertDescribes(LatencyP99, base, current, iopsThreshold, latencyThreshold); }
  }

  lemma AlertDescribes(m: Metric, base: RunResult, current: RunResult, iopsThreshold: real, latencyThreshold: real)
    requires ValueOf(m, base) > 0.0
    ensures
      var delta := PctDelta(ValueOf(m, base), ValueOf(m, current));
      Describes(Alert(m, ValueOf(m, base), ValueOf(m, current), delta,
                      LimitOf(m, iopsThreshold, latencyThreshold), false),
                base, current, iopsThreshold, latencyThreshold)
  {
    DeltaScales(ValueOf(m, base), ValueOf(m, current));
  }

  lemma DeltaScales(base: real, current: real)
    requires base > 0.0
    ensures PctDelta(base, current) * base == 100.0 * (current - base)
  {
    var q := (current - base) / base;
    assert q * base == current - base;
    assert q * 100.0 * base == 100.0 * (q * base);
  }

  lemma PositiveFactor(x: real, y: real)
    requires y > 0.0 && x * y > 0.0
    ensures x > 0.0
  {
  }

  /** A better base alerts whenever a worse one does. */
  lemma BetterBaseAlerts(m: Metric, worse: real, better: real, current: real, limit: real)
    requires worse > 0.0 && better > 0.0 && limit > 0.0
    requires if m == Iops then worse <= better else better <= worse
    requires Regressed(m, worse, current, limit)
    ensures Regressed(m, better, current, limit)
  {
    match m
    case Iops =>
      PositiveFactor(100.0 - limit, worse);
      ProductNonNegative(100.0 - limit, better - worse);
    case LatencyP99 =>
      ProductNonNegative(100.0 + limit, worse - better);
  }

  // ----- The rolling reference -----

  /** Which historical runs count for a run: those of the same profile and target key, not the
      run itself, with a positive rate. */
  datatype Selection = Selection(profile: string, targetKey: string, excludeId: string) {
    predicate Counts(h: RunResult) {
      h.id != excludeId && h.profile == profile && TargetKey(h) == targetKey && h.iops > 0.0
    }
  }

  /** The first of endpoint, device and host that is not empty. */
  predicate Address(run: RunResult, x: string) {
    x != "" &&
    if run.endpoint != "" then x == run.endpoint
    else if run.device != "" then x == run.device
    else x == run.host
  }

  predicate NoAddress(run: RunResult) { run.endpoint == "" && run.device == "" && run.host == "" }

  /** The runs name the same place, up to blanks around it, or neither names one. */
  ghost predicate SamePlace(a: RunResult, b: RunResult) {
    || (exists x, y :: Address(a, x) && Address(b, y) && TrimSpace(x) == TrimSpace(y))
    || (NoAddress(a) && NoAddress(b))
    || (NoAddress(b) && exists x :: Address(a, x) && TrimSpace(x) == "_default")
    || (NoAddress(a) && exists y :: Address(b, y) && TrimSpace(y) == "_default")
  }

  /** A run of the history that the given run is compared with. */
  ghost predicate Comparable(run: RunResult, h: RunResult) {
    h.id != run.id && h.profile == run.profile && SamePlace(run, h) && h.iops > 0.0
  }

  lemma KeyOfAddress(run: RunResult)
    ensures forall x :: Address(run, x) ==> TargetKey(run) == TrimSpace(x)
    ensures NoAddress(run) ==> TargetKey(run) == "_default"
    ensures !NoAddress(run) ==> exists x :: Address(run, x)
  {
    hide TrimSpace;
    if !NoAddress(run) {
      var x := if run.endpoint != "" then run.endpoint else if run.device != "" then run.device else run.host;
      assert Address(run, x);
    }
  }

  lemma SamePlaceIff(a: RunResult, b: RunResult)
    ensures TargetKey(a) == TargetKey(b) <==> SamePlace(a, b)
  {
    hide TrimSpace, TargetKey, Address, NoAddress;
    KeyOfAddress(a);
    KeyOfAddress(b);
  }

  /** A run counts for another exactly if it is not the same, has the same profile and a rate, and
      was measured in the same place. */
  lemma CountsIff(run: RunResult, h: RunResult)
    ensures Selection(run.profile, TargetKey(run), run.id).Counts(h) <==> Comparable(run, h)
  {
    hide TargetKey, SamePlace;
    SamePlaceIff(run, h);
  }

  datatype Reference = Reference(iops: real, p99: real, runId: string)

  predicate SomeCount(sel: Selection, history: seq<RunResult>, n: nat)
    requires n <= |history|
  {
    exists i :: 0 <= i < n && sel.Counts(history[i])
  }

  /** The highest rate of the runs that count, with the id of the first run that reached it. */
  predicate BestIops(sel: Selection, history: seq<RunResult>, n: nat, iops: real, runId: string)
    requires n <= |history|
  {
    && (forall i :: 0 <= i < n && sel.Counts(history[i]) ==> history[i].iops <= iops)
    && exists i :: 0 <= i < n && sel.Counts(history[i]) && history[i].iops == iops && history[i].id == runId
         && forall j :: 0 <= j < i && sel.Counts(history[j]) ==> history[j].iops < iops
  }

  /** The lowest positive latency of the runs that count, 0 if none has one. */
  predicate BestP99(sel: Selection, history: seq<RunResult>, n: nat, p99: real)
    requires n <= |history|
  {
    && p99 >= 0.0
    && (forall i :: 0 <= i < n && sel.Counts(history[i]) && history[i].p99 > 0.0 ==> 0.0 < p99 <= history[i].p99)
    && (p99 > 0.0 ==> exists i :: 0 <= i < n && sel.Counts(history[i]) && history[i].p99 == p99)
  }

  ghost predicate IsReference(sel: Selection, history: seq<RunResult>, ref: Option<Reference>) {
    match ref
    case None => !SomeCount(sel, history, |history|)
    case Some(r) => BestIops(sel, history, |history|, r.iops, r.runId) && BestP99(sel, history, |history|, r.p99)
  }

  lemma NextIops(sel: Selection, history: seq<RunResult>, n: nat, iops: real, runId: string)
    requires n < |history| && sel.Counts(history[n])
    requires if SomeCount(sel, history, n) then BestIops(sel, history, n, iops, runId) else iops == 0.0
    ensures if history[n].iops > iops then BestIops(sel, history, n + 1, history[n].iops, history[n].id)
            else BestIops(sel, history, n + 1, iops, runId)
  {
    hide TargetKey;
  }

  lemma NextP99(sel: Selection, history: seq<RunResult>, n: nat, p99: real)
    requires n < |history| && BestP99(sel, history, n, p99)
    ensures
      if sel.Counts(history[n]) && history[n].p99 > 0.0 && (p99 == 0.0 || history[n].p99 < p99)
      then BestP99(sel, history, n + 1, history[n].p99)
      else BestP99(sel, history, n + 1, p99)
  {
    hide TargetKey;
  }

  lemma SkipIops(sel: Selection, history: seq<RunResult>, n: nat, iops: real, runId: string)
    requires n < |history| && !sel.Counts(history[n])
    ensures SomeCount(sel, history, n + 1) == SomeCount(sel, history, n)
    ensures BestIops(sel, history, n, iops, runId) ==> BestIops(sel, history, n + 1, iops, runId)
  {
    hide TargetKey;
    if SomeCount(sel, history, n + 1) {
      var i :| 0 <= i < n + 1 && sel.Counts(history[i]);
      assert i < n;
    }
    if BestIops(sel, history, n, iops, runId) {
      var i :| 0 <= i < n && sel.Counts(history[i]) && history[i].iops == iops && history[i].id == runId
        && forall j :: 0 <= j < i && sel.Counts(history[j]) ==> history[j].iops < iops;
      assert BestIops(sel, history, n + 1, iops, runId);
    }
  }

  method ReferenceFromHistory(history: seq<RunResult>, sel: Selection) returns (ref: Option<Reference>)
    ensures IsReference(sel, history, ref)
  {
    var bestIops, bestP99, iopsRunId, count := 0.0, 0.0, "", 0;
    for n := 0 to |history|
      invariant count >= 0 && (count > 0 <==> SomeCount(sel, history, n))
      invariant if SomeCount(sel, history, n) then BestIops(sel, history, n, bestIops, iopsRunId) else bestIops == 0.0
      invariant BestP99(sel, history, n, bestP99)
    {
      var h := history[n];
      NextP99(sel, history, n, bestP99);
      if h.id == sel.excludeId || h.profile != sel.profile || TargetKey(h) != sel.targetKey || h.iops <= 0.0 {
        SkipIops(sel, history, n, bestIops, iopsRunId);
        continue;
      }
      NextIops(sel, history, n, bestIops, iopsRunId);
      assert SomeCount(sel, history, n + 1);
      count := count + 1;
      if h.iops > bestIops {
        bestIops, iopsRunId := h.iops, h.id;
      }
      if h.p99 > 0.0 && (bestP99 == 0.0 || h.p99 < bestP99) {
        bestP99 := h.p99;
      }
    }
    if count == 0 {
      return None;
    }
    ref := Some(Reference(bestIops, bestP99, iopsRunId));
  }

  function Synthetic(r: Reference): RunResult { RunResult(r.runId, "", "", "", "", r.iops, r.p99) }

  function Marked(alerts: seq<Alert>): (marked: seq<Alert>)
    ensures |marked| == |alerts| && forall i :: 0 <= i < |alerts| ==> marked[i] == alerts[i].(rolling := true)
  {
    if alerts == [] then [] else Marked(alerts[..|alerts| - 1]) + [alerts[|alerts| - 1].(rolling := true)]
  }

  method CheckAgainstReference(current: RunResult, ref: Option<Reference>, iopsThreshold: real, latencyThreshold: real)
    returns (alerts: seq<Alert>)
    ensures ref == None ==> alerts == []
    ensures ref != None ==> alerts == Marked(Check(current, Synthetic(ref.value), iopsThreshold, latencyThreshold))
  {
    if ref == None {
      return [];
    }
    alerts := Check(current, Synthetic(ref.value), iopsThreshold, latencyThreshold);
    ghost var plain := alerts;
    for i := 0 to |alerts|
      invariant |alerts| == |plain|
      invariant forall j :: 0 <= j < |plain| ==> alerts[j] == if j < i then plain[j].(rolling := true) else plain[j]
    {
      alerts := alerts[i := alerts[i].(rolling := true)];
    }
  }

  lemma MarkedAlertsOn(alerts: seq<Alert>, m: Metric)
    ensures AlertsOn(Marked(alerts), m) <==> AlertsOn(alerts, m)
  {
    forall i | 0 <= i < |alerts| ensures Marked(alerts)[i].metric == alerts[i].metric {}
  }

  predicate AlertsAgainstSome(current: RunResult, sel: Selection, history: seq<RunResult>,
                              iopsThreshold: real, latencyThreshold: real, m: Metric) {
    exists i :: 0 <= i < |history| && sel.Counts(history[i])
      && AlertsOn(Check(current, history[i], iopsThreshold, latencyThreshold), m)
  }

  function RollingAlerts(
    current: RunResult, ref: Option<Reference>, iopsThreshold: real, latencyThreshold: real): seq<Alert>
  {
    if ref == None then [] else Marked(Check(current, Synthetic(ref.value), iopsThreshold, latencyThreshold))
  }

  /** Whatever a check against one counted run of the history reports, the rolling check reports. */
  lemma RollingDominates(current: RunResult, sel: Selection, history: seq<RunResult>, ref: Option<Reference>,
                         iopsThreshold: real, latencyThreshold: real, m: Metric, i: nat)
    requires IsReference(sel, history, ref) && i < |history| && sel.Counts(history[i])
    requires AlertsOn(Check(current, history[i], iopsThreshold, latencyThreshold), m)
    ensures AlertsOn(RollingAlerts(current, ref, iopsThreshold, latencyThreshold), m)
  {
    var r := ref.value;
    AlertMeans(current, history[i], iopsThreshold, latencyThreshold, m);
    AlertMeans(current, Synthetic(r), iopsThreshold, latencyThreshold, m);
    BetterBaseAlerts(m, ValueOf(m, history[i]), ValueOf(m, Synthetic(r)), ValueOf(m, current),
                     LimitOf(m, iopsThreshold, latencyThreshold));
    MarkedAlertsOn(Check(current, Synthetic(r), iopsThreshold, latencyThreshold), m);
  }

  /** The rolling check alerts on a metric exactly when a check against some counted run of the
      history does: for every history in every order and for all thresholds. */
  lemma RollingAlertsIff(current: RunResult, sel: Selection, history: seq<RunResult>, ref: Option<Reference>,
                         iopsThreshold: real, latencyThreshold: real, m: Metric)
    requires IsReference(sel, history, ref)
    ensures AlertsOn(RollingAlerts(current, ref, iopsThreshold, latencyThreshold), m)
      <==> AlertsAgainstSome(current, sel, history, iopsThreshold, latencyThreshold, m)
  {
    if AlertsAgainstSome(current, sel, history, iopsThreshold, latencyThreshold, m) {
      var i :| 0 <= i < |history| && sel.Counts(history[i])
        && AlertsOn(Check(current, history[i], iopsThreshold, latencyThreshold), m);
      RollingDominates(current, sel, history, ref, iopsThreshold, latencyThreshold, m, i);
    } else if ref != None {
      var r := ref.value;
      AlertMeans(current, Synthetic(r), iopsThreshold, latencyThreshold, m);
      MarkedAlertsOn(Check(current, Synthetic(r), iopsThreshold, latencyThreshold), m);
      if ValueOf(m, Synthetic(r)) > 0.0 {
        var i :| 0 <= i < |history| && sel.Counts(history[i]) && ValueOf(m, history[i]) == ValueOf(m, Synthetic(r));
        AlertMeans(current, history[i], iopsThreshold, latencyThreshold, m);
      }
    }
  }

  /** A metric regressed against some comparable run of the history. */
  ghost predicate RegressedAgainstSome(run: RunResult, history: seq<RunResult>, m: Metric) {
    exists i :: 0 <= i < |history| && Comparable(run, history[i])
      && Regressed(m, ValueOf(m, history[i]), ValueOf(m, run), if m == Iops then 10.0 else 15.0)
  }

  lemma AgainstSomeIff(run: RunResult, history: seq<RunResult>, m: Metric)
    ensures
      AlertsAgainstSome(run, Selection(run.profile, TargetKey(run), run.id), history,
                        DEFAULT_IOPS_DEGRADE_PCT, DEFAULT_LATENCY_DEGRADE_PCT, m)
      <==> RegressedAgainstSome(run, history, m)
  {
    hide TargetKey, Comparable, Check, Regressed, AlertsOn;
    var sel := Selection(run.profile, TargetKey(run), run.id);
    forall i | 0 <= i < |history|
      ensures sel.Counts(history[i]) <==> Comparable(run, history[i])
      ensures AlertsOn(Check(run, history[i], DEFAULT_IOPS_DEGRADE_PCT, DEFAULT_LATENCY_DEGRADE_PCT), m)
        <==> Regressed(m, ValueOf(m, history[i]), ValueOf(m, run), if m == Iops then 10.0 else 15.0)
    {
      CountsIff(run, history[i]);
      AlertMeans(run, history[i], DEFAULT_IOPS_DEGRADE_PCT, DEFAULT_LATENCY_DEGRADE_PCT, m);
    }
  }

  /** The best value of the comparable runs. */
  ghost predicate BestComparable(run: RunResult, history: seq<RunResult>, m: Metric, best: real) {
    && (exists i :: 0 <= i < |history| && Comparable(run, history[i]) && ValueOf(m, history[i]) == best)
    && forall i :: 0 <= i < |history| && Comparable(run, history[i]) ==>
         match m
         case Iops => history[i].iops <= best
         case LatencyP99 => history[i].p99 > 0.0 ==> best <= history[i].p99
  }

  /** A rolling alert compares with the best of the comparable runs. */
  ghost predicate RollingDescribes(a: Alert, run: RunResult, history: seq<RunResult>) {
    && a.rolling && BestComparable(run, history, a.metric, a.baseline)
    && a.current == ValueOf(a.metric, run) && a.deltaPct * a.baseline == 100.0 * (a.current - a.baseline)
    && a.thresholdPct == if a.metric == Iops then 10.0 else 15.0
  }

  lemma AlertsOnlyPositive(run: RunResult, base: RunResult, i: nat)
    requires i < |Check(run, base, DEFAULT_IOPS_DEGRADE_PCT, DEFAULT_LATENCY_DEGRADE_PCT)|
    ensures ValueOf(Check(run, base, DEFAULT_IOPS_DEGRADE_PCT, DEFAULT_LATENCY_DEGRADE_PCT)[i].metric, base) > 0.0
  {
    hide PctDelta;
  }

  lemma ReferenceIsBest(run: RunResult, history: seq<RunResult>, r: Reference, m: Metric)
    requires IsReference(Selection(run.profile, TargetKey(run), run.id), history, Some(r))
    requires ValueOf(m, Synthetic(r)) > 0.0
    ensures BestComparable(run, history, m, ValueOf(m, Synthetic(r)))
  {
    hide TargetKey, Comparable;
    forall h { CountsIff(run, h); }
  }

  lemma RollingAlertsDescribe(run: RunResult, history: seq<RunResult>, ref: Option<Reference>)
    requires IsReference(Selection(run.profile, TargetKey(run), run.id), history, ref)
    ensures
      var alerts := RollingAlerts(run, ref, DEFAULT_IOPS_DEGRADE_PCT, DEFAULT_LATENCY_DEGRADE_PCT);
      forall i :: 0 <= i < |alerts| ==> RollingDescribes(alerts[i], run, history)
  {
    hide TargetKey, Check, IsReference, BestComparable;
    if ref != None {
      var base := Synthetic(ref.value);
      var alerts := Check(run, base, DEFAULT_IOPS_DEGRADE_PCT, DEFAULT_LATENCY_DEGRADE_PCT);
      AlertsDescribe(run, base, DEFAULT_IOPS_DEGRADE_PCT, DEFAULT_LATENCY_DEGRADE_PCT);
      forall i | 0 <= i < |alerts| ensures RollingDescribes(Marked(alerts)[i], run, history) {
        assert Describes(alerts[i], base, run, DEFAULT_IOPS_DEGRADE_PCT, DEFAULT_LATENCY_DEGRADE_PCT);
        AlertsOnlyPositive(run, base, i);
        ReferenceIsBest(run, history, ref.value, alerts[i].metric);
      }
    }
  }

  /** The stored baseline decides if there is one, otherwise the comparable runs of the history:
      an alert on a metric exactly if it regressed by more than 10 or 15 percent. */
  method CheckRegression(run: RunResult, pinned: Option<RunResult>, history: seq<RunResult>)
    returns (alerts: seq<Alert>)
    ensures pinned.Some? ==> alerts == Check(run, pinned.value, DEFAULT_IOPS_DEGRADE_PCT, DEFAULT_LATENCY_DEGRADE_PCT)
    ensures pinned.Some? ==>
      forall m :: AlertsOn(alerts, m) <==>
        Regressed(m, ValueOf(m, pinned.value), ValueOf(m, run), if m == Iops then 10.0 else 15.0)
    ensures pinned.None? ==> forall m :: AlertsOn(alerts, m) <==> RegressedAgainstSome(run, history, m)
    ensures pinned.None? ==> forall i :: 0 <= i < |alerts| ==> RollingDescribes(alerts[i], run, history)
  {
    hide RollingDescribes, IsReference, AlertsAgainstSome, TargetKey, Comparable, Check;
    if pinned != None {
      forall m { AlertMeans(run, pinned.value, DEFAULT_IOPS_DEGRADE_PCT, DEFAULT_LATENCY_DEGRADE_PCT, m); }
      return Check(run, pinned.value, DEFAULT_IOPS_DEGRADE_PCT, DEFAULT_LATENCY_DEGRADE_PCT);
    }
    if |history| == 0 {
      return [];
    }
    var sel := Selection(run.profile, TargetKey(run), run.id);
    var ref := ReferenceFromHistory(history, sel);
    alerts := CheckAgainstReference(run, ref, DEFAULT_IOPS_DEGRADE_PCT, DEFAULT_LATENCY_DEGRADE_PCT);
    RollingAlertsDescribe(run, history, ref);
    assert alerts == RollingAlerts(run, ref, DEFAULT_IOPS_DEGRADE_PCT, DEFAULT_LATENCY_DEGRADE_PCT);
    forall m ensures AlertsOn(alerts, m) <==> RegressedAgainstSome(run, history, m) {
      RollingAlertsIff(run, sel, history, ref, DEFAULT_IOPS_DEGRADE_PCT, DEFAULT_LATENCY_DEGRADE_PCT, m);
      AgainstSomeIff(run, history, m);
    }
  }
}
