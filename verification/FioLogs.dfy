/** Live samples read from the fio iops and bandwidth logs, which only grow by whole lines. */
module FioLogs {
  import opened Options
  import opened Arithmetic

  datatype Sample = Sample(number: nat, iops: real, mbps: real)

  /** value is the number in the second field of a line, if the line has one. */
  type Reader = string -> Option<real>

  /** The values of the usable lines, in order: the file's map has them under 1, 2, 3, ... */
  function Values(value: Reader, lines: seq<string>): seq<real> {
    if lines == [] then []
    else
      var before := Values(value, lines[..|lines| - 1]);
      match value(lines[|lines| - 1])
      case None => before
      case Some(v) => before + [v]
  }

  /** How many of the first n lines have a value. */
  function Usable(value: Reader, lines: seq<string>, n: nat): nat
    requires n <= |lines|
  {
    if n == 0 then 0 else Usable(value, lines, n - 1) + if value(lines[n - 1]).Some? then 1 else 0
  }

  lemma {:induction false} UsablePrefix(value: Reader, lines: seq<string>, n: nat, k: nat)
    requires n <= k <= |lines|
    ensures Usable(value, lines[..k], n) == Usable(value, lines, n) <= Usable(value, lines, k)
    decreases k, n
  {
    if n > 0 { UsablePrefix(value, lines, n - 1, k); }
    if n < k { UsablePrefix(value, lines, n, k - 1); }
  }

  /** Every usable line has its value at the place that counts the usable lines before it, and there
      are no other values. */
  lemma {:induction false} ValuesOfUsableLines(value: Reader, lines: seq<string>)
    ensures |Values(value, lines)| == Usable(value, lines, |lines|)
    ensures forall i :: 0 <= i < |lines| && value(lines[i]).Some? ==>
      && Usable(value, lines, i) < |Values(value, lines)|
      && Values(value, lines)[Usable(value, lines, i)] == value(lines[i]).value
  {
    if lines != [] {
      var n := |lines| - 1;
      ValuesOfUsableLines(value, lines[..n]);
      forall i | 0 <= i <= n ensures Usable(value, lines[..n], i) == Usable(value, lines, i) {
        UsablePrefix(value, lines, i, n);
      }
      assert forall i :: 0 <= i < n ==> lines[..n][i] == lines[i];
    }
  }

  function AsMap(values: seq<real>): (m: map<int, real>)
    ensures forall k :: k in m <==> 1 <= k <= |values|
    ensures forall k :: k in m ==> m[k] == values[k - 1]
  {
    if values == [] then map[] else AsMap(values[..|values| - 1])[|values| := values[|values| - 1]]
  }

  /** A missing key of a Go map reads as zero. */
  function Entry(m: map<int, real>, k: int): real { if k in m then m[k] else 0.0 }

  method ParseLogFile(value: Reader, lines: seq<string>) returns (out: map<int, real>)
    ensures out == AsMap(Values(value, lines))
  {
    out := map[];
    var number := 0;
    for i := 0 to |lines|
      invariant number == |Values(value, lines[..i])| && out == AsMap(Values(value, lines[..i]))
    {
      assert lines[..i + 1][..i] == lines[..i];
      var v := value(lines[i]);
      if v == None {
        continue;
      }
      number := number + 1;
      out := out[number := Entry(out, number) + v.value];
    }
    assert lines[..|lines|] == lines;
  }

  /** Entry i of a log, 0 if the log is behind. */
  function At(values: seq<real>, i: nat): real { if i < |values| then values[i] else 0.0 }

  /** One sample per entry of the longer log, numbered from 1. */
  function Samples(iops: seq<real>, bandwidth: seq<real>): (samples: seq<Sample>)
    ensures |samples| == Max(|iops|, |bandwidth|)
    ensures forall i :: 0 <= i < |samples| ==> samples[i] == Sample(i + 1, At(iops, i), At(bandwidth, i) / 1048576.0)
    ensures forall i :: 0 <= i < |samples| ==>
      && samples[i].number == i + 1 && samples[i].iops == (if i < |iops| then iops[i] else 0.0)
      && samples[i].mbps * 1048576.0 == if i < |bandwidth| then bandwidth[i] else 0.0
  {
    seq(Max(|iops|, |bandwidth|), i requires i >= 0 => Sample(i + 1, At(iops, i), At(bandwidth, i) / 1048576.0))
  }

  function UpTo(n: nat): (numbers: seq<int>)
    ensures |numbers| == n && forall i :: 0 <= i < n ==> numbers[i] == i + 1
  {
    seq(n, i => i + 1)
  }

  /** The keys in ascending order; the maps' keys have no gaps. */
  method SortedKeys(keys: set<int>, ghost n: nat) returns (numbers: seq<int>)
    requires forall k :: k in keys <==> 1 <= k <= n
    ensures numbers == UpTo(n)
  {
    numbers := [];
    var left := keys;
    while left != {}
      invariant |numbers| <= n && numbers == UpTo(|numbers|)
      invariant forall k :: k in left <==> |numbers| < k <= n
      decreases |left|
    {
      assert |numbers| + 1 in left;
      var k :| k in left && forall j :: j in left ==> k <= j;
      numbers := numbers + [k];
      left := left - {k};
    }
    assert |numbers| < n ==> n in left;
  }

  /** The samples of two maps that hold a list each. */
  method BuildSamples(iops: map<int, real>, bandwidth: map<int, real>, ghost v: seq<real>, ghost w: seq<real>)
    returns (out: seq<Sample>)
    requires iops == AsMap(v) && bandwidth == AsMap(w)
    ensures out == Samples(v, w)
  {
    hide AsMap, Samples, UpTo;
    var numbers := SortedKeys(iops.Keys + bandwidth.Keys, Max(|v|, |w|));
    out := [];
    for i := 0 to |numbers|
      invariant out == Samples(v, w)[..i]
    {
      assert Entry(iops, numbers[i]) == At(v, i) && Entry(bandwidth, numbers[i]) == At(w, i);
      out := out + [Sample(i + 1, Entry(iops, numbers[i]), Entry(bandwidth, numbers[i]) / 1048576.0)];
    }
  }

  method ParseIntervals(value: Reader, iopsLines: seq<string>, bandwidthLines: seq<string>) returns (out: seq<Sample>)
    ensures out == Samples(Values(value, iopsLines), Values(value, bandwidthLines))
  {
    var iops := ParseLogFile(value, iopsLines);
    var bandwidth := ParseLogFile(value, bandwidthLines);
    if |iops| == 0 && |bandwidth| == 0 {
      assert 1 !in iops && 1 !in bandwidth;
      return [];
    }
    out := BuildSamples(iops, bandwidth, Values(value, iopsLines), Values(value, bandwidthLines));
  }

  // ----- Polling logs that grow -----

  datatype Logs = Logs(iops: seq<string>, bandwidth: seq<string>)

  predicate Grows(polls: seq<Logs>) {
    forall i, j :: 0 <= i < j < |polls| ==> polls[i].iops <= polls[j].iops && polls[i].bandwidth <= polls[j].bandwidth
  }

  function SamplesOf(value: Reader, logs: Logs): seq<Sample> {
    Samples(Values(value, logs.iops), Values(value, logs.bandwidth))
  }

  lemma {:induction false} ValuesGrow(value: Reader, lines: seq<string>, more: seq<string>)
    requires lines <= more
    ensures Values(value, lines) <= Values(value, more)
    decreases |more|
  {
    if |lines| < |more| {
      ValuesGrow(value, lines, more[..|more| - 1]);
    } else {
      assert lines == more;
    }
  }

  lemma SamplesGrow(value: Reader, a: Logs, b: Logs)
    requires a.iops <= b.iops && a.bandwidth <= b.bandwidth
    ensures |SamplesOf(value, a)| <= |SamplesOf(value, b)|
  {
    ValuesGrow(value, a.iops, b.iops);
    ValuesGrow(value, a.bandwidth, b.bandwidth);
  }

  /** Sample i as the first poll that saw it read it. */
  predicate FirstSeen(value: Reader, polls: seq<Logs>, i: nat, s: Sample) {
    exists p :: 0 <= p < |polls| && i < |SamplesOf(value, polls[p])| && s == SamplesOf(value, polls[p])[i]
      && (p > 0 ==> |SamplesOf(value, polls[p - 1])| <= i)
  }

  /** Numbered from 1, each as first seen. */
  predicate DeliveredWell(value: Reader, polls: seq<Logs>, delivered: seq<Sample>) {
    forall i :: 0 <= i < |delivered| ==> delivered[i].number == i + 1 && FirstSeen(value, polls, i, delivered[i])
  }

  method Flush(value: Reader, logs: Logs, emitted: nat) returns (news: seq<Sample>, count: nat)
    requires emitted <= |SamplesOf(value, logs)|
    ensures count == |SamplesOf(value, logs)| && news == SamplesOf(value, logs)[emitted..]
  {
    var samples := ParseIntervals(value, logs.iops, logs.bandwidth);
    news := [];
    for i := emitted to |samples|
      invariant news == samples[emitted..i]
    {
      news := news + [samples[i]];
    }
    count := |samples|;
  }

  lemma FlushKeepsDelivery(value: Reader, polls: seq<Logs>, p: nat, delivered: seq<Sample>)
    requires p < |polls| && DeliveredWell(value, polls[..p], delivered)
    requires |delivered| == (if p == 0 then 0 else |SamplesOf(value, polls[p - 1])|) <= |SamplesOf(value, polls[p])|
    ensures DeliveredWell(value, polls[..p + 1], delivered + SamplesOf(value, polls[p])[|delivered|..])
  {
    var now := delivered + SamplesOf(value, polls[p])[|delivered|..];
    forall i | 0 <= i < |now| ensures now[i].number == i + 1 && FirstSeen(value, polls[..p + 1], i, now[i]) {
      if i < |delivered| {
        StillFirstSeen(value, polls, p, i, delivered[i]);
      } else {
        NowFirstSeen(value, polls, p, i);
      }
    }
  }

  /** Each sample is delivered once, in order, at the first poll that sees it; after the last
      poll all samples of the logs have been delivered. */
  method Watch(value: Reader, polls: seq<Logs>) returns (delivered: seq<Sample>)
    requires Grows(polls)
    ensures |delivered| == if polls == [] then 0 else |SamplesOf(value, polls[|polls| - 1])|
    ensures DeliveredWell(value, polls, delivered)
  {
    var emitted := 0;
    delivered := [];
    for p := 0 to |polls|
      invariant |delivered| == emitted == if p == 0 then 0 else |SamplesOf(value, polls[p - 1])|
      invariant DeliveredWell(value, polls[..p], delivered)
    {
      if p > 0 { SamplesGrow(value, polls[p - 1], polls[p]); }
      FlushKeepsDelivery(value, polls, p, delivered);
      var news, count := Flush(value, polls[p], emitted);
      delivered, emitted := delivered + news, count;
    }
    assert polls[..|polls|] == polls;
  }

  lemma NowFirstSeen(value: Reader, polls: seq<Logs>, p: nat, i: nat)
    requires p < |polls| && i < |SamplesOf(value, polls[p])| && (p > 0 ==> |SamplesOf(value, polls[p - 1])| <= i)
    ensures FirstSeen(value, polls[..p + 1], i, SamplesOf(value, polls[p])[i])
  {
    assert polls[..p + 1][p] == polls[p];
    assert p > 0 ==> polls[..p + 1][p - 1] == polls[p - 1];
  }

  lemma StillFirstSeen(value: Reader, polls: seq<Logs>, n: nat, i: nat, s: Sample)
    requires n < |polls| && FirstSeen(value, polls[..n], i, s)
    ensures FirstSeen(value, polls[..n + 1], i, s)
  {
    var p :| 0 <= p < n && i < |SamplesOf(value, polls[..n][p])| && s == SamplesOf(value, polls[..n][p])[i]
      && (p > 0 ==> |SamplesOf(value, polls[..n][p - 1])| <= i);
    assert polls[..n + 1][p] == polls[..n][p];
    assert p > 0 ==> polls[..n + 1][p - 1] == polls[..n][p - 1];
  }

  lemma RateReadEarly(value: Reader, then_: Logs, later: Logs, i: nat)
    requires then_.iops <= later.iops && then_.bandwidth <= later.bandwidth && i < |SamplesOf(value, then_)|
    ensures i < |SamplesOf(value, later)|
    ensures SamplesOf(value, then_)[i].iops ==
      if i < |Values(value, then_.iops)| then SamplesOf(value, later)[i].iops else 0.0
  {
    SamplesGrow(value, then_, later);
    ValuesGrow(value, then_.iops, later.iops);
  }

  /** A delivered rate is the final one, unless the iops log was behind when it was delivered,
      and then it is 0. */
  lemma DeliveredRate(value: Reader, polls: seq<Logs>, i: nat, s: Sample)
    requires Grows(polls) && FirstSeen(value, polls, i, s)
    ensures polls != [] && i < |SamplesOf(value, polls[|polls| - 1])|
    ensures s.iops == SamplesOf(value, polls[|polls| - 1])[i].iops
      || (&& s.iops == 0.0
          && exists p ::
               0 <= p < |polls| && |Values(value, polls[p].iops)| <= i < |SamplesOf(value, polls[p])|)
  {
    var p :| 0 <= p < |polls| && i < |SamplesOf(value, polls[p])| && s == SamplesOf(value, polls[p])[i]
      && (p > 0 ==> |SamplesOf(value, polls[p - 1])| <= i);
    RateReadEarly(value, polls[p], polls[|polls| - 1], i);
  }
}
