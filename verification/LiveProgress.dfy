/** Live progress from the native engine to the Go callback: buckets, the progress file
    written line by line, and the tailer that polls it. */
module LiveProgress {
  import opened Options
  import opened Strings
  import opened Arithmetic
  import opened EngineRunState

  // ----- The line format -----

  /** One sample as one line of JSON. */
  datatype Codec = Codec(encode: EngineSample -> string, decode: string -> Option<EngineSample>)

  /** What the tailer relies on: an object printed by serde_json is read back by
      encoding/json, is one trimmed line, and no cut-off part of it is valid JSON. */
  ghost predicate Lawful(codec: Codec) { forall s :: LawfulAt(codec, s) }

  ghost predicate LawfulAt(codec: Codec, s: EngineSample) {
    var line := codec.encode(s);
    && codec.decode(line) == Some(s)
    && OneLine(line)
    && forall n :: 0 < n < |line| ==> Undecodable(codec, line[..n])
  }

  predicate OneLine(line: string) { line != "" && '\n' !in line && Trimmed(line) }

  predicate Undecodable(codec: Codec, text: string) { codec.decode(TrimSpace(text)) == None }

  /** The file when every sample's line has been written. */
  function Text(codec: Codec, samples: seq<EngineSample>): string {
    if samples == [] then "" else codec.encode(samples[0]) + "\n" + Text(codec, samples[1..])
  }

  /** bufio.Scanner: the last line need not be terminated, and an empty rest is no line. */
  function ScanLines(text: string): seq<string>
    decreases |text|
  {
    if text == "" then []
    else
      var i := IndexOf(text, '\n');
      if i == |text| then [text] else [text[..i]] + ScanLines(text[i + 1..])
  }

  // ----- The tailer -----

  /** The sample a line stands for, if it is one. */
  function ParseLine(codec: Codec, text: string): Option<EngineSample> {
    var line := TrimSpace(text);
    if line == "" then None else codec.decode(line)
  }

  function Decoded(codec: Codec, lines: seq<string>): seq<EngineSample>
    decreases |lines|
  {
    if lines == [] then []
    else
      var parsed := ParseLine(codec, lines[0]);
      (if parsed.None? then [] else [parsed.value]) + Decoded(codec, lines[1..])
  }

  /** The samples numbered beyond the last one delivered, each moving that mark. */
  function Newer(samples: seq<EngineSample>, emitted: nat): seq<EngineSample>
    decreases |samples|
  {
    if samples == [] then []
    else if samples[0].number <= emitted then Newer(samples[1..], emitted)
    else [samples[0]] + Newer(samples[1..], samples[0].number)
  }

  function Mark(samples: seq<EngineSample>, emitted: nat): nat
    decreases |samples|
  {
    if samples == [] then emitted else Mark(samples[1..], Max(emitted, samples[0].number))
  }

  class Tailer {
    const codec: Codec
    var emitted: nat
    /** The callback's arguments, in order. */
    var delivered: seq<EngineSample>

    constructor (codec: Codec)
      ensures this.codec == codec && emitted == 0 && delivered == []
    {
      this.codec := codec;
      emitted, delivered := 0, [];
    }

    /** drainNativeProgressFile on the text the poll reads. */
    method Drain(text: string)
      modifies this
      ensures delivered == old(delivered) + Newer(Decoded(codec, ScanLines(text)), old(emitted))
      ensures emitted == Mark(Decoded(codec, ScanLines(text)), old(emitted))
    {
      var lines := ScanLines(text);
      ghost var all := Decoded(codec, lines);
      var i := 0;
      while i < |lines|
        invariant 0 <= i <= |lines|
        invariant delivered + Newer(Decoded(codec, lines[i..]), emitted) == old(delivered) + Newer(all, old(emitted))
        invariant Mark(Decoded(codec, lines[i..]), emitted) == Mark(all, old(emitted))
      {
        assert lines[i..][1..] == lines[i + 1..];
        DecodedStep(codec, lines[i..]);
        var line := TrimSpace(lines[i]);
        i := i + 1;
        if line == "" {
          continue;
        }
        var parsed := codec.decode(line);
        if parsed.None? {
          continue;
        }
        if parsed.value.number <= emitted {
          continue;
        }
        delivered := delivered + [parsed.value];
        emitted := parsed.value.number;
      }
      assert lines[i..] == [];
    }
  }

  lemma DecodedStep(codec: Codec, lines: seq<string>)
    requires lines != []
    ensures
      var parsed := ParseLine(codec, lines[0]);
      && (parsed.None? ==> Decoded(codec, lines) == Decoded(codec, lines[1..]))
      && (parsed.Some? ==>
            && Decoded(codec, lines) != [] && Decoded(codec, lines)[0] == parsed.value
            && Decoded(codec, lines)[1..] == Decoded(codec, lines[1..]))
  {
  }

  /** How many samples a prefix of n characters holds completely; the newline after the last
      need not be there yet. */
  function Complete(codec: Codec, samples: seq<EngineSample>, n: nat): nat {
    if samples == [] || n < |codec.encode(samples[0])| then 0
    else
      var len := |codec.encode(samples[0])| + 1;
      1 + Complete(codec, samples[1..], if n < len then 0 else n - len)
  }

  /** Sample i carries number base + i + 1. */
  predicate NumberedFrom(samples: seq<EngineSample>, base: nat) {
    forall i :: 0 <= i < |samples| ==> samples[i].number == base + i + 1
  }

  lemma {:induction false} CompleteBounded(codec: Codec, samples: seq<EngineSample>, n: nat)
    ensures Complete(codec, samples, n) <= |samples|
    ensures n >= |Text(codec, samples)| ==> Complete(codec, samples, n) == |samples|
  {
    if samples != [] && n >= |codec.encode(samples[0])| {
      var len := |codec.encode(samples[0])| + 1;
      CompleteBounded(codec, samples[1..], if n < len then 0 else n - len);
    }
  }

  lemma SliceAfterLine(first: string, rest: string, n: nat)
    requires |first| < n <= |first + "\n" + rest|
    ensures
      var text := (first + "\n" + rest)[..n];
      text[..|first|] == first && text[|first|] == '\n' && text[|first| + 1..] == rest[..n - |first| - 1]
  {
  }

  /** The lines of a prefix of the file, first line first. */
  lemma PrefixLines(codec: Codec, samples: seq<EngineSample>, n: nat)
    requires samples != [] && LawfulAt(codec, samples[0]) && n <= |Text(codec, samples)|
    ensures
      var first := codec.encode(samples[0]);
      ScanLines(Text(codec, samples)[..n]) ==
        if n == 0 then []
        else if n <= |first| then [first[..n]]
        else [first] + ScanLines(Text(codec, samples[1..])[..n - |first| - 1])
  {
    var first := codec.encode(samples[0]);
    var text := Text(codec, samples)[..n];
    if 0 < n <= |first| {
      assert text == first[..n];
      IndexOfIs(text, '\n', n);
    } else if n > |first| {
      SliceAfterLine(first, Text(codec, samples[1..]), n);
      assert forall j :: 0 <= j < |first| ==> text[j] == text[..|first|][j];
      IndexOfIs(text, '\n', |first|);
    }
  }

  lemma DecodeWhole(codec: Codec, s: EngineSample, rest: seq<string>)
    requires LawfulAt(codec, s)
    ensures Decoded(codec, [codec.encode(s)] + rest) == [s] + Decoded(codec, rest)
  {
    TrimmedFixed(codec.encode(s));
    assert ([codec.encode(s)] + rest)[1..] == rest;
  }

  lemma DecodeCut(codec: Codec, s: EngineSample, n: nat)
    requires LawfulAt(codec, s) && 0 < n < |codec.encode(s)|
    ensures Decoded(codec, [codec.encode(s)[..n]]) == []
  {
    assert Undecodable(codec, codec.encode(s)[..n]);
    assert [codec.encode(s)[..n]][1..] == [];
  }

  /** A prefix of the file decodes to the samples it holds completely. */
  lemma {:induction false} PrefixDecodes(codec: Codec, samples: seq<EngineSample>, n: nat)
    requires Lawful(codec) && n <= |Text(codec, samples)|
    ensures Complete(codec, samples, n) <= |samples|
    ensures Decoded(codec, ScanLines(Text(codec, samples)[..n])) == samples[..Complete(codec, samples, n)]
    decreases |samples|
  {
    CompleteBounded(codec, samples, n);
    if samples == [] || n < |codec.encode(samples[0])| {
      CutPrefixDecodes(codec, samples, n);
    } else {
      var first := codec.encode(samples[0]);
      var m := if n == |first| then 0 else n - |first| - 1;
      PrefixDecodes(codec, samples[1..], m);
      WholePrefixDecodes(codec, samples, n, m);
    }
  }

  lemma CutPrefixDecodes(codec: Codec, samples: seq<EngineSample>, n: nat)
    requires Lawful(codec) && n <= |Text(codec, samples)|
    requires samples == [] || n < |codec.encode(samples[0])|
    ensures Decoded(codec, ScanLines(Text(codec, samples)[..n])) == []
  {
    if samples != [] {
      assert LawfulAt(codec, samples[0]);
      PrefixLines(codec, samples, n);
      if n > 0 { DecodeCut(codec, samples[0], n); }
    }
  }

  /** The lines after the first. */
  function RestLines(codec: Codec, samples: seq<EngineSample>, m: nat): seq<string>
    requires samples != [] && m <= |Text(codec, samples[1..])|
  {
    ScanLines(Text(codec, samples[1..])[..m])
  }

  lemma WholePrefixLines(codec: Codec, samples: seq<EngineSample>, n: nat, m: nat)
    requires samples != [] && LawfulAt(codec, samples[0])
    requires |codec.encode(samples[0])| <= n <= |Text(codec, samples)|
    requires m == (if n == |codec.encode(samples[0])| then 0 else n - |codec.encode(samples[0])| - 1)
    ensures m <= |Text(codec, samples[1..])|
    ensures ScanLines(Text(codec, samples)[..n]) == [codec.encode(samples[0])] + RestLines(codec, samples, m)
  {
    var first := codec.encode(samples[0]);
    PrefixLines(codec, samples, n);
    if n == |first| { NoRest(codec, samples, first); }
  }

  lemma WholePrefixDecodes(codec: Codec, samples: seq<EngineSample>, n: nat, m: nat)
    requires Lawful(codec) && samples != [] && |codec.encode(samples[0])| <= n <= |Text(codec, samples)|
    requires m == (if n == |codec.encode(samples[0])| then 0 else n - |codec.encode(samples[0])| - 1)
    requires Complete(codec, samples[1..], m) <= |samples[1..]|
    requires
      Decoded(codec, ScanLines(Text(codec, samples[1..])[..m])) ==
      samples[1..][..Complete(codec, samples[1..], m)]
    ensures Complete(codec, samples, n) <= |samples|
    ensures Decoded(codec, ScanLines(Text(codec, samples)[..n])) == samples[..Complete(codec, samples, n)]
  {
    assert LawfulAt(codec, samples[0]);
    var q := Complete(codec, samples[1..], m);
    assert Complete(codec, samples, n) == 1 + q;
    assert samples[..1 + q] == [samples[0]] + samples[1..][..q];
    WholePrefixLines(codec, samples, n, m);
    DecodeWhole(codec, samples[0], RestLines(codec, samples, m));
  }

  lemma NoRest(codec: Codec, samples: seq<EngineSample>, first: string)
    requires samples != []
    ensures first[..|first|] == first && [first] + ScanLines(Text(codec, samples[1..])[..0]) == [first]
  {
    assert Text(codec, samples[1..])[..0] == "";
  }

  /** Of consecutively numbered samples exactly those after the mark are delivered. */
  lemma {:induction false} NewerOfNumbered(samples: seq<EngineSample>, base: nat, emitted: nat)
    requires NumberedFrom(samples, base)
    ensures
      Newer(samples, emitted) ==
        if emitted <= base then samples
        else if emitted < base + |samples| then samples[emitted - base..]
        else []
    ensures Mark(samples, emitted) == (if samples == [] then emitted else Max(base + |samples|, emitted))
    decreases |samples|
  {
    if samples != [] {
      assert samples[0].number == base + 1;
      NumberedTail(samples, base);
      if emitted <= base {
        NewerOfNumbered(samples[1..], base + 1, base + 1);
        assert samples == [samples[0]] + samples[1..];
      } else {
        NewerOfNumbered(samples[1..], base + 1, emitted);
        if emitted < base + |samples| {
          assert samples[1..][emitted - base - 1..] == samples[emitted - base..];
        }
      }
    }
  }

  lemma NumberedTail(samples: seq<EngineSample>, base: nat)
    requires NumberedFrom(samples, base) && samples != []
    ensures NumberedFrom(samples[1..], base + 1)
  {
  }

  // ----- The writer -----

  /** The samples one flush appends: from the mark up to the first empty bucket. */
  function Flushed(buckets: seq<nat>, bs: nat, emitted: nat): seq<EngineSample>
    decreases |buckets| - emitted
  {
    if emitted < |buckets| && buckets[emitted] > 0 then
      [SampleOf(buckets, bs, emitted)] + Flushed(buckets, bs, emitted + 1)
    else []
  }

  /** The samples of the buckets from a up to b. */
  function SamplesBetween(buckets: seq<nat>, bs: nat, a: nat, b: nat): (samples: seq<EngineSample>)
    requires a <= b && (a < b ==> b <= |buckets|)
    ensures |samples| == b - a && forall k :: 0 <= k < b - a ==> samples[k] == SampleOf(buckets, bs, a + k)
    decreases b
  {
    if a == b then [] else SamplesBetween(buckets, bs, a, b - 1) + [SampleOf(buckets, bs, b - 1)]
  }

  lemma {:induction false} FlushedBetween(buckets: seq<nat>, bs: nat, a: nat, b: nat)
    requires a <= b && (a < b ==> b <= |buckets|) && (forall i :: a <= i < b ==> buckets[i] > 0)
    requires b >= |buckets| || buckets[b] == 0
    ensures Flushed(buckets, bs, a) == SamplesBetween(buckets, bs, a, b)
    decreases b - a
  {
    if a < b {
      FlushedBetween(buckets, bs, a + 1, b);
      assert SamplesBetween(buckets, bs, a, b) == [SampleOf(buckets, bs, a)] + SamplesBetween(buckets, bs, a + 1, b);
    }
  }

  class ProgressWriter {
    const bs: nat
    var emitted: nat
    /** The samples whose lines were appended to the file. */
    var written: seq<EngineSample>

    constructor (bs: nat)
      ensures this.bs == bs && emitted == 0 && written == []
    {
      this.bs := bs;
      emitted, written := 0, [];
    }

    /** flush_progress while the workers keep counting: loaded is what each bucket holds when it
        is loaded, and for the others at the end. */
    method FlushProgress(bucketOps: array<nat>) returns (ghost loaded: seq<nat>)
      modifies this, bucketOps
      ensures |loaded| == bucketOps.Length
      ensures forall i :: 0 <= i < |loaded| ==> old(bucketOps[i]) <= loaded[i] <= bucketOps[i]
      ensures written == old(written) + Flushed(loaded, bs, old(emitted))
      ensures emitted == old(emitted) + |Flushed(loaded, bs, old(emitted))|
    {
      var i := emitted;
      loaded := bucketOps[..];
      while i < bucketOps.Length
        invariant old(emitted) <= i == emitted && (old(emitted) < i ==> i <= bucketOps.Length)
        invariant |loaded| == bucketOps.Length
        invariant forall j :: 0 <= j < |loaded| ==> old(bucketOps[j]) <= loaded[j] <= bucketOps[j]
        invariant forall j :: old(emitted) <= j < i ==> loaded[j] > 0
        invariant written == old(written) + SamplesBetween(loaded, bs, old(emitted), i)
      {
        WorkersCount(bucketOps);
        ghost var before := loaded;
        var n := bucketOps[i];
        loaded := loaded[i := n];
        assert SamplesBetween(loaded, bs, old(emitted), i) == SamplesBetween(before, bs, old(emitted), i);
        if n == 0 {
          break;
        }
        written := written + [EngineSample(i + 1, n, bs)];
        emitted := i + 1;
        i := i + 1;
      }
      FlushedBetween(loaded, bs, old(emitted), i);
    }
  }

  /** Any number of operations is counted, in any seconds. */
  method WorkersCount(bucketOps: array<nat>)
    modifies bucketOps
    ensures forall i :: 0 <= i < bucketOps.Length ==> old(bucketOps[i]) <= bucketOps[i]
  {
    for i := 0 to bucketOps.Length
      invariant forall j :: 0 <= j < bucketOps.Length ==> old(bucketOps[j]) <= bucketOps[j]
    {
      var more: nat :| more >= 0;
      bucketOps[i] := bucketOps[i] + more;
    }
  }

  // ----- Workers, writer and tailer together -----

  /** filed is how many characters of the text have reached the file. */
  datatype State = State(
    buckets: seq<nat>, written: seq<EngineSample>, filed: nat, emitted: nat, delivered: seq<EngineSample>)

  /** A worker counts an operation in a second; the writer loads the bucket at its mark,
      and appends its sample if the line before is complete; more characters reach the
      file; the tailer reads any prefix of the file. */
  datatype Event = Record(second: nat) | Load | Grow(chars: nat) | Poll(chars: nat)

  function Step(codec: Codec, bs: nat, s: State, e: Event): State {
    match e
    case Record(i) => if i < |s.buckets| then s.(buckets := s.buckets[i := s.buckets[i] + 1]) else s
    case Load =>
      var i := |s.written|;
      if i < |s.buckets| && s.buckets[i] > 0 && s.filed == |Text(codec, s.written)| then
        s.(written := s.written + [SampleOf(s.buckets, bs, i)])
      else s
    case Grow(n) => s.(filed := Min(s.filed + n, |Text(codec, s.written)|))
    case Poll(n) =>
      var text := Text(codec, s.written);
      var decoded := Decoded(codec, ScanLines(text[..Min(n, Min(s.filed, |text|))]));
      s.(delivered := s.delivered + Newer(decoded, s.emitted), emitted := Mark(decoded, s.emitted))
  }

  function Run(codec: Codec, bs: nat, s: State, es: seq<Event>): State
    decreases |es|
  {
    if es == [] then s else Run(codec, bs, Step(codec, bs, s, es[0]), es[1..])
  }

  function Start(buckets: nat): State { State(seq(buckets, _ => 0), [], 0, 0, []) }

  /** How often the workers counted in second i. */
  function CountedIn(es: seq<Event>, i: nat): nat {
    if es == [] then 0 else (if es[0] == Record(i) then 1 else 0) + CountedIn(es[1..], i)
  }

  /** The buckets hold what the workers counted, whatever else happens. */
  lemma {:induction false} BucketsCountRecords(codec: Codec, bs: nat, s: State, es: seq<Event>, i: nat)
    requires i < |s.buckets|
    ensures |Run(codec, bs, s, es).buckets| == |s.buckets|
    ensures Run(codec, bs, s, es).buckets[i] == s.buckets[i] + CountedIn(es, i)
    decreases |es|
  {
    if es != [] { BucketsCountRecords(codec, bs, Step(codec, bs, s, es[0]), es[1..], i); }
  }

  /** Sample i was taken from bucket i when that was no fuller than now. */
  predicate Sampled(sample: EngineSample, buckets: seq<nat>, bs: nat, i: nat) {
    i < |buckets| && sample.number == i + 1 && sample.bs == bs && 0 < sample.ops <= buckets[i]
  }

  predicate Inv(codec: Codec, bs: nat, s: State) {
    && (forall i :: 0 <= i < |s.written| ==> Sampled(s.written[i], s.buckets, bs, i))
    && s.filed <= |Text(codec, s.written)|
    && s.emitted <= |s.written|
    && s.delivered == s.written[..s.emitted]
  }

  lemma {:induction false} TextGrows(codec: Codec, samples: seq<EngineSample>, more: EngineSample)
    ensures |Text(codec, samples)| <= |Text(codec, samples + [more])|
  {
    if samples != [] {
      assert (samples + [more])[1..] == samples[1..] + [more];
      TextGrows(codec, samples[1..], more);
    }
  }

  lemma NumberedWhenSampled(samples: seq<EngineSample>, buckets: seq<nat>, bs: nat)
    requires forall i :: 0 <= i < |samples| ==> Sampled(samples[i], buckets, bs, i)
    ensures NumberedFrom(samples, 0)
  {
    forall i | 0 <= i < |samples| ensures samples[i].number == i + 1 {
      assert Sampled(samples[i], buckets, bs, i);
    }
  }

  /** Of samples numbered from 1, what is new is delivered after what was delivered. */
  lemma DeliverPrefix(samples: seq<EngineSample>, q: nat, emitted: nat)
    requires NumberedFrom(samples, 0) && q <= |samples| && emitted <= |samples|
    ensures samples[..emitted] + Newer(samples[..q], emitted) == samples[..Max(emitted, q)]
    ensures Mark(samples[..q], emitted) == Max(emitted, q)
  {
    assert NumberedFrom(samples[..q], 0);
    NewerOfNumbered(samples[..q], 0, emitted);
  }

  /** A poll of n characters brings the deliveries up to the samples complete in them. */
  lemma PollDelivers(codec: Codec, bs: nat, s: State, n: nat)
    requires Lawful(codec) && Inv(codec, bs, s)
    ensures
      var q := Complete(codec, s.written, Min(n, s.filed));
      var s' := Step(codec, bs, s, Poll(n));
      && q <= |s.written|
      && s'.delivered == s.written[..Max(s.emitted, q)] && s'.emitted == Max(s.emitted, q)
      && s'.written == s.written && s'.filed == s.filed && s'.buckets == s.buckets
  {
    PrefixDecodes(codec, s.written, Min(n, s.filed));
    NumberedWhenSampled(s.written, s.buckets, bs);
    DeliverPrefix(s.written, Complete(codec, s.written, Min(n, s.filed)), s.emitted);
  }

  lemma PollKeeps(codec: Codec, bs: nat, s: State, n: nat)
    requires Lawful(codec) && Inv(codec, bs, s)
    ensures Inv(codec, bs, Step(codec, bs, s, Poll(n)))
  {
    PollDelivers(codec, bs, s, n);
  }

  lemma StepKeeps(codec: Codec, bs: nat, s: State, e: Event)
    requires Lawful(codec) && Inv(codec, bs, s)
    ensures Inv(codec, bs, Step(codec, bs, s, e))
    ensures |Step(codec, bs, s, e).buckets| == |s.buckets|
  {
    match e
    case Record(i) =>
      assert forall j :: 0 <= j < |s.written| ==> Sampled(s.written[j], s.buckets, bs, j);
    case Load =>
      if |s.written| < |s.buckets| { TextGrows(codec, s.written, SampleOf(s.buckets, bs, |s.written|)); }
      assert forall j :: 0 <= j < |s.written| ==> Sampled(s.written[j], s.buckets, bs, j);
    case Grow(n) =>
    case Poll(n) => PollKeeps(codec, bs, s, n);
  }

  lemma {:induction false} RunKeeps(codec: Codec, bs: nat, s: State, es: seq<Event>)
    requires Lawful(codec) && Inv(codec, bs, s)
    ensures Inv(codec, bs, Run(codec, bs, s, es))
    ensures |Run(codec, bs, s, es).buckets| == |s.buckets|
    decreases |es|
  {
    if es != [] {
      StepKeeps(codec, bs, s, es[0]);
      RunKeeps(codec, bs, Step(codec, bs, s, es[0]), es[1..]);
    }
  }

  lemma WrittenBusy(codec: Codec, bs: nat, s: State)
    requires Inv(codec, bs, s)
    ensures |s.written| <= |s.buckets| && forall i :: 0 <= i < |s.written| ==> s.buckets[i] > 0
  {
    var k := |s.written|;
    if k > 0 { assert Sampled(s.written[k - 1], s.buckets, bs, k - 1); }
    forall i | 0 <= i < k ensures i < |s.buckets| && s.buckets[i] > 0 {
      assert Sampled(s.written[i], s.buckets, bs, i);
    }
  }

  /** Leading non-empty buckets are reported in place. */
  lemma {:induction false} LeadingIntervals(buckets: seq<nat>, bs: nat, k: nat)
    requires k <= |buckets| && forall i :: 0 <= i < k ==> buckets[i] > 0
    ensures k <= |Intervals(buckets, bs)|
    ensures k == |buckets| ==> |Intervals(buckets, bs)| == k
    ensures forall i :: 0 <= i < k ==> Intervals(buckets, bs)[i] == SampleOf(buckets, bs, i)
    decreases |buckets|
  {
    if buckets != [] {
      var n := |buckets| - 1;
      LeadingIntervals(buckets[..n], bs, if k == |buckets| then n else k);
      assert forall i :: 0 <= i < k && i < n ==> SampleOf(buckets[..n], bs, i) == SampleOf(buckets, bs, i);
    }
  }

  /** For any interleaving of workers, flushes, partial writes and polls: the callback gets
      the numbers 1, 2, 3, ... once each and in order; they are the first numbers of the
      final report's intervals; and no streamed rate exceeds the reported one. */
  lemma StreamedOnceInOrder(codec: Codec, bs: nat, buckets: nat, es: seq<Event>)
    requires Lawful(codec)
    ensures
      var s := Run(codec, bs, Start(buckets), es);
      var report := Intervals(s.buckets, bs);
      && |s.delivered| <= |report|
      && forall j :: 0 <= j < |s.delivered| ==>
           && s.delivered[j].number == j + 1 == report[j].number
           && 0 < s.delivered[j].ops <= report[j].ops
           && s.delivered[j].Iops() <= report[j].Iops() && s.delivered[j].Mbps() <= report[j].Mbps()
  {
    RunKeeps(codec, bs, Start(buckets), es);
    var s := Run(codec, bs, Start(buckets), es);
    WrittenBusy(codec, bs, s);
    LeadingIntervals(s.buckets, bs, s.emitted);
    var report := Intervals(s.buckets, bs);
    forall j | 0 <= j < |s.delivered|
      ensures s.delivered[j].Mbps() <= report[j].Mbps()
    {
      assert Sampled(s.written[j], s.buckets, bs, j);
      MbpsMonotone(s.delivered[j].ops, report[j].ops, bs);
    }
  }

  lemma MbpsMonotone(m: nat, n: nat, bs: nat)
    requires m <= n
    ensures MbpsOf(m, bs) <= MbpsOf(n, bs)
  {
    assert m * bs <= n * bs by { assert (n - m) * bs >= 0; assert n * bs == m * bs + (n - m) * bs; }
  }

  /** After a flush that nothing interrupts. */
  function AfterFlush(codec: Codec, bs: nat, s: State): State {
    var written := s.written + Flushed(s.buckets, bs, |s.written|);
    s.(written := written, filed := |Text(codec, written)|)
  }

  function Leading(buckets: seq<nat>): nat {
    if buckets == [] || buckets[0] == 0 then 0 else 1 + Leading(buckets[1..])
  }

  lemma {:induction false} LeadingIs(buckets: seq<nat>, k: nat)
    requires k <= |buckets| && (forall i :: 0 <= i < k ==> buckets[i] > 0) && (k < |buckets| ==> buckets[k] == 0)
    ensures Leading(buckets) == k
  {
    if k > 0 { LeadingIs(buckets[1..], k - 1); }
  }

  /** A flush is a row of loads with anything between them; it ends when the lines are in the file
      and the next load finds an empty bucket or none. */
  predicate FlushEnds(codec: Codec, s: State) {
    s.filed == |Text(codec, s.written)| && (|s.written| >= |s.buckets| || s.buckets[|s.written|] == 0)
  }

  lemma LoadEndsFlushIff(codec: Codec, bs: nat, s: State)
    requires s.filed == |Text(codec, s.written)|
    ensures Step(codec, bs, s, Load) == s <==> FlushEnds(codec, s)
  {
    if !FlushEnds(codec, s) { assert |Step(codec, bs, s, Load).written| == |s.written| + 1; }
  }

  lemma RunTwo(codec: Codec, bs: nat, s: State, a: Event, b: Event, rest: seq<Event>)
    ensures Run(codec, bs, s, [a, b] + rest) == Run(codec, bs, Step(codec, bs, Step(codec, bs, s, a), b), rest)
    ensures Run(codec, bs, s, [a]) == Step(codec, bs, s, a)
  {
    assert ([a, b] + rest)[1..] == [b] + rest && ([b] + rest)[1..] == rest && [a][1..] == [];
    assert Run(codec, bs, s, [a]) == Run(codec, bs, Step(codec, bs, s, a), []);
  }

  /** A flush that nothing interrupts appends what the writer's method appends. */
  lemma {:induction false} FlushRuns(codec: Codec, bs: nat, s: State) returns (es: seq<Event>)
    ensures forall i :: 0 <= i < |es| ==> es[i].Load? || es[i].Grow?
    ensures Run(codec, bs, s, es) == AfterFlush(codec, bs, s) && FlushEnds(codec, AfterFlush(codec, bs, s))
    decreases |s.buckets| - |s.written|
  {
    var k := |s.written|;
    var grow := Grow(|Text(codec, s.written)|);
    var filed := Step(codec, bs, s, grow);
    if k < |s.buckets| && s.buckets[k] > 0 {
      var loaded := Step(codec, bs, filed, Load);
      var rest := FlushRuns(codec, bs, loaded);
      es := [grow, Load] + rest;
      RunTwo(codec, bs, s, grow, Load, rest);
      assert s.written + Flushed(s.buckets, bs, k) == loaded.written + Flushed(s.buckets, bs, k + 1);
    } else {
      es := [grow];
      RunTwo(codec, bs, s, grow, Load, []);
      assert s.written + Flushed(s.buckets, bs, k) == s.written;
    }
  }

  /** No flush: workers count and the tailer polls. */
  predicate Unflushed(es: seq<Event>) { forall i :: 0 <= i < |es| ==> es[i].Record? || es[i].Poll? }

  lemma {:induction false} UnflushedKeepsFile(codec: Codec, bs: nat, s: State, es: seq<Event>)
    requires Unflushed(es)
    ensures Run(codec, bs, s, es).written == s.written && Run(codec, bs, s, es).filed == s.filed
    decreases |es|
  {
    if es != [] { UnflushedKeepsFile(codec, bs, Step(codec, bs, s, es[0]), es[1..]); }
  }

  /** es runs to the end of the last flush, its loads interleaved with workers and polls. Whatever is
      counted and polled later, the last poll leaves the callback with exactly the seconds before the
      one that the flush found empty: the whole report if and only if no second from there on is
      ever counted in. */
  lemma LastPollDelivers(codec: Codec, bs: nat, buckets: nat, es: seq<Event>, late: seq<Event>)
    requires Lawful(codec) && Unflushed(late) && FlushEnds(codec, Run(codec, bs, Start(buckets), es))
    ensures
      var s := Run(codec, bs, Start(buckets), es);
      var after := Run(codec, bs, s, late);
      var last := Step(codec, bs, after, Poll(after.filed));
      && |last.delivered| == |s.written| == Leading(s.buckets) <= |after.buckets|
      && (|last.delivered| == |Intervals(after.buckets, bs)| <==>
            forall i :: |s.written| <= i < |after.buckets| ==> after.buckets[i] == 0)
  {
    RunKeeps(codec, bs, Start(buckets), es);
    var s := Run(codec, bs, Start(buckets), es);
    WrittenBusy(codec, bs, s);
    LeadingIs(s.buckets, |s.written|);
    RunKeeps(codec, bs, s, late);
    UnflushedKeepsFile(codec, bs, s, late);
    var after := Run(codec, bs, s, late);
    CompleteBounded(codec, after.written, after.filed);
    PollDelivers(codec, bs, after, after.filed);
    WrittenBusy(codec, bs, after);
    ReportLength(after.buckets, bs, |after.written|);
  }

  lemma {:induction false} ReportLength(buckets: seq<nat>, bs: nat, k: nat)
    requires k <= |buckets| && forall i :: 0 <= i < k ==> buckets[i] > 0
    ensures |Intervals(buckets, bs)| >= k
    ensures |Intervals(buckets, bs)| == k <==> forall i :: k <= i < |buckets| ==> buckets[i] == 0
    decreases |buckets|
  {
    if k < |buckets| {
      var n := |buckets| - 1;
      ReportLength(buckets[..n], bs, k);
      assert forall i :: k <= i < n ==> buckets[..n][i] == buckets[i];
    } else {
      LeadingIntervals(buckets, bs, k);
    }
  }
}
