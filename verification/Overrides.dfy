/** Overriding the parameters of a profile and keeping their alias spellings together. */
module Overrides {
  import opened Options
  import opened Sequences
  import opened Strings
  import opened Decimals

  /** The parameter names the code treats specially; every other name is Other. */
  datatype Key =
    | DurationSec | Runtime | RampTimeSec | RampTime | BlockSize | Bs | Threads | NumJobs
    | QueueDepth | IoDepth | ObjectSize | ObjectSizeMin | ObjectSizeMax | RwMixRead | Size
    | Other(text: string)

  /** Any stands for the values of other types, by what is printed for them. */
  datatype Value = Nil | Text(s: string) | Whole(i: int) | Any(printed: string)

  type Params = map<Key, Value>

  // ----- Names -----

  function Cleaned(name: string): string { ToLower(TrimSpace(name)) }

  /** The names that are rewritten. */
  function Renamed(c: string): Option<Key> {
    OrElse(RenamedTime(c), OrElse(RenamedBlock(c), RenamedObject(c)))
  }

  function RenamedTime(c: string): Option<Key> {
    if c == "duration" || c == "duration_seconds" then Some(DurationSec)
    else if c == "runtime_sec" || c == "runtime_seconds" then Some(Runtime)
    else if c == "ramp" || c == "warmup" || c == "warmup_sec" then Some(RampTime)
    else if c == "threads" || c == "jobs" then Some(NumJobs)
    else if c == "queue_depth" || c == "qd" then Some(IoDepth)
    else None
  }

  function RenamedBlock(c: string): Option<Key> {
    if c == "blocksize" || c == "block_size_bytes" then Some(Bs)
    else if c == "read_write_mix" || c == "read_pct" then Some(RwMixRead)
    else if c == "dataset" || c == "dataset_size" then Some(Size)
    else None
  }

  function RenamedObject(c: string): Option<Key> {
    if c == "objectsize" || c == "obj_size" then Some(ObjectSize)
    else if c == "obj_size_min" then Some(ObjectSizeMin)
    else if c == "obj_size_max" then Some(ObjectSizeMax)
    else None
  }

  function KeyOf(c: string): Key {
    if c == "duration_sec" then DurationSec
    else if c == "runtime" then Runtime
    else if c == "ramp_time_sec" then RampTimeSec
    else if c == "ramp_time" then RampTime
    else if c == "block_size" then BlockSize
    else if c == "bs" then Bs
    else if c == "threads" then Threads
    else if c == "numjobs" then NumJobs
    else if c == "queue_depth" then QueueDepth
    else if c == "iodepth" then IoDepth
    else if c == "object_size" then ObjectSize
    else if c == "object_size_min" then ObjectSizeMin
    else if c == "object_size_max" then ObjectSizeMax
    else if c == "rwmixread" then RwMixRead
    else if c == "size" then Size
    else Other(c)
  }

  function NormalizeParamKey(name: string): Key {
    match Renamed(Cleaned(name))
    case Some(k) => k
    case None => KeyOf(Cleaned(name))
  }

  /** How a parameter is spelled. */
  function Spelling(k: Key): string {
    match k
    case DurationSec => "duration_sec"
    case Runtime => "runtime"
    case RampTimeSec => "ramp_time_sec"
    case RampTime => "ramp_time"
    case BlockSize => "block_size"
    case Bs => "bs"
    case Threads => "threads"
    case NumJobs => "numjobs"
    case QueueDepth => "queue_depth"
    case IoDepth => "iodepth"
    case ObjectSize => "object_size"
    case ObjectSizeMin => "object_size_min"
    case ObjectSizeMax => "object_size_max"
    case RwMixRead => "rwmixread"
    case Size => "size"
    case Other(text) => text
  }

  /** The names that stand for another one. */
  predicate StandsFor(c: string, canonical: string) {
    match canonical
    case "duration_sec" => c == "duration" || c == "duration_seconds"
    case "runtime" => c == "runtime_sec" || c == "runtime_seconds"
    case "ramp_time" => c == "ramp" || c == "warmup" || c == "warmup_sec"
    case "bs" => c == "blocksize" || c == "block_size_bytes"
    case "numjobs" => c == "threads" || c == "jobs"
    case "iodepth" => c == "queue_depth" || c == "qd"
    case "rwmixread" => c == "read_write_mix" || c == "read_pct"
    case "size" => c == "dataset" || c == "dataset_size"
    case "object_size" => c == "objectsize" || c == "obj_size"
    case "object_size_min" => c == "obj_size_min"
    case "object_size_max" => c == "obj_size_max"
    case _ => false
  }

  lemma KeySpelled(c: string)
    ensures Spelling(KeyOf(c)) == c
  {
    match KeyOf(c)
    case Other(_) =>
    case _ =>
  }

  lemma TimeSpelled(c: string)
    ensures RenamedTime(c).Some? ==> StandsFor(c, Spelling(RenamedTime(c).value))
  {
  }

  lemma BlockSpelled(c: string)
    ensures RenamedBlock(c).Some? ==> StandsFor(c, Spelling(RenamedBlock(c).value))
    ensures RenamedObject(c).Some? ==> StandsFor(c, Spelling(RenamedObject(c).value))
  {
  }

  lemma RenamedSpelled(c: string)
    ensures Renamed(c).Some? ==> StandsFor(c, Spelling(Renamed(c).value))
  {
    hide RenamedTime, RenamedBlock, RenamedObject, StandsFor, Spelling;
    TimeSpelled(c);
    BlockSpelled(c);
  }

  lemma StandingRenamed(c: string, canonical: string)
    requires StandsFor(c, canonical)
    ensures Renamed(c).Some? && Spelling(Renamed(c).value) == canonical
  {
  }

  /** An override is written under the trimmed lower-case name, unless that stands for another one,
      which is written instead. */
  lemma WrittenUnder(name: string)
    ensures
      var c, written := ToLower(TrimSpace(name)), Spelling(NormalizeParamKey(name));
      && (forall canonical :: StandsFor(c, canonical) ==> written == canonical)
      && ((forall canonical :: !StandsFor(c, canonical)) ==> written == c)
  {
    hide ToLower, TrimSpace, KeyOf, Renamed, StandsFor, Spelling;
    var c := Cleaned(name);
    KeySpelled(c);
    RenamedSpelled(c);
    forall canonical | StandsFor(c, canonical) { StandingRenamed(c, canonical); }
  }

  // ----- Aliases -----

  function FormatAny(v: Value): string {
    match v
    case Nil => "<nil>"
    case Text(s) => s
    case Whole(i) => Decimal(i)
    case Any(printed) => printed
  }

  function Lookup(m: Params, k: Key): Option<Value> { if k in m then Some(m[k]) else None }

  function OrElse<T>(a: Option<T>, b: Option<T>): Option<T> { if a.Some? then a else b }

  /** The size or size range that the bounds describe, if there is a bound. */
  function SizeRange(min: Option<Value>, max: Option<Value>): Option<Value> {
    if min.Some? && max.Some? then Some(Text(FormatAny(min.value) + "-" + FormatAny(max.value)))
    else if min.Some? then Some(Text(FormatAny(min.value)))
    else if max.Some? then Some(Text(FormatAny(max.value)))
    else None
  }

  /** What a parameter is to be after synchronization: its own value, or that of its alias;
      the duration wins over the runtime, size bounds over the size. */
  function Meaning(m: Params, k: Key): Option<Value> {
    match k
    case DurationSec => OrElse(Lookup(m, DurationSec), Lookup(m, Runtime))
    case Runtime => OrElse(Lookup(m, DurationSec), Lookup(m, Runtime))
    case RampTime => OrElse(Lookup(m, RampTime), Lookup(m, RampTimeSec))
    case Bs => OrElse(Lookup(m, Bs), Lookup(m, BlockSize))
    case BlockSize => OrElse(Lookup(m, BlockSize), Lookup(m, Bs))
    case NumJobs => OrElse(Lookup(m, NumJobs), Lookup(m, Threads))
    case Threads => OrElse(Lookup(m, Threads), Lookup(m, NumJobs))
    case IoDepth => OrElse(Lookup(m, IoDepth), Lookup(m, QueueDepth))
    case ObjectSize => OrElse(SizeRange(Lookup(m, ObjectSizeMin), Lookup(m, ObjectSizeMax)), Lookup(m, ObjectSize))
    case _ => Lookup(m, k)
  }

  // The steps of synchronization.

  function Filled(m: Params, from: Key, to: Key): Params {
    if from in m && to !in m then m[to := m[from]] else m
  }

  lemma FilledLookup(m: Params, from: Key, to: Key, k: Key)
    ensures Lookup(Filled(m, from, to), k) == if k == to then OrElse(Lookup(m, to), Lookup(m, from)) else Lookup(m, k)
  {
  }

  ghost predicate Fills(m: Params, out: Params, from: Key, to: Key) {
    forall k :: Lookup(out, k) == if k == to then OrElse(Lookup(m, to), Lookup(m, from)) else Lookup(m, k)
  }

  ghost predicate SyncsDuration(m: Params, out: Params) {
    forall k :: Lookup(out, k) ==
      (if k == DurationSec || k == Runtime then OrElse(Lookup(m, DurationSec), Lookup(m, Runtime)) else Lookup(m, k))
  }

  ghost predicate SyncsSize(m: Params, out: Params) {
    forall k :: Lookup(out, k) ==
      (if k == ObjectSize
       then OrElse(SizeRange(Lookup(m, ObjectSizeMin), Lookup(m, ObjectSizeMax)), Lookup(m, ObjectSize))
       else Lookup(m, k))
  }

  lemma FilledFills(m: Params, from: Key, to: Key)
    ensures Fills(m, Filled(m, from, to), from, to)
  {
    forall k { FilledLookup(m, from, to, k); }
  }

  lemma FirstSteps(m0: Params, m1: Params, m2: Params, m3: Params, m4: Params, k: Key)
    requires SyncsDuration(m0, m1) && Fills(m1, m2, RampTimeSec, RampTime)
    requires Fills(m2, m3, BlockSize, Bs) && Fills(m3, m4, Bs, BlockSize)
    ensures Lookup(m4, k) ==
      if k == ObjectSize || k == NumJobs || k == Threads || k == IoDepth then Lookup(m0, k) else Meaning(m0, k)
  {
  }

  /** All steps but the last. */
  lemma AliasSteps(m0: Params, m4: Params, m5: Params, m6: Params, m7: Params, k: Key)
    requires forall x ::
      Lookup(m4, x) ==
      if x == ObjectSize || x == NumJobs || x == Threads || x == IoDepth then Lookup(m0, x) else Meaning(m0, x)
    requires Fills(m4, m5, Threads, NumJobs) && Fills(m5, m6, NumJobs, Threads)
    requires Fills(m6, m7, QueueDepth, IoDepth)
    ensures Lookup(m7, k) == if k == ObjectSize then Lookup(m0, k) else Meaning(m0, k)
  {
  }

  lemma StepsSync(m: Params, aliased: Params, out: Params)
    requires forall k :: Lookup(aliased, k) == if k == ObjectSize then Lookup(m, k) else Meaning(m, k)
    requires SyncsSize(aliased, out)
    ensures Synced(m, out)
  {
    forall k ensures Lookup(out, k) == Meaning(m, k) {}
  }

  ghost predicate Synced(m: Params, out: Params) { forall k :: Lookup(out, k) == Meaning(m, k) }

  const ALIAS_KEYS := {DurationSec, Runtime, RampTime, Bs, BlockSize, NumJobs, Threads, IoDepth, ObjectSize}

  function Sync(m: Params): Params {
    map k | k in m.Keys + ALIAS_KEYS && Meaning(m, k).Some? :: Meaning(m, k).value
  }

  lemma SyncIsSynced(m: Params)
    ensures Synced(m, Sync(m))
  {
    forall k ensures Lookup(Sync(m), k) == Meaning(m, k) {}
  }

  lemma SyncedUnique(m: Params, a: Params, b: Params)
    requires Synced(m, a) && Synced(m, b)
    ensures a == b
  {
    forall k ensures (k in a <==> k in b) && (k in a ==> a[k] == b[k]) {
      assert Lookup(a, k) == Meaning(m, k) == Lookup(b, k);
    }
  }

  /** How a value is printed. */
  predicate PrintsAs(v: Value, text: string) {
    && (v.Nil? ==> text == "<nil>") && (v.Text? ==> text == v.s) && (v.Any? ==> text == v.printed)
    && (v.Whole? && v.i >= 0 ==> text == Digits(v.i)) && (v.Whole? && v.i < 0 ==> text == "-" + Digits(-v.i))
  }

  /** With bounds the object size becomes the printed range, or the one bound there is; without any
      it stays. */
  lemma ObjectSizeFromBounds(m: Params, min: string, max: string)
    requires ObjectSizeMin in m ==> PrintsAs(m[ObjectSizeMin], min)
    requires ObjectSizeMax in m ==> PrintsAs(m[ObjectSizeMax], max)
    ensures
      Lookup(Sync(m), ObjectSize) ==
      if ObjectSizeMin in m && ObjectSizeMax in m then Some(Text(min + "-" + max))
      else if ObjectSizeMin in m then Some(Text(min))
      else if ObjectSizeMax in m then Some(Text(max))
      else Lookup(m, ObjectSize)
  {
    SyncIsSynced(m);
    assert Lookup(Sync(m), ObjectSize) == Meaning(m, ObjectSize);
    if ObjectSizeMin in m { PrintedOnce(m[ObjectSizeMin], min); }
    if ObjectSizeMax in m { PrintedOnce(m[ObjectSizeMax], max); }
  }

  lemma PrintedOnce(v: Value, text: string)
    requires PrintsAs(v, text)
    ensures FormatAny(v) == text
  {
  }

  class Profile {
    var name: string
    var engine: string
    var params: Params

    constructor (name: string, engine: string, params: Params)
      ensures this.name == name && this.engine == engine && this.params == params
    {
      this.name, this.engine, this.params := name, engine, params;
    }

    /** Copying entry by entry, in any order. */
    method Clone() returns (c: Profile)
      ensures fresh(c) && c.name == name && c.engine == engine && c.params == params
    {
      var copied: Params := map[];
      var left := params.Keys;
      while left != {}
        invariant left <= params.Keys && copied.Keys == params.Keys - left
        invariant forall k :: k in copied ==> copied[k] == params[k]
        decreases |left|
      {
        var k :| k in left;
        copied := copied[k := params[k]];
        left := left - {k};
      }
      c := new Profile(name, engine, copied);
    }

    /** If `to` is missing, it takes the value of `from`. */
    method Fill(from: Key, to: Key)
      modifies `params
      ensures Fills(old(params), params, from, to)
    {
      FilledFills(params, from, to);
      if from in params {
        if to !in params {
          params := params[to := params[from]];
        }
      }
    }

    method SyncDuration()
      modifies `params
      ensures SyncsDuration(old(params), params)
    {
      if DurationSec in params {
        params := params[Runtime := params[DurationSec]];
      } else if Runtime in params {
        params := params[DurationSec := params[Runtime]];
      }
    }

    method SyncObjectSize()
      modifies `params
      ensures SyncsSize(old(params), params)
    {
      if ObjectSizeMin in params && ObjectSizeMax in params {
        params := params[ObjectSize := Text(FormatAny(params[ObjectSizeMin]) + "-" + FormatAny(params[ObjectSizeMax]))];
      } else if ObjectSizeMin in params {
        params := params[ObjectSize := Text(FormatAny(params[ObjectSizeMin]))];
      } else if ObjectSizeMax in params {
        params := params[ObjectSize := Text(FormatAny(params[ObjectSizeMax]))];
      }
    }

    method SyncParamAliases()
      modifies `params
      ensures params == Sync(old(params))
    {
      ghost var m0 := params;
      SyncDuration();
      ghost var m1 := params;
      Fill(RampTimeSec, RampTime);
      ghost var m2 := params;
      Fill(BlockSize, Bs);
      ghost var m3 := params;
      Fill(Bs, BlockSize);
      ghost var m4 := params;
      Fill(Threads, NumJobs);
      ghost var m5 := params;
      Fill(NumJobs, Threads);
      ghost var m6 := params;
      Fill(QueueDepth, IoDepth);
      ghost var m7 := params;
      SyncObjectSize();
      forall k { FirstSteps(m0, m1, m2, m3, m4, k); }
      forall k { AliasSteps(m0, m4, m5, m6, m7, k); }
      StepsSync(m0, m7, params);
      SyncIsSynced(m0);
      SyncedUnique(m0, params, Sync(m0));
    }

    /** The overrides arrive in the order in which the map happens to be visited. */
    method ApplyOverrides(overrides: map<string, Value>) returns (ghost order: seq<string>)
      modifies `params
      ensures Visits(order, overrides)
      ensures overrides == map[] ==> params == old(params)
      ensures overrides != map[] ==> params == Sync(Written(NormalizeParamKey, old(params), overrides, order))
    {
      order := [];
      if |overrides| == 0 {
        return;
      }
      var left := overrides.Keys;
      while left != {}
        invariant left <= overrides.Keys
        invariant Distinct(order) && forall name :: name in order <==> name in overrides.Keys - left
        invariant params == Written(NormalizeParamKey, old(params), overrides, order)
        decreases |left|
      {
        var name :| name in left;
        WrittenNext(NormalizeParamKey, old(params), overrides, order, name);
        DistinctAppend(order, name);
        order := order + [name];
        left := left - {name};
        if overrides[name] == Nil {
          continue;
        }
        params := params[NormalizeParamKey(name) := overrides[name]];
      }
      SyncParamAliases();
    }
  }

  /** A possible order of visiting the map. */
  ghost predicate Visits(order: seq<string>, overrides: map<string, Value>) {
    Distinct(order) && forall name :: name in order <==> name in overrides
  }

  /** The parameters after writing the non-nil overrides in this order, under normalized names. */
  function Written(norm: string -> Key, m: Params, overrides: map<string, Value>, order: seq<string>): Params
    requires forall name :: name in order ==> name in overrides
    decreases |order|
  {
    if order == [] then m
    else
      var before, name := Written(norm, m, overrides, order[..|order| - 1]), order[|order| - 1];
      if overrides[name] == Nil then before else before[norm(name) := overrides[name]]
  }

  lemma WrittenNext(norm: string -> Key, m: Params, overrides: map<string, Value>, order: seq<string>, name: string)
    requires (forall x :: x in order ==> x in overrides) && name in overrides
    ensures Written(norm, m, overrides, order + [name]) ==
      if overrides[name] == Nil then Written(norm, m, overrides, order)
      else Written(norm, m, overrides, order)[norm(name) := overrides[name]]
  {
    assert (order + [name])[..|order|] == order;
  }

  // ----- What synchronization achieves -----

  /** The spellings of a parameter agree. */
  predicate AliasesAgree(m: Params) {
    && Lookup(m, DurationSec) == Lookup(m, Runtime)
    && (Bs in m <==> BlockSize in m)
    && (NumJobs in m <==> Threads in m)
    && (RampTimeSec in m ==> RampTime in m)
    && (QueueDepth in m ==> IoDepth in m)
    && var range := SizeRange(Lookup(m, ObjectSizeMin), Lookup(m, ObjectSizeMax));
       range.Some? ==> Lookup(m, ObjectSize) == range
  }

  lemma SyncLookup(m: Params, k: Key)
    ensures Lookup(Sync(m), k) == Meaning(m, k)
  {
    SyncIsSynced(m);
  }

  lemma PairsAppear(m: Params, a: Key, b: Key)
    requires (a == Bs && b == BlockSize) || (a == NumJobs && b == Threads)
    ensures a in Sync(m) <==> b in Sync(m)
  {
    SyncLookup(m, a);
    SyncLookup(m, b);
  }

  lemma FollowerAppears(m: Params, from: Key, to: Key)
    requires (from == RampTimeSec && to == RampTime) || (from == QueueDepth && to == IoDepth)
    ensures from in Sync(m) ==> to in Sync(m)
  {
    SyncLookup(m, from);
    SyncLookup(m, to);
  }

  lemma DurationsAgree(m: Params)
    ensures Lookup(Sync(m), DurationSec) == Lookup(Sync(m), Runtime)
  {
    SyncLookup(m, DurationSec);
    SyncLookup(m, Runtime);
  }

  lemma SizeDescribesBounds(m: Params)
    ensures var range := SizeRange(Lookup(Sync(m), ObjectSizeMin), Lookup(Sync(m), ObjectSizeMax));
      range.Some? ==> Lookup(Sync(m), ObjectSize) == range
  {
    SyncLookup(m, ObjectSizeMin);
    SyncLookup(m, ObjectSizeMax);
    SyncLookup(m, ObjectSize);
  }

  /** Afterwards the spellings agree: durations are equal or both absent, pairs appear together,
      and size bounds determine the size. */
  lemma SyncCloses(m: Params)
    ensures AliasesAgree(Sync(m))
  {
    DurationsAgree(m);
    PairsAppear(m, Bs, BlockSize);
    PairsAppear(m, NumJobs, Threads);
    FollowerAppears(m, RampTimeSec, RampTime);
    FollowerAppears(m, QueueDepth, IoDepth);
    SizeDescribesBounds(m);
  }

  /** Exactly the parameters whose spellings agree are left as they are. */
  lemma SyncFixedIff(m: Params)
    ensures Sync(m) == m <==> AliasesAgree(m)
  {
    SyncCloses(m);
    if AliasesAgree(m) {
      forall k ensures Lookup(m, k) == Meaning(m, k) { AgreeingMeans(m, k); }
      SyncIsSynced(m);
      SyncedUnique(m, m, Sync(m));
    }
  }

  lemma AgreeingMeans(m: Params, k: Key)
    requires AliasesAgree(m)
    ensures Lookup(m, k) == Meaning(m, k)
  {
  }

  lemma SyncTwice(m: Params)
    ensures Sync(Sync(m)) == Sync(m)
  {
    SyncCloses(m);
    SyncFixedIff(Sync(m));
  }

  /** Nothing is dropped, and only a runtime or an object size can change its value. */
  lemma SyncKeeps(m: Params, k: Key)
    requires k in m
    ensures k in Sync(m) && (k != Runtime && k != ObjectSize ==> Sync(m)[k] == m[k])
  {
    SyncLookup(m, k);
    assert Lookup(m, k) == Some(m[k]);
    assert Meaning(m, k).Some? && (k != Runtime && k != ObjectSize ==> Meaning(m, k) == Some(m[k]));
  }

  // ----- The order of the overrides -----

  predicate Writes(norm: string -> Key, overrides: map<string, Value>, name: string, k: Key) {
    name in overrides && overrides[name] != Nil && norm(name) == k
  }

  ghost predicate IsWritten(norm: string -> Key, overrides: map<string, Value>, k: Key) {
    exists name :: Writes(norm, overrides, name, k)
  }

  /** After writing, a key has the value of some override that writes it, else its old value. */
  lemma {:induction false} WrittenLookup(norm: string -> Key, m: Params, overrides: map<string, Value>,
                                         order: seq<string>, k: Key)
    requires forall name :: name in order ==> name in overrides
    ensures var w := Lookup(Written(norm, m, overrides, order), k);
      || (exists name :: name in order && Writes(norm, overrides, name, k) && w == Some(overrides[name]))
      || ((forall name :: name in order ==> !Writes(norm, overrides, name, k)) && w == Lookup(m, k))
    decreases |order|
  {
    if order != [] {
      var n := |order| - 1;
      var name, before := order[n], Written(norm, m, overrides, order[..n]);
      WrittenLookup(norm, m, overrides, order[..n], k);
      assert name in order && forall x :: x in order <==> x in order[..n] || x == name;
      if Writes(norm, overrides, name, k) {
        assert Lookup(Written(norm, m, overrides, order), k) == Some(overrides[name]);
      } else {
        assert Lookup(Written(norm, m, overrides, order), k) == Lookup(before, k);
      }
    }
  }

  /** The key's own value does not reach the result: a duration hides the runtime, size bounds
      the size. */
  ghost predicate Masked(norm: string -> Key, m: Params, overrides: map<string, Value>, k: Key) {
    || (k == Runtime && (DurationSec in m || IsWritten(norm, overrides, DurationSec)))
    || (k == ObjectSize && (ObjectSizeMin in m || IsWritten(norm, overrides, ObjectSizeMin)
                            || ObjectSizeMax in m || IsWritten(norm, overrides, ObjectSizeMax)))
  }

  /** Names that normalize alike carry equal values, unless the key is masked. */
  ghost predicate Agreeing(norm: string -> Key, m: Params, overrides: map<string, Value>) {
    forall a, b, k :: Writes(norm, overrides, a, k) && Writes(norm, overrides, b, k) && !Masked(norm, m, overrides, k)
      ==> overrides[a] == overrides[b]
  }

  function Applied(norm: string -> Key, m: Params, overrides: map<string, Value>, order: seq<string>): Params
    requires forall name :: name in order ==> name in overrides
  {
    Sync(Written(norm, m, overrides, order))
  }

  lemma WrittenPresence(norm: string -> Key, m: Params, overrides: map<string, Value>, order: seq<string>, k: Key)
    requires Visits(order, overrides)
    ensures k in Written(norm, m, overrides, order) <==> k in m || IsWritten(norm, overrides, k)
  {
    WrittenLookup(norm, m, overrides, order, k);
    if k in Written(norm, m, overrides, order) && k !in m {
      assert Lookup(Written(norm, m, overrides, order), k) != Lookup(m, k);
    }
    assert Lookup(m, k).Some? <==> k in m;
  }

  lemma UnmaskedMeaning(norm: string -> Key, m: Params, overrides: map<string, Value>, order: seq<string>, k: Key)
    requires Visits(order, overrides) && k in Written(norm, m, overrides, order)
    ensures !Masked(norm, m, overrides, k) ==>
      Meaning(Written(norm, m, overrides, order), k) == Lookup(Written(norm, m, overrides, order), k)
  {
    WrittenPresence(norm, m, overrides, order, DurationSec);
    WrittenPresence(norm, m, overrides, order, ObjectSizeMin);
    WrittenPresence(norm, m, overrides, order, ObjectSizeMax);
  }

  lemma UnmaskedEqual(norm: string -> Key, m: Params, overrides: map<string, Value>,
                      order: seq<string>, other: seq<string>, k: Key)
    requires Visits(order, overrides) && Visits(other, overrides)
    requires Agreeing(norm, m, overrides) && !Masked(norm, m, overrides, k)
    ensures Lookup(Written(norm, m, overrides, order), k) == Lookup(Written(norm, m, overrides, other), k)
  {
    WrittenLookup(norm, m, overrides, order, k);
    WrittenLookup(norm, m, overrides, other, k);
  }

  lemma AgreeingOrders(norm: string -> Key, m: Params, overrides: map<string, Value>,
                       order: seq<string>, other: seq<string>)
    requires Visits(order, overrides) && Visits(other, overrides) && Agreeing(norm, m, overrides)
    ensures Applied(norm, m, overrides, order) == Applied(norm, m, overrides, other)
  {
    var w, v := Written(norm, m, overrides, order), Written(norm, m, overrides, other);
    forall k | !Masked(norm, m, overrides, k) ensures Lookup(w, k) == Lookup(v, k) {
      UnmaskedEqual(norm, m, overrides, order, other, k);
    }
    WrittenPresence(norm, m, overrides, order, DurationSec);
    WrittenPresence(norm, m, overrides, order, ObjectSizeMin);
    WrittenPresence(norm, m, overrides, order, ObjectSizeMax);
    forall k ensures Meaning(w, k) == Meaning(v, k) { SameMeaning(norm, m, overrides, w, v, k); }
    SyncIsSynced(w);
    SyncIsSynced(v);
    SyncedUnique(w, Sync(w), Sync(v));
  }

  lemma SameMeaning(norm: string -> Key, m: Params, overrides: map<string, Value>, w: Params, v: Params, k: Key)
    requires forall x :: !Masked(norm, m, overrides, x) ==> Lookup(w, x) == Lookup(v, x)
    requires DurationSec in w <==> DurationSec in m || IsWritten(norm, overrides, DurationSec)
    requires ObjectSizeMin in w <==> ObjectSizeMin in m || IsWritten(norm, overrides, ObjectSizeMin)
    requires ObjectSizeMax in w <==> ObjectSizeMax in m || IsWritten(norm, overrides, ObjectSizeMax)
    ensures Meaning(w, k) == Meaning(v, k)
  {
    forall x | x != Runtime && x != ObjectSize ensures Lookup(w, x) == Lookup(v, x) {
      assert !Masked(norm, m, overrides, x);
    }
    MeaningAgrees(w, v, k);
  }

  /** Maps that agree but for what a duration or size bounds hide have the same meaning. */
  lemma MeaningAgrees(w: Params, v: Params, k: Key)
    requires forall x :: x != Runtime && x != ObjectSize ==> Lookup(w, x) == Lookup(v, x)
    requires DurationSec in w || Lookup(w, Runtime) == Lookup(v, Runtime)
    requires ObjectSizeMin in w || ObjectSizeMax in w || Lookup(w, ObjectSize) == Lookup(v, ObjectSize)
    ensures Meaning(w, k) == Meaning(v, k)
  {
    assert DurationSec in w <==> Lookup(w, DurationSec).Some?;
    assert ObjectSizeMin in w <==> Lookup(w, ObjectSizeMin).Some?;
    assert ObjectSizeMax in w <==> Lookup(w, ObjectSizeMax).Some?;
  }

  ghost function Listing(names: set<string>): (order: seq<string>)
    ensures Distinct(order) && forall name :: name in order <==> name in names
    decreases |names|
  {
    if names == {} then []
    else
      var name :| name in names;
      Listing(names - {name}) + [name]
  }

  /** Some order writes a given name last. */
  lemma LastWritten(norm: string -> Key, m: Params, overrides: map<string, Value>, name: string)
    returns (order: seq<string>)
    requires name in overrides && overrides[name] != Nil
    ensures Visits(order, overrides)
    ensures Lookup(Written(norm, m, overrides, order), norm(name)) == Some(overrides[name])
  {
    var before := Listing(overrides.Keys - {name});
    order := before + [name];
    DistinctAppend(before, name);
    WrittenNext(norm, m, overrides, before, name);
  }

  /** The result does not depend on the order in which the map is visited exactly when names
      that normalize alike agree on every key that is not masked. */
  lemma OrderIrrelevantIff(norm: string -> Key, m: Params, overrides: map<string, Value>)
    ensures (forall order, other :: Visits(order, overrides) && Visits(other, overrides)
               ==> Applied(norm, m, overrides, order) == Applied(norm, m, overrides, other))
      <==> Agreeing(norm, m, overrides)
  {
    if Agreeing(norm, m, overrides) {
      forall order, other | Visits(order, overrides) && Visits(other, overrides)
        ensures Applied(norm, m, overrides, order) == Applied(norm, m, overrides, other)
      {
        AgreeingOrders(norm, m, overrides, order, other);
      }
    } else {
      var a, b, k :| Writes(norm, overrides, a, k) && Writes(norm, overrides, b, k)
        && !Masked(norm, m, overrides, k) && overrides[a] != overrides[b];
      var order := LastWritten(norm, m, overrides, a);
      var other := LastWritten(norm, m, overrides, b);
      UnmaskedMeaning(norm, m, overrides, order, k);
      UnmaskedMeaning(norm, m, overrides, other, k);
      SyncLookup(Written(norm, m, overrides, order), k);
      SyncLookup(Written(norm, m, overrides, other), k);
      assert Applied(norm, m, overrides, order) != Applied(norm, m, overrides, other);
    }
  }

  // ----- A single override -----

  /** One override writes its value under the normalized name; a nil one writes nothing. */
  lemma SingleOverride(norm: string -> Key, m: Params, name: string, v: Value)
    ensures Applied(norm, m, map[name := v], [name]) == Sync(if v == Nil then m else m[norm(name) := v])
  {
    assert [name][..0] == [];
    assert Written(norm, m, map[name := v], []) == m;
  }

  /** `to` takes the value of `from` only if it has none. */
  predicate FilledFrom(from: Key, to: Key) {
    match from
    case Runtime => to == DurationSec
    case RampTimeSec => to == RampTime
    case BlockSize => to == Bs
    case Bs => to == BlockSize
    case Threads => to == NumJobs
    case NumJobs => to == Threads
    case QueueDepth => to == IoDepth
    case _ => false
  }

  /** A value hides behind another parameter that decides its meaning. */
  predicate Unhidden(m: Params, k: Key, v: Value) {
    && (k == Runtime && DurationSec in m ==> m[DurationSec] == v)
    && (k == ObjectSize && (ObjectSizeMin in m || ObjectSizeMax in m) ==>
          SizeRange(Lookup(m, ObjectSizeMin), Lookup(m, ObjectSizeMax)) == Some(v))
  }

  /** When writing v under k makes g show v, by what m holds before. */
  predicate Shows(m: Params, k: Key, v: Value, g: Key) {
    if g == k then Unhidden(m, k, v)
    else if k == DurationSec && g == Runtime then true
    else if FilledFrom(k, g) then g !in m || m[g] == v
    else if g == ObjectSize && (k == ObjectSizeMin || k == ObjectSizeMax) then
      SizeRange(if k == ObjectSizeMin then Some(v) else Lookup(m, ObjectSizeMin),
                if k == ObjectSizeMax then Some(v) else Lookup(m, ObjectSizeMax)) == Some(v)
    else Meaning(m, g) == Some(v)
  }

  lemma UpdatedLookup(m: Params, k: Key, v: Value, x: Key)
    ensures Lookup(m[k := v], x) == if x == k then Some(v) else Lookup(m, x)
  {
  }

  /** The meaning of g after the update, for the three groups of keys with aliases. */
  lemma DurationShowsIff(m: Params, k: Key, v: Value, g: Key)
    requires g == DurationSec || g == Runtime
    ensures Meaning(m[k := v], g) == Some(v) <==> Shows(m, k, v, g)
  {
    UpdatedLookup(m, k, v, DurationSec);
    UpdatedLookup(m, k, v, Runtime);
  }

  lemma PairShowsIff(m: Params, k: Key, v: Value, g: Key)
    requires g == Bs || g == BlockSize || g == NumJobs || g == Threads
    ensures Meaning(m[k := v], g) == Some(v) <==> Shows(m, k, v, g)
  {
    UpdatedLookup(m, k, v, g);
    UpdatedLookup(m, k, v, OtherSpelling(g).value);
  }

  lemma FollowerShowsIff(m: Params, k: Key, v: Value, g: Key)
    requires g == RampTime || g == IoDepth
    ensures Meaning(m[k := v], g) == Some(v) <==> Shows(m, k, v, g)
  {
    UpdatedLookup(m, k, v, g);
    UpdatedLookup(m, k, v, OtherSpelling(g).value);
  }

  lemma PlainShowsIff(m: Params, k: Key, v: Value, g: Key)
    requires g !in ALIAS_KEYS
    ensures Meaning(m[k := v], g) == Some(v) <==> Shows(m, k, v, g)
  {
    UpdatedLookup(m, k, v, g);
  }

  /** For every key written and every key looked at: exactly when it shows the new value. */
  lemma OverrideShowsIff(m: Params, k: Key, v: Value, g: Key)
    ensures Lookup(Sync(m[k := v]), g) == Some(v) <==> Shows(m, k, v, g)
  {
    SyncLookup(m[k := v], g);
    match g
    case DurationSec => DurationShowsIff(m, k, v, g);
    case Runtime => DurationShowsIff(m, k, v, g);
    case RampTime => FollowerShowsIff(m, k, v, g);
    case IoDepth => FollowerShowsIff(m, k, v, g);
    case Bs => PairShowsIff(m, k, v, g);
    case BlockSize => PairShowsIff(m, k, v, g);
    case NumJobs => PairShowsIff(m, k, v, g);
    case Threads => PairShowsIff(m, k, v, g);
    case ObjectSize => SizeShowsIff(m, k, v);
    case _ => PlainShowsIff(m, k, v, g);
  }

  lemma SizeShowsIff(m: Params, k: Key, v: Value)
    ensures Meaning(m[k := v], ObjectSize) == Some(v) <==> Shows(m, k, v, ObjectSize)
  {
    UpdatedLookup(m, k, v, ObjectSize);
    UpdatedLookup(m, k, v, ObjectSizeMin);
    UpdatedLookup(m, k, v, ObjectSizeMax);
  }

  /** The other spelling of a name that has one. */
  function OtherSpelling(k: Key): Option<Key> {
    match k
    case DurationSec => Some(Runtime)
    case Runtime => Some(DurationSec)
    case Bs => Some(BlockSize)
    case BlockSize => Some(Bs)
    case NumJobs => Some(Threads)
    case Threads => Some(NumJobs)
    case RampTimeSec => Some(RampTime)
    case RampTime => Some(RampTimeSec)
    case QueueDepth => Some(IoDepth)
    case IoDepth => Some(QueueDepth)
    case _ => None
  }

  /** The other spelling follows an override of the duration always; that of the i/o depth and
      of the ramp time never, it only may have the value already; any other exactly when it was
      absent or had the value. A stale spelling stays. */
  lemma OtherSpellingFollowsIff(m: Params, k: Key, v: Value)
    requires OtherSpelling(k).Some?
    ensures var other := OtherSpelling(k).value;
      Lookup(Sync(m[k := v]), other) == Some(v) <==>
        if k == DurationSec then true
        else if k == IoDepth || k == RampTime then Lookup(m, other) == Some(v)
        else other !in m || Lookup(m, other) == Some(v)
  {
    OverrideShowsIff(m, k, v, OtherSpelling(k).value);
  }

  // ----- By the name the caller gave -----

  lemma RenamedBlockAway(c: string)
    requires RenamedBlock(c).Some?
    ensures !RenamedBlock(c).value.Other? && KeyOf(c) == Other(c)
  {
  }

  lemma RenamedObjectAway(c: string)
    requires RenamedObject(c).Some?
    ensures !RenamedObject(c).value.Other? && KeyOf(c) == Other(c)
  {
  }

  lemma RenamedTimeAway(c: string)
    requires RenamedTime(c).Some?
    ensures !RenamedTime(c).value.Other?
    ensures KeyOf(c) == if c == "threads" then Threads else if c == "queue_depth" then QueueDepth else Other(c)
    ensures c == "threads" ==> RenamedTime(c) == Some(NumJobs)
    ensures c == "queue_depth" ==> RenamedTime(c) == Some(IoDepth)
  {
  }

  /** The key of the name as given, and the key that is written: a rewritten name is that of the
      threads, of the queue depth, or of nothing the code knows. */
  predicate GivenAndWritten(given: Key, written: Key) {
    || given == written
    || (given == Threads && written == NumJobs)
    || (given == QueueDepth && written == IoDepth)
    || (given.Other? && !written.Other?)
  }

  lemma NameKinds(name: string)
    ensures GivenAndWritten(KeyOf(Cleaned(name)), NormalizeParamKey(name))
  {
    if RenamedTime(Cleaned(name)).Some? {
      RenamedTimeAway(Cleaned(name));
    } else if RenamedBlock(Cleaned(name)).Some? {
      RenamedBlockAway(Cleaned(name));
    } else if RenamedObject(Cleaned(name)).Some? {
      RenamedObjectAway(Cleaned(name));
    }
  }

  /** An override shows under the name it was given. */
  predicate ShowsAsNamed(m: Params, given: Key, written: Key, v: Value) {
    if given == written then Unhidden(m, written, v)
    else if given == Threads then Threads !in m || Lookup(m, Threads) == Some(v)
    else Lookup(m, given) == Some(v)
  }

  lemma NamedShowsIff(m: Params, given: Key, written: Key, v: Value)
    requires GivenAndWritten(given, written)
    ensures Shows(m, written, v, given) <==> ShowsAsNamed(m, given, written, v)
  {
  }

  /** Exactly when a single override can be read back under the name the caller gave: under a
      rewritten name only if that name happened to have the value before, with threads filled
      from numjobs as the one exception. */
  lemma OverrideTakesEffectIff(m: Params, name: string, v: Value)
    requires v != Nil
    ensures Lookup(Applied(NormalizeParamKey, m, map[name := v], [name]), KeyOf(Cleaned(name))) == Some(v)
      <==> ShowsAsNamed(m, KeyOf(Cleaned(name)), NormalizeParamKey(name), v)
  {
    var given, written := KeyOf(Cleaned(name)), NormalizeParamKey(name);
    SingleOverride(NormalizeParamKey, m, name, v);
    OverrideShowsIff(m, written, v, given);
    NameKinds(name);
    NamedShowsIff(m, given, written, v);
  }

  lemma QueueDepthName(name: string)
    requires Cleaned(name) == "queue_depth"
    ensures KeyOf(Cleaned(name)) == QueueDepth && NormalizeParamKey(name) == IoDepth
  {
    RenamedTimeAway("queue_depth");
  }

  /** An override of queue_depth is written to iodepth and leaves the profile's own queue_depth,
      which may be the only one an engine reads. */
  lemma QueueDepthOverrideIgnored(m: Params, name: string, v: Value)
    requires Cleaned(name) == "queue_depth" && v != Nil && QueueDepth in m
    ensures Lookup(Applied(NormalizeParamKey, m, map[name := v], [name]), QueueDepth) == Some(m[QueueDepth])
    ensures Lookup(Applied(NormalizeParamKey, m, map[name := v], [name]), IoDepth) == Some(v)
  {
    QueueDepthName(name);
    SingleOverride(NormalizeParamKey, m, name, v);
    SyncLookup(m[IoDepth := v], QueueDepth);
    SyncLookup(m[IoDepth := v], IoDepth);
  }

  lemma LowerFixed(s: string)
    requires forall i :: 0 <= i < |s| ==> !('A' <= s[i] <= 'Z')
    ensures ToLower(s) == s
  {
  }

  lemma QueueDepthIsClean()
    ensures Cleaned("queue_depth") == "queue_depth"
  {
    TrimmedFixed("queue_depth");
    LowerFixed("queue_depth");
  }

  /** The name itself is such a spelling. */
  lemma QueueDepthIgnoredByName(m: Params, v: Value)
    requires v != Nil && QueueDepth in m
    ensures
      var after := Applied(NormalizeParamKey, m, map["queue_depth" := v], ["queue_depth"]);
      Lookup(after, QueueDepth) == Some(m[QueueDepth]) && Lookup(after, IoDepth) == Some(v)
  {
    QueueDepthIsClean();
    QueueDepthOverrideIgnored(m, "queue_depth", v);
  }
}
