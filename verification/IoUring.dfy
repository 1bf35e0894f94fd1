/** The io_uring worker of the native engine: its slot table, the two rings, and a kernel
    that may run between any two calls and completes each submitted entry once. */
module IoUring {
  import opened Options
  import opened Offsets
  import opened Strings

  // ----- Values -----

  /** A submitted operation: the slot is its user data, the id numbers the pushes. */
  datatype Entry = Entry(slot: nat, id: nat)

  datatype Completion = Completion(entry: Entry, ok: bool)

  /** What the slot table keeps of an operation in flight. */
  datatype Op = Op(id: nat, write: bool)

  datatype Request = Request(slot: nat, write: bool, offset: nat)

  function Done(cq: seq<Completion>): seq<Entry> { seq(|cq|, i requires 0 <= i < |cq| => cq[i].entry) }

  function EntriesOf(issued: seq<Request>): seq<Entry> {
    seq(|issued|, i requires 0 <= i < |issued| => Entry(issued[i].slot, i))
  }

  /** The entries of the occupied slots. */
  function Held(slots: seq<Option<Op>>): multiset<Entry> {
    if slots == [] then multiset{}
    else
      var n := |slots| - 1;
      Held(slots[..n]) + if slots[n].Some? then multiset{Entry(n, slots[n].value.id)} else multiset{}
  }

  function At(slots: seq<Option<Op>>, i: nat): multiset<Entry>
    requires i < |slots|
  {
    if slots[i].Some? then multiset{Entry(i, slots[i].value.id)} else multiset{}
  }

  lemma {:induction false} HeldMember(slots: seq<Option<Op>>, e: Entry)
    ensures Held(slots)[e] == if e.slot < |slots| && slots[e.slot].Some? && slots[e.slot].value.id == e.id then 1 else 0
  {
    if slots != [] {
      HeldMember(slots[..|slots| - 1], e);
    }
  }

  lemma HeldUpdate(slots: seq<Option<Op>>, i: nat, op: Option<Op>)
    requires i < |slots|
    ensures Held(slots[i := op]) + At(slots, i) == Held(slots) + At(slots[i := op], i)
  {
    var slots' := slots[i := op];
    forall e: Entry
      ensures (Held(slots') + At(slots, i))[e] == (Held(slots) + At(slots', i))[e]
    {
      HeldMember(slots, e);
      HeldMember(slots', e);
    }
  }

  lemma {:induction false} HeldSize(slots: seq<Option<Op>>)
    ensures |Held(slots)| <= |slots|
    ensures |Held(slots)| == |slots| <==> forall i :: 0 <= i < |slots| ==> slots[i].Some?
  {
    if slots != [] { HeldSize(slots[..|slots| - 1]); }
  }

  lemma HeldNone(slots: seq<Option<Op>>)
    requires forall i :: 0 <= i < |slots| ==> slots[i].None?
    ensures Held(slots) == multiset{}
  {
  }

  lemma PushKeeps(slots: seq<Option<Op>>, slot: nat, op: Op)
    requires slot < |slots| && slots[slot].None?
    ensures Held(slots[slot := Some(op)]) == Held(slots) + multiset{Entry(slot, op.id)}
    ensures |Held(slots[slot := Some(op)])| == |Held(slots)| + 1
    ensures forall e :: e in Held(slots) ==> e.slot != slot
  {
    HeldUpdate(slots, slot, Some(op));
    forall e | e in Held(slots) ensures e.slot != slot { HeldMember(slots, e); }
  }

  lemma TakeKeeps(slots: seq<Option<Op>>, e: Entry, pool: multiset<Entry>)
    requires pool + multiset{e} == Held(slots)
    ensures e.slot < |slots| && slots[e.slot].Some? && slots[e.slot].value.id == e.id
    ensures Held(slots[e.slot := None]) == pool
    ensures |Held(slots)| == |pool| + 1
  {
    assert e in Held(slots);
    HeldMember(slots, e);
    forall f: Entry ensures Held(slots[e.slot := None])[f] == pool[f] {
      HeldMember(slots, f);
      HeldMember(slots[e.slot := None], f);
      assert (pool + multiset{e})[f] == Held(slots)[f];
    }
  }

  // ----- Read or write -----

  /** should_write, for a draw from 0 to 99. */
  predicate ShouldWrite(pattern: string, mix: int, draw: nat) {
    var p := ToLower(pattern);
    if Contains(p, "write") && !Contains(p, "read") then true
    else if Contains(p, "read") && !Contains(p, "write") && !Contains(p, "rw") then false
    else draw >= if mix > 0 then mix else 70
  }

  /** How many of the first n draws write. */
  function WritingDraws(pattern: string, mix: int, n: nat): nat {
    if n == 0 then 0 else WritingDraws(pattern, mix, n - 1) + if ShouldWrite(pattern, mix, n - 1) then 1 else 0
  }

  lemma {:induction false} FirstDraws(pattern: string, mix: int, n: nat)
    ensures
      var p := ToLower(pattern);
      WritingDraws(pattern, mix, n) ==
      if Contains(p, "write") && !Contains(p, "read") then n
      else if Contains(p, "read") && !Contains(p, "write") && !Contains(p, "rw") then 0
      else if mix > 0 then (if n > mix then n - mix else 0)
      else if n > 70 then n - 70 else 0
  {
    hide Contains, ToLower;
    if n > 0 { FirstDraws(pattern, mix, n - 1); }
  }

  /** Of the hundred draws a write pattern writes at all, a read pattern at none, and any other at what
      the percentage of reads leaves: the given one, or 70. */
  lemma WriteShare(pattern: string, mix: int)
    ensures
      var p, share := ToLower(pattern), WritingDraws(pattern, mix, 100);
      && (Contains(p, "write") && !Contains(p, "read") ==> share == 100)
      && (Contains(p, "read") && !Contains(p, "write") && !Contains(p, "rw") ==> share == 0)
      && (Contains(p, "read") == Contains(p, "write") || (Contains(p, "read") && Contains(p, "rw")) ==>
            share == if mix > 100 then 0 else if mix > 0 then 100 - mix else 30)
  {
    hide Contains, ToLower;
    FirstDraws(pattern, mix, 100);
  }

  /** Each occupied slot keeps the kind of the request it was pushed for. */
  predicate KindsKept(slots: seq<Option<Op>>, issued: seq<Request>) {
    forall i :: 0 <= i < |slots| && slots[i].Some? ==>
      slots[i].value.id < |issued| && slots[i].value.write == issued[slots[i].value.id].write
  }

  /** History: every pushed request in order, what was reaped with each result, and the
      kinds passed to record (true for a write). */
  datatype Log = Log(issued: seq<Request>, recorded: seq<Entry>, errored: seq<Entry>, calls: seq<bool>) {
    /** Every push is held, recorded or failed, exactly once. */
    predicate Accounts(held: multiset<Entry>) {
      multiset(EntriesOf(issued)) == held + multiset(recorded) + multiset(errored)
    }

    /** Every pushed block lies inside the data set. */
    predicate InsideDataset(dataset: u64, bs: u64) {
      forall i :: 0 <= i < |issued| ==> InBounds(issued[i].offset, dataset, bs)
    }

    /** Every successful operation was recorded, as the kind it was pushed with. */
    predicate KindsRecorded() {
      && |calls| == |recorded|
      && forall i :: 0 <= i < |recorded| ==>
           recorded[i].id < |issued| && calls[i] == issued[recorded[i].id].write
    }

    /** What a worker leaves behind when it stops by itself. */
    predicate Settled() {
      Accounts(multiset{}) && |issued| == |recorded| + |errored| && KindsRecorded()
    }

    /** The kinds are those the pattern allows, and the blocks those it goes through: the sequential
        walk of the thread in order, or any drawn block. */
    predicate FollowsPattern(pattern: string, mix: int, dataset: u64, bs: u64, tid: u64) {
      forall i :: 0 <= i < |issued| ==>
        && KindAllowed(pattern, mix, issued[i].write)
        && OffsetChosen(pattern, dataset, bs, tid, i, issued[i].offset)
    }

    /** The successful completions were recorded and the failed ones not, in the order they came in. */
    predicate FollowsCompletions(cs: seq<Completion>) {
      recorded == Entries(cs, true) && errored == Entries(cs, false)
    }

    function Pushed(q: Request): Log { this.(issued := issued + [q]) }

    function Recorded(e: Entry, write: bool): Log {
      this.(recorded := recorded + [e], calls := calls + [write])
    }

    function Errored(e: Entry): Log { this.(errored := errored + [e]) }

    function Reaped(e: Entry, ok: bool): Log
      requires e.id < |issued|
    {
      if ok then Recorded(e, issued[e.id].write) else Errored(e)
    }

    function Count(): nat { |recorded| + |errored| }
  }

  predicate KindAllowed(pattern: string, mix: int, write: bool) {
    exists draw :: 0 <= draw < 100 && ShouldWrite(pattern, mix, draw) == write
  }

  predicate OffsetChosen(pattern: string, dataset: u64, bs: u64, tid: u64, i: nat, offset: nat) {
    if MaxOffset(dataset, bs) == 0 then offset == 0
    else if IsRandom(pattern) then exists step :: 0 <= step <= dataset && offset == step * bs <= MaxOffset(dataset, bs)
    else offset == OffsetAt(tid, bs, dataset, i)
  }

  /** The entries of the completions with this outcome. */
  function Entries(cs: seq<Completion>, ok: bool): seq<Entry> {
    if cs == [] then []
    else
      var last := cs[|cs| - 1];
      Entries(cs[..|cs| - 1], ok) + if last.ok == ok then [last.entry] else []
  }

  lemma PatternPush(log: Log, pattern: string, mix: int, dataset: u64, bs: u64, tid: u64,
                    q: Request, draw: nat, step: nat)
    requires log.FollowsPattern(pattern, mix, dataset, bs, tid)
    requires draw < 100 && q.write == ShouldWrite(pattern, mix, draw)
    requires MaxOffset(dataset, bs) == 0 ==> q.offset == 0
    requires MaxOffset(dataset, bs) > 0 && IsRandom(pattern) ==>
      bs > 0 && q.offset == step * bs <= MaxOffset(dataset, bs)
    requires MaxOffset(dataset, bs) > 0 && !IsRandom(pattern) ==> q.offset == OffsetAt(tid, bs, dataset, |log.issued|)
    ensures log.Pushed(q).FollowsPattern(pattern, mix, dataset, bs, tid)
  {
    hide ShouldWrite, IsRandom, OffsetAt;
    if MaxOffset(dataset, bs) > 0 && IsRandom(pattern) {
      assert step <= step * bs by { assert step * (bs - 1) >= 0; }
    }
  }

  lemma EntriesAppend(cs: seq<Completion>, c: Completion)
    ensures Entries(cs + [c], c.ok) == Entries(cs, c.ok) + [c.entry]
    ensures Entries(cs + [c], !c.ok) == Entries(cs, !c.ok)
  {
    assert (cs + [c])[..|cs|] == cs;
  }

  lemma AccountPush(log: Log, held: multiset<Entry>, q: Request, dataset: u64, bs: u64)
    requires log.Accounts(held)
    requires log.InsideDataset(dataset, bs) && InBounds(q.offset, dataset, bs)
    ensures log.Pushed(q).Accounts(held + multiset{Entry(q.slot, |log.issued|)})
    ensures log.Pushed(q).InsideDataset(dataset, bs)
  {
    assert EntriesOf(log.issued + [q]) == EntriesOf(log.issued) + [Entry(q.slot, |log.issued|)];
  }

  lemma AccountReap(log: Log, held: multiset<Entry>, e: Entry, ok: bool)
    requires log.Accounts(held + multiset{e}) && e.id < |log.issued|
    ensures log.Reaped(e, ok).Accounts(held)
    ensures log.KindsRecorded() ==> log.Reaped(e, ok).KindsRecorded()
  {
  }

  /** Each occupied slot is held once, and nothing else. */
  lemma HeldOnce(slots: seq<Option<Op>>, e: Entry)
    ensures Held(slots)[e] == if e.slot < |slots| && slots[e.slot].Some? && slots[e.slot].value.id == e.id then 1 else 0
  {
    HeldMember(slots, e);
  }

  lemma SlotsDiffer(slots: seq<Option<Op>>, a: multiset<Entry>, b: multiset<Entry>, e: Entry, f: Entry)
    requires a + b <= Held(slots) && e in a && f in b
    ensures e.slot != f.slot
  {
    HeldOnce(slots, e);
    HeldOnce(slots, f);
    assert (a + b)[e] == a[e] + b[e] && (a + b)[f] == a[f] + b[f];
    assert e in Held(slots) && f in Held(slots);
  }

  /** The submission queue, the kernel and the completion queue partition the occupied
      slots: no slot is in two of them or twice in one, and each occupied slot is in one. */
  lemma SlotsPartition(sq: seq<Entry>, kernel: multiset<Entry>, cq: seq<Completion>, slots: seq<Option<Op>>)
    requires multiset(sq) + kernel + multiset(Done(cq)) == Held(slots)
    ensures forall e, f :: e in multiset(sq) && f in kernel ==> e.slot != f.slot
    ensures forall e, f :: e in multiset(sq) && f in multiset(Done(cq)) ==> e.slot != f.slot
    ensures forall e, f :: e in kernel && f in multiset(Done(cq)) ==> e.slot != f.slot
    ensures forall e, f :: e in Held(slots) && f in Held(slots) && e.slot == f.slot ==> e == f
    ensures forall e :: e in Held(slots) ==> Held(slots)[e] == 1 && e.slot < |slots| && slots[e.slot].Some?
    ensures forall i :: 0 <= i < |slots| && slots[i].Some? ==>
      Entry(i, slots[i].value.id) in multiset(sq) + kernel + multiset(Done(cq))
    ensures |sq| + |kernel| + |cq| == |Held(slots)| <= |slots|
  {
    hide Held;
    var s, c := multiset(sq), multiset(Done(cq));
    forall e, f | e in s && f in kernel ensures e.slot != f.slot { SlotsDiffer(slots, s, kernel, e, f); }
    forall e, f | e in s && f in c ensures e.slot != f.slot { SlotsDiffer(slots, s, c, e, f); }
    forall e, f | e in kernel && f in c ensures e.slot != f.slot { SlotsDiffer(slots, kernel, c, e, f); }
    forall e: Entry { HeldOnce(slots, e); }
    HeldSize(slots);
  }

  /** The ring is created with room for every slot, for any 32-bit queue depth. */
  lemma RingHasHeadroom(queueDepth: int)
    requires -0x8000_0000 <= queueDepth < 0x8000_0000
    ensures
      var qd := QueueDepth(queueDepth);
      && qd == (if queueDepth < 1 then 1 else queueDepth)
      && RingEntries(qd) == (if qd < 4 then 8 else 2 * qd)
      && 1 <= qd <= RingEntries(qd) < 0x1_0000_0000
  {
  }

  function QueueDepth(queueDepth: int): nat { if queueDepth > 1 then queueDepth else 1 }

  function RingEntries(qd: nat): nat { if qd * 2 > 8 then qd * 2 else 8 }

  function SaturatingSub(x: nat, y: nat): nat { if x > y then x - y else 0 }

  // ----- The rings -----

  /** Each method is one call into the ring; before it returns the kernel may run. */
  class Ring {
    const capacity: nat
    var sq: seq<Entry>
    var kernel: multiset<Entry>
    var cq: seq<Completion>
    /** History: the completions that were handed out. */
    var reaped: seq<Completion>
    /** History: how many submit calls failed. */
    var failures: nat

    constructor (capacity: nat)
      ensures this.capacity == capacity && sq == [] && kernel == multiset{} && cq == [] && reaped == []
    {
      this.capacity := capacity;
      sq := [];
      kernel := multiset{};
      cq := [];
      reaped := [];
      failures := 0;
    }

    ghost function Pool(): multiset<Entry>
      reads this
    {
      multiset(sq) + kernel + multiset(Done(cq))
    }

    /** The kernel completes any operations it holds, in any order, with any result. */
    method KernelRuns()
      modifies this`kernel, this`cq
      ensures Pool() == old(Pool()) && |cq| >= old(|cq|)
    {
      var n: nat := *;
      while n > 0 && |kernel| > 0
        invariant Pool() == old(Pool()) && |cq| >= old(|cq|)
        decreases n
      {
        CompleteOne();
        n := n - 1;
      }
    }

    method Push(e: Entry) returns (pushed: bool)
      modifies this`sq, this`kernel, this`cq
      ensures pushed <==> old(|sq|) < capacity
      ensures Pool() == (old(Pool()) + if pushed then multiset{e} else multiset{})
    {
      pushed := |sq| < capacity;
      if pushed {
        sq := sq + [e];
      }
      KernelRuns();
    }

    /** submit: the kernel takes any prefix of the submission queue, or the call fails. */
    method Submit() returns (ok: bool)
      modifies this`sq, this`kernel, this`cq, this`failures
      ensures Pool() == old(Pool()) && |cq| >= old(|cq|)
      ensures failures == old(failures) + if ok then 0 else 1
    {
      ok := *;
      if ok {
        var taken: nat :| taken <= |sq|;
        Take(taken);
      } else {
        failures := failures + 1;
      }
      KernelRuns();
    }

    method Take(taken: nat)
      requires taken <= |sq|
      modifies this`sq, this`kernel
      ensures Pool() == old(Pool()) && sq == old(sq[taken..]) && |kernel| == old(|kernel|) + taken
    {
      assert sq == sq[..taken] + sq[taken..];
      assert |multiset(sq[..taken])| == taken;
      kernel := kernel + multiset(sq[..taken]);
      sq := sq[taken..];
    }

    /** submit_and_wait(1): if it does not fail it returns with a completion visible, unless there is
        nothing to wait for. */
    method SubmitAndWait() returns (ok: bool)
      modifies this`sq, this`kernel, this`cq, this`failures
      ensures Pool() == old(Pool()) && |cq| >= old(|cq|)
      ensures failures == old(failures) + if ok then 0 else 1
      ensures ok && |Pool()| > 0 ==> |cq| > 0
    {
      ok := *;
      if ok {
        Take(|sq|);
        if |cq| == 0 && |kernel| > 0 {
          CompleteOne();
        }
        assert |Pool()| == |kernel| + |Done(cq)|;
      } else {
        failures := failures + 1;
      }
      KernelRuns();
    }

    method CompleteOne()
      requires |kernel| > 0
      modifies this`kernel, this`cq
      ensures Pool() == old(Pool()) && |cq| == old(|cq|) + 1
    {
      var e: Entry :| e in kernel;
      var ok: bool := *;
      assert Done(cq + [Completion(e, ok)]) == Done(cq) + [e];
      kernel := kernel - multiset{e};
      cq := cq + [Completion(e, ok)];
    }

    /** The next completion, if one is visible. */
    method NextCompletion() returns (c: Option<Completion>)
      modifies this`kernel, this`cq, this`reaped
      ensures c.Some? ==> Pool() + multiset{c.value.entry} == old(Pool()) && reaped == old(reaped) + [c.value]
      ensures c.None? ==> Pool() == old(Pool()) && reaped == old(reaped) && old(cq) == []
    {
      KernelRuns();
      if |cq| == 0 {
        return None;
      }
      c := Some(cq[0]);
      assert Done(cq) == [cq[0].entry] + Done(cq[1..]);
      reaped := reaped + [cq[0]];
      cq := cq[1..];
    }
  }

  // ----- The worker -----

  /** gen_range: any number from 0 to top. */
  method GenRange(top: nat) returns (n: nat)
    ensures n <= top
  {
    n :| 0 <= n <= top;
  }

  /** Both random choices of one operation, and what follows from them. */
  method Draw(pattern: string, mix: int, dataset: u64, bs: u64, cursor: u64, tid: u64)
    returns (write: bool, off: u64, next: u64, ghost draw: nat, ghost step: nat)
    requires bs > 0 && Paged(bs, dataset) && cursor % PAGE == 0
    ensures draw < 100 && write == ShouldWrite(pattern, mix, draw)
    ensures InBounds(off, dataset, bs) && next % PAGE == 0
    ensures MaxOffset(dataset, bs) == 0 ==> off == 0 && next == cursor
    ensures MaxOffset(dataset, bs) > 0 && IsRandom(pattern) ==>
      next == cursor && off == step * bs <= MaxOffset(dataset, bs)
    ensures MaxOffset(dataset, bs) > 0 && !IsRandom(pattern) ==>
      off == SequentialOffset(dataset, bs, cursor) && next == Advance(cursor, bs, tid)
  {
    hide *;
    var d := GenRange(99);
    write := ShouldWrite(pattern, mix, d);
    var n := GenRange(MaxOffset(dataset, bs) / bs);
    off, next := PickOffset(pattern, dataset, bs, cursor, tid, n);
    draw, step := d, n;
  }

  class Worker {
    const ring: Ring
    const inflight: array<Option<Op>>
    const pattern: string
    const mix: int
    const dataset: u64
    const bs: u64
    const tid: u64
    var pending: nat
    var cursor: u64
    /** Set once the run's duration has passed. */
    var expired: bool
    var log: Log

    /** The worker's invariant: the rings and the kernel hold the occupied slots, and every
        push so far is in flight, recorded or failed, exactly once, inside the data set. */
    ghost predicate Valid()
      reads this, ring, inflight
    {
      Consistent(ring.Pool()) && Walking() && log.FollowsCompletions(ring.reaped)
    }

    /** The requests follow the pattern, and the cursor stands where the next one will be. */
    ghost predicate Walking()
      reads this
    {
      && log.FollowsPattern(pattern, mix, dataset, bs, tid)
      && (MaxOffset(dataset, bs) > 0 && !IsRandom(pattern) ==> cursor == CursorAt(tid, bs, |log.issued|))
    }

    ghost predicate Consistent(pool: multiset<Entry>)
      reads this, inflight
    {
      && 1 <= inflight.Length <= ring.capacity
      && Paged(bs, dataset) && cursor % PAGE == 0
      && pool == Held(inflight[..])
      && pending == |pool|
      && log.Accounts(pool) && log.KindsRecorded() && KindsKept(inflight[..], log.issued)
      && log.InsideDataset(dataset, bs)
    }

    constructor (queueDepth: int, pattern: string, mix: int, dataset: u64, bs: u64, tid: u64)
      requires -0x8000_0000 <= queueDepth < 0x8000_0000
      requires Paged(bs, dataset)
      ensures Valid() && fresh(ring) && fresh(inflight) && pending == 0 && !expired && log == Log([], [], [], [])
      ensures inflight.Length == (if queueDepth < 1 then 1 else queueDepth) && cursor == StartCursor(tid, bs)
      ensures this.pattern == pattern && this.mix == mix && this.dataset == dataset && this.bs == bs && this.tid == tid
    {
      var qd := QueueDepth(queueDepth);
      ring := new Ring(RingEntries(qd));
      inflight := new Option<Op>[qd](_ => None);
      this.pattern, this.mix, this.dataset, this.bs, this.tid := pattern, mix, dataset, bs, tid;
      pending := 0;
      cursor := StartCursor(tid, bs);
      expired := false;
      log := Log([], [], [], []);
      new;
      HeldNone(inflight[..]);
      CursorPaged(tid, bs, 0);
    }

    /** start.elapsed() < duration: true until it is false for ever. */
    method Running() returns (running: bool)
      modifies this`expired
      ensures running <==> !expired
      ensures old(expired) ==> expired
    {
      var passed: bool := *;
      expired := expired || passed;
      running := !expired;
    }

    method FirstFree() returns (slot: Option<nat>)
      ensures slot.Some? ==>
        && slot.value < inflight.Length && inflight[slot.value].None?
        && forall i :: 0 <= i < slot.value ==> inflight[i].Some?
      ensures slot.None? ==> forall i :: 0 <= i < inflight.Length ==> inflight[i].Some?
    {
      var i := 0;
      while i < inflight.Length
        invariant 0 <= i <= inflight.Length
        invariant forall j :: 0 <= j < i ==> inflight[j].Some?
      {
        if inflight[i].None? {
          return Some(i);
        }
        i := i + 1;
      }
      return None;
    }

    /** The guard of the inner loop. */
    method MayPush() returns (go: bool)
      modifies this`expired
      ensures go <==> pending < inflight.Length && !expired
      ensures old(expired) ==> expired
    {
      go := pending < inflight.Length;
      if go {
        go := Running();
      } else {
        return false;
      }
    }

    /** The inner loop: fills free slots until the queue is full or time is up. Nothing else
        stops it: a free slot is always found and a push never fails. */
    method FillSlots()
      requires Valid()
      modifies this`pending, this`cursor, this`expired, this`log, ring, inflight
      ensures Valid() && old(pending) <= pending <= inflight.Length
      ensures pending == inflight.Length || expired
      ensures |log.issued| == old(|log.issued|) + pending - old(pending)
      ensures ring.failures == old(ring.failures)
      ensures old(expired) ==> expired && pending == old(pending) && ring.cq == old(ring.cq)
    {
      HeldSize(inflight[..]);
      var go := MayPush();
      while go
        invariant Valid() && old(pending) <= pending <= inflight.Length
        invariant go <==> pending < inflight.Length && !expired
        invariant |log.issued| == old(|log.issued|) + pending - old(pending)
        invariant ring.failures == old(ring.failures)
        invariant old(expired) ==> expired && pending == old(pending) && ring.cq == old(ring.cq)
        decreases inflight.Length - pending
      {
        var pushed := FillOne();
        if !pushed {
          break;
        }
        go := MayPush();
      }
    }

    method FillOne() returns (pushed: bool)
      requires Valid() && pending < inflight.Length
      modifies this`pending, this`cursor, this`log, ring, inflight
      ensures Valid() && pushed && pending == old(pending) + 1
      ensures |log.issued| == old(|log.issued|) + 1 && ring.failures == old(ring.failures)
    {
      HeldSize(inflight[..]);
      var slot := FirstFree();
      if slot.None? {
        return false;
      }
      pushed := PushAt(slot.value);
    }

    /** The kind and the block of the next request; the cursor moves on. */
    method NextRequest(slot: nat) returns (q: Request)
      requires Valid()
      modifies this`cursor
      ensures q.slot == slot && InBounds(q.offset, dataset, bs) && cursor % PAGE == 0
      ensures log.Pushed(q).FollowsPattern(pattern, mix, dataset, bs, tid)
      ensures MaxOffset(dataset, bs) > 0 && !IsRandom(pattern) ==> cursor == CursorAt(tid, bs, |log.issued| + 1)
    {
      hide ShouldWrite, KindAllowed, OffsetChosen, IsRandom, MaxOffset, Held, EntriesOf, KindsKept;
      var write, offset, next, draw, step := Draw(pattern, mix, dataset, bs, cursor, tid);
      q := Request(slot, write, offset);
      PatternPush(log, pattern, mix, dataset, bs, tid, q, draw, step);
      cursor := next;
    }

    /** One push into a free slot, whose buffer nothing in flight refers to. */
    method PushAt(slot: nat) returns (pushed: bool)
      requires Valid() && slot < inflight.Length && inflight[slot].None? && pending < inflight.Length
      modifies this`pending, this`cursor, this`log, ring, inflight
      ensures Valid() && pushed
      ensures forall e :: e in old(ring.Pool()) ==> e.slot != slot
      ensures pending == old(pending) + 1 && inflight[slot].Some?
      ensures |log.issued| == old(|log.issued|) + 1 && ring.failures == old(ring.failures)
    {
      hide Held, EntriesOf, Done, KindAllowed, OffsetChosen, IsRandom, CursorAt, MaxOffset;
      ghost var pool := ring.Pool();
      var q := NextRequest(slot);
      QueueShorterThanPool(ring.sq, ring.kernel, multiset(Done(ring.cq)));
      pushed := ring.Push(Entry(slot, |log.issued|));
      if !pushed {
        return;
      }
      Occupy(q, pool);
    }

    /** The bookkeeping of a push. */
    method Occupy(q: Request, ghost pool: multiset<Entry>)
      requires Consistent(pool) && q.slot < inflight.Length && inflight[q.slot].None?
      requires InBounds(q.offset, dataset, bs)
      modifies this`pending, this`log, inflight
      ensures Consistent(pool + multiset{Entry(q.slot, old(|log.issued|))})
      ensures forall e :: e in pool ==> e.slot != q.slot
      ensures pending == old(pending) + 1 && inflight[q.slot].Some? && log == old(log).Pushed(q)
    {
      ghost var slots := inflight[..];
      var op := Op(|log.issued|, q.write);
      PushKeeps(slots, q.slot, op);
      AccountPush(log, pool, q, dataset, bs);
      inflight[q.slot] := Some(op);
      pending := pending + 1;
      log := log.Pushed(q);
      assert inflight[..] == slots[q.slot := Some(op)];
    }

    /** One completion: its slot is freed and the operation recorded, or dropped if failed. */
    method Handle(c: Completion, ghost pool: multiset<Entry>)
      requires Consistent(pool + multiset{c.entry})
      modifies this`pending, this`log, inflight
      ensures Consistent(pool) && old(pending) > 0 && pending == old(pending) - 1
      ensures c.entry.id < |old(log).issued|
      ensures log == old(log).Reaped(c.entry, c.ok)
      ensures c.ok ==> log.recorded == old(log).recorded + [c.entry] && log.errored == old(log).errored
      ensures !c.ok ==> log.errored == old(log).errored + [c.entry] && log.recorded == old(log).recorded
    {
      ghost var slots := inflight[..];
      TakeKeeps(slots, c.entry, pool);
      AccountReap(log, pool, c.entry, c.ok);
      var slot := c.entry.slot;
      if slot < inflight.Length {
        if c.ok {
          if inflight[slot].Some? {
            log := log.Recorded(Entry(slot, inflight[slot].value.id), inflight[slot].value.write);
            inflight[slot] := None;
          }
        } else {
          log := log.Errored(c.entry);
          inflight[slot] := None;
        }
      }
      assert inflight[..] == slots[slot := None];
      pending := SaturatingSub(pending, 1);
    }

    /** Handling the completion that the ring has just handed out. */
    method HandleReaped(c: Completion, ghost before: seq<Completion>)
      requires Consistent(ring.Pool() + multiset{c.entry})
      requires ring.reaped == before + [c] && log.FollowsCompletions(before)
      modifies this`pending, this`log, inflight
      ensures Consistent(ring.Pool()) && log.FollowsCompletions(ring.reaped) && log.issued == old(log.issued)
      ensures old(pending) > 0 && pending == old(pending) - 1 && log.Count() == old(log.Count()) + 1
    {
      hide Held, Entries;
      EntriesAppend(before, c);
      Handle(c, ring.Pool());
    }

    method Reap() returns (reaped: nat)
      requires Valid()
      modifies this`pending, this`log, ring, inflight
      ensures Valid() && pending + reaped == old(pending)
      ensures log.Count() == old(log.Count()) + reaped
      ensures ring.failures == old(ring.failures) && (old(|ring.cq|) > 0 ==> reaped > 0)
    {
      hide Held, Entries, EntriesOf, Done, KindAllowed, OffsetChosen, IsRandom, CursorAt, MaxOffset;
      reaped := 0;
      ghost var before := ring.reaped;
      var c := ring.NextCompletion();
      while c.Some?
        invariant c.Some? ==> Consistent(ring.Pool() + multiset{c.value.entry})
        invariant c.None? ==> Consistent(ring.Pool())
        invariant log.issued == old(log.issued)
        invariant log.FollowsCompletions(before)
        invariant c.Some? ==> ring.reaped == before + [c.value]
        invariant c.None? ==> ring.reaped == before
        invariant pending + reaped == old(pending)
        invariant log.Count() == old(log.Count()) + reaped
        invariant ring.failures == old(ring.failures) && (old(|ring.cq|) > 0 ==> reaped > 0 || c.Some?)
        decreases pending, c.Some?
      {
        reaped := reaped + 1;
        HandleReaped(c.value, before);
        before := ring.reaped;
        c := ring.NextCompletion();
      }
    }

    /** Twice the operations in flight, less one if a completion is visible. */
    ghost function Outstanding(): (n: nat)
      requires Valid()
      reads this, ring, inflight
      ensures pending > 0 ==> n > 0
    {
      VisibleInPool(ring.sq, ring.kernel, ring.cq);
      2 * pending - if ring.cq == [] then 0 else 1
    }

    /** The second half of the outer loop's body. If no submit fails it reaps an operation, or a
        completion has become visible. */
    method SubmitAndReap()
      requires Valid() && pending > 0
      modifies this`pending, this`log, ring, inflight
      ensures Valid() && pending <= old(pending) && ring.failures >= old(ring.failures)
      ensures ring.failures == old(ring.failures) ==> Outstanding() < old(Outstanding())
    {
      var ok := ring.Submit();
      if !ok {
        return;
      }
      var reaped := Reap();
      if reaped == 0 {
        ok := ring.SubmitAndWait();
      }
    }

    /** The body of the outer loop. */
    method Turn()
      requires Valid()
      modifies this`pending, this`cursor, this`expired, this`log, ring, inflight
      ensures Valid() && pending <= inflight.Length && ring.failures >= old(ring.failures)
      ensures old(expired) ==> expired && pending <= old(pending)
      ensures old(expired) && old(pending) > 0 && ring.failures == old(ring.failures) ==>
        Outstanding() < old(Outstanding())
    {
      FillSlots();
      if pending != 0 {
        SubmitAndReap();
      }
    }

    /** The worker, watched for any number of turns of its outer loop. Whenever it stops by
        itself the rings are empty, and every pushed operation has been reaped exactly once,
        recorded or failed; and once time is up it stops within two turns for each operation in
        flight and one more, if no submit fails. */
    method Work(turns: nat) returns (exited: bool)
      requires Valid()
      modifies this`pending, this`cursor, this`expired, this`log, ring, inflight
      ensures Valid()
      ensures exited ==>
        && expired && pending == 0
        && ring.sq == [] && ring.kernel == multiset{} && ring.cq == []
        && multiset(EntriesOf(log.issued)) == multiset(log.recorded) + multiset(log.errored)
        && log.Settled() && log.FollowsCompletions(ring.reaped)
        && log.FollowsPattern(pattern, mix, dataset, bs, tid)
      ensures old(expired) && ring.failures == old(ring.failures) && turns > 2 * old(pending) ==> exited
    {
      hide Held, EntriesOf, Done, Entries, KindAllowed, OffsetChosen, IsRandom, CursorAt, MaxOffset;
      exited := false;
      var n := 0;
      while n < turns
        invariant n <= turns && Valid() && ring.failures >= old(ring.failures)
        invariant old(expired) && ring.failures == old(ring.failures) ==>
          expired && n + Outstanding() <= 2 * old(pending)
      {
        var running := Running();
        if !running && pending == 0 {
          exited := true;
          NothingInFlight(ring.sq, ring.kernel, ring.cq, log);
          return;
        }
        Turn();
        n := n + 1;
      }
    }
  }

  lemma NothingInFlight(sq: seq<Entry>, kernel: multiset<Entry>, cq: seq<Completion>, log: Log)
    requires |multiset(sq) + kernel + multiset(Done(cq))| == 0
    requires log.Accounts(multiset(sq) + kernel + multiset(Done(cq))) && log.KindsRecorded()
    ensures sq == [] && kernel == multiset{} && cq == [] && log.Settled()
    ensures multiset(EntriesOf(log.issued)) == multiset(log.recorded) + multiset(log.errored)
  {
    RingsEmpty(sq, kernel, cq);
    assert |multiset(EntriesOf(log.issued))| == |log.issued|;
  }

  lemma RingsEmpty(sq: seq<Entry>, kernel: multiset<Entry>, cq: seq<Completion>)
    requires |multiset(sq) + kernel + multiset(Done(cq))| == 0
    ensures sq == [] && kernel == multiset{} && cq == []
  {
    assert |multiset(sq)| == |sq| && |multiset(Done(cq))| == |cq|;
  }

  lemma VisibleInPool(sq: seq<Entry>, kernel: multiset<Entry>, cq: seq<Completion>)
    ensures |cq| <= |multiset(sq) + kernel + multiset(Done(cq))|
  {
    assert |multiset(Done(cq))| == |cq|;
  }

  lemma QueueShorterThanPool(sq: seq<Entry>, kernel: multiset<Entry>, done: multiset<Entry>)
    ensures |sq| <= |multiset(sq) + kernel + done|
  {
  }
}
