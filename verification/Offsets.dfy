/** Block geometry and offset selection of the native engine, in 64-bit unsigned arithmetic
    that wraps, as a release build computes it. */
module Offsets {
  import opened Arithmetic
  import opened Options
  import opened Strings

  const PAGE := 4096
  const MIN_SIZE := 512
  const WRAP := 0x1_0000_0000_0000_0000

  type u64 = x: nat | x < WRAP

  lemma WrapIsPaged()
    ensures WRAP % PAGE == 0
  {
  }

  // ----- Geometry -----

  datatype Geometry =
    | Geometry(bs: u64, dataset: u64)
    | EmptyTarget
    | NotBlockLayer
    | DatasetTooSmall
    | DivisionByZero

  function WrappingAdd(x: u64, y: nat): u64 { (x + y) % WRAP }

  function AlignUp(n: u64, align: u64): u64
    requires 0 < align
  {
    AlignDown(WrappingAdd(WrappingAdd(n, align), WRAP - 1), align)
  }

  function AlignDown(n: u64, align: u64): u64
    requires 0 < align
  {
    RoundDown(n, align);
    n / align * align
  }

  /** A parsed size is never below 512. */
  type ParsedSize = x: u64 | x >= MIN_SIZE witness MIN_SIZE

  /** The cast of a floating-point number saturates; what is not a number becomes 0. */
  function CastToU64(x: Option<real>): u64 {
    match x
    case None => 0
    case Some(r) => if r < 0.0 then 0 else if r >= WRAP as real then WRAP - 1 else r.Floor
  }

  /** The end of size parsing, for the number and unit that the text denotes; None is not a
      number, and a text without one counts as 4096 units. */
  function ParsedBytes(number: Option<real>, unit: nat): ParsedSize {
    var bytes := CastToU64(match number case None => None case Some(n) => Some(n * unit as real));
    if bytes < MIN_SIZE then MIN_SIZE else bytes
  }

  /** Parsing keeps whole byte counts in range, and moves all others to the nearer end. */
  lemma ParsedBytesIs(n: nat, unit: nat)
    ensures ParsedBytes(Some(n as real), unit) ==
      if n * unit < 512 then 512
      else if n * unit < 0x1_0000_0000_0000_0000 then n * unit
      else 0xFFFF_FFFF_FFFF_FFFF
  {
    assert n as real * unit as real == (n * unit) as real;
  }

  /** The two sizes are the parsed block and data-set sizes. */
  function ValidateBlockCfg(target: string, layer: string, blockBytes: ParsedSize, datasetBytes: ParsedSize): Geometry {
    if target == "" then EmptyTarget
    else if layer != "block" then NotBlockLayer
    else
      var bs := AlignUp(blockBytes, PAGE);
      if bs == 0 then DivisionByZero
      else
        var dataset := AlignDown(datasetBytes, bs);
        if dataset < bs then DatasetTooSmall else Geometry(bs, dataset)
  }

  /** What a worker may rely on. */
  predicate Paged(bs: u64, dataset: u64) {
    0 < bs <= dataset && bs % PAGE == 0 && dataset % bs == 0
  }

  /** Rounding a size up to pages gives the least page multiple, unless it wraps to zero. */
  lemma AlignUpWraps(n: u64)
    ensures AlignUp(n, PAGE) % 4096 == 0
    ensures n == 0 || n > 0x1_0000_0000_0000_0000 - 4096 ==> AlignUp(n, PAGE) == 0
    ensures 0 < n <= 0x1_0000_0000_0000_0000 - 4096 ==> n <= AlignUp(n, PAGE) < n + 4096
  {
    var sum := WrappingAdd(WrappingAdd(n, PAGE), WRAP - 1);
    assert sum == if n <= WRAP - PAGE then n + PAGE - 1 else n + PAGE - 1 - WRAP;
    RoundDown(sum, PAGE);
  }

  /** An accepted geometry has the least page multiple that holds a block, and as many whole
      blocks as the data set has. Exactly a block size within a page of 2^64 makes the rounding
      wrap to zero and the division after it panic. */
  lemma AcceptedGeometry(target: string, layer: string, blockBytes: ParsedSize, datasetBytes: ParsedSize)
    ensures
      var g := ValidateBlockCfg(target, layer, blockBytes, datasetBytes);
      && (g.Geometry? ==>
            && Paged(g.bs, g.dataset)
            && blockBytes <= g.bs < blockBytes + PAGE
            && g.dataset <= datasetBytes < g.dataset + g.bs)
      && (g.DivisionByZero? <==> target != "" && layer == "block" && blockBytes > WRAP - PAGE)
      && (g.DatasetTooSmall? <==>
            target != "" && layer == "block" && blockBytes <= WRAP - PAGE && datasetBytes < AlignUp(blockBytes, PAGE))
  {
    AlignUpWraps(blockBytes);
    var bs := AlignUp(blockBytes, PAGE);
    if bs > 0 {
      AlignDownIs(datasetBytes, bs);
    }
  }

  /** Every block size of 2^64 bytes or more saturates and divides by zero: 1e30, for example. */
  lemma OversizedBlockDivides(target: string, n: real, unit: nat, datasetBytes: ParsedSize)
    requires target != "" && n >= WRAP as real && unit >= 1
    ensures ParsedBytes(Some(n), unit) == WRAP - 1
    ensures ValidateBlockCfg(target, "block", ParsedBytes(Some(n), unit), datasetBytes) == DivisionByZero
  {
    assert n * unit as real >= n by { assert n * (unit as real - 1.0) >= 0.0; }
    AcceptedGeometry(target, "block", ParsedBytes(Some(n), unit), datasetBytes);
  }

  lemma AlignDownIs(n: u64, align: u64)
    requires 0 < align
    ensures AlignDown(n, align) % align == 0 && AlignDown(n, align) <= n < AlignDown(n, align) + align
    ensures AlignDown(n, align) < align <==> n < align
  {
    RoundDown(n, align);
    if AlignDown(n, align) < align {
      RoundDownSmall(n, align);
    }
  }

  // ----- Choosing an offset -----

  function MaxOffset(dataset: u64, bs: u64): u64 { if dataset < bs then 0 else dataset - bs }

  /** The sequential cursor after one more operation of thread tid. */
  function Advance(cursor: u64, bs: u64, tid: u64): u64 {
    WrappingAdd(cursor, (bs * ((tid + 1) % WRAP)) % WRAP)
  }

  /** A whole block inside the data set, on a page boundary. */
  predicate InBounds(off: nat, dataset: u64, bs: u64) {
    off + bs <= dataset && off % PAGE == 0
  }

  predicate IsRandom(pattern: string) { Contains(ToLower(pattern), "rand") }

  predicate Contains(s: string, part: string) {
    exists i :: 0 <= i <= |s| && HasAt(s, i, part)
  }

  predicate HasAt(s: string, i: nat, part: string)
    requires i <= |s|
  {
    part <= s[i..]
  }

  /** The letters rand in a row, each in either case. */
  predicate RandAt(pattern: string, i: nat) {
    && i + 4 <= |pattern|
    && (pattern[i] == 'r' || pattern[i] == 'R') && (pattern[i + 1] == 'a' || pattern[i + 1] == 'A')
    && (pattern[i + 2] == 'n' || pattern[i + 2] == 'N') && (pattern[i + 3] == 'd' || pattern[i + 3] == 'D')
  }

  lemma LowerLetter(c: char, lower: char, upper: char)
    requires 'a' <= lower <= 'z' && upper as int + 32 == lower as int
    ensures LowerChar(c) == lower <==> c == lower || c == upper
  {
  }

  lemma FourAt(s: string, i: nat, part: string)
    requires |part| == 4 && i + 4 <= |s|
    ensures HasAt(s, i, part) <==>
      s[i] == part[0] && s[i + 1] == part[1] && s[i + 2] == part[2] && s[i + 3] == part[3]
  {
    assert s[i..][0] == s[i] && s[i..][1] == s[i + 1] && s[i..][2] == s[i + 2] && s[i..][3] == s[i + 3];
    if s[i] == part[0] && s[i + 1] == part[1] && s[i + 2] == part[2] && s[i + 3] == part[3] {
      assert part == s[i..][..4];
    }
  }

  lemma TooShort(s: string, i: nat, part: string)
    requires i <= |s| < i + |part|
    ensures !HasAt(s, i, part)
  {
  }

  lemma LowerRandAt(pattern: string, i: nat)
    requires i <= |pattern|
    ensures HasAt(ToLower(pattern), i, "rand") <==> RandAt(pattern, i)
  {
    hide LowerChar, HasAt, ToLower;
    var lower, part := ToLower(pattern), "rand";
    if i + 4 <= |pattern| {
      FourAt(lower, i, part);
      assert part[0] == 'r' && part[1] == 'a' && part[2] == 'n' && part[3] == 'd';
      LowerLetter(pattern[i], 'r', 'R');
      LowerLetter(pattern[i + 1], 'a', 'A');
      LowerLetter(pattern[i + 2], 'n', 'N');
      LowerLetter(pattern[i + 3], 'd', 'D');
    } else {
      TooShort(lower, i, part);
    }
  }

  /** Such a pattern is random, and no other. */
  lemma RandomIff(pattern: string)
    ensures IsRandom(pattern) <==> exists i :: 0 <= i < |pattern| && RandAt(pattern, i)
  {
    hide RandAt, HasAt, ToLower;
    var lower := ToLower(pattern);
    if IsRandom(pattern) {
      var i :| 0 <= i <= |lower| && HasAt(lower, i, "rand");
      LowerRandAt(pattern, i);
      RandAtInside(pattern, i);
    }
    if i :| 0 <= i < |pattern| && RandAt(pattern, i) {
      LowerRandAt(pattern, i);
      assert HasAt(lower, i, "rand");
    }
  }

  lemma RandAtInside(pattern: string, i: nat)
    requires RandAt(pattern, i)
    ensures i < |pattern|
  {
  }

  /** The highest offset is that of the last block. */
  lemma MaxOffsetIs(dataset: u64, bs: u64)
    requires 0 < bs
    ensures MaxOffset(dataset, bs) == 0 <==> dataset <= bs
    ensures Paged(bs, dataset) ==>
      MaxOffset(dataset, bs) == dataset - bs && MaxOffset(dataset, bs) / bs == dataset / bs - 1
  {
    if Paged(bs, dataset) {
      var q := dataset / bs;
      assert dataset - bs == bs * (q - 1);
      QuotientUnique(dataset - bs, bs, q - 1, 0);
    }
  }

  lemma MaxOffsetMultiple(dataset: u64, bs: u64)
    requires Paged(bs, dataset)
    ensures MaxOffset(dataset, bs) == bs * (MaxOffset(dataset, bs) / bs)
    ensures MaxOffset(dataset, bs) % PAGE == 0
  {
    var q := dataset / bs;
    assert dataset == bs * q;
    assert dataset - bs == bs * (q - 1);
    QuotientUnique(dataset - bs, bs, q - 1, 0);
    MultipleScale(q - 1, bs, PAGE);
    assert bs * (q - 1) == (q - 1) * bs;
  }

  lemma RandomStepInBounds(dataset: u64, bs: u64, step: nat)
    requires 0 < bs && step <= MaxOffset(dataset, bs) / bs
    ensures step * bs <= MaxOffset(dataset, bs) && (step * bs) % bs == 0
    ensures Paged(bs, dataset) ==> InBounds(step * bs, dataset, bs)
  {
    var n := MaxOffset(dataset, bs) / bs;
    RoundDown(MaxOffset(dataset, bs), bs);
    ScaleMonotone(bs, step, n);
    assert bs * step == step * bs && bs * n == n * bs;
    QuotientUnique(step * bs, bs, step, 0);
    if Paged(bs, dataset) {
      MultipleScale(step, bs, PAGE);
    }
  }

  lemma CursorStaysPaged(cursor: u64, bs: u64, tid: u64)
    requires cursor % PAGE == 0 && bs % PAGE == 0
    ensures Advance(cursor, bs, tid) % PAGE == 0
  {
    WrapIsPaged();
    var k := (tid + 1) % WRAP;
    MultipleScale(k, bs, PAGE);
    assert bs * k == k * bs;
    MultipleMod(bs * k, WRAP, PAGE);
    MultipleSum(cursor, (bs * k) % WRAP, PAGE);
    MultipleMod(cursor + (bs * k) % WRAP, WRAP, PAGE);
  }

  lemma SequentialInBounds(dataset: u64, bs: u64, cursor: u64)
    requires Paged(bs, dataset) && cursor % PAGE == 0 && MaxOffset(dataset, bs) > 0
    ensures InBounds(cursor % MaxOffset(dataset, bs), dataset, bs)
  {
    MaxOffsetMultiple(dataset, bs);
    MultipleMod(cursor, MaxOffset(dataset, bs), PAGE);
  }

  /** Block number step, as drawn from the numbers of all blocks. */
  method RandomOffset(dataset: u64, bs: u64, step: nat) returns (off: u64)
    requires 0 < bs && MaxOffset(dataset, bs) > 0 && step <= MaxOffset(dataset, bs) / bs
    ensures off == step * bs <= MaxOffset(dataset, bs)
    ensures Paged(bs, dataset) ==> InBounds(off, dataset, bs)
  {
    RandomStepInBounds(dataset, bs, step);
    off := step * bs;
  }

  /** Every block of the data set, the last included, is the draw of its own number. */
  lemma RandomDrawsBlocks(dataset: u64, bs: u64, step: nat)
    requires Paged(bs, dataset)
    ensures step <= MaxOffset(dataset, bs) / bs <==> (step + 1) * bs <= dataset
  {
    MaxOffsetIs(dataset, bs);
    var q := dataset / bs;
    assert dataset == q * bs;
    if step + 1 <= q {
      ScaleMonotone(bs, step + 1, q);
      assert bs * (step + 1) == (step + 1) * bs && bs * q == q * bs;
    } else {
      ScaleMonotone(bs, q + 1, step + 1);
      assert bs * (step + 1) == (step + 1) * bs && bs * (q + 1) == q * bs + bs;
    }
  }

  function SequentialOffset(dataset: u64, bs: u64, cursor: u64): (off: u64)
    requires MaxOffset(dataset, bs) > 0
    ensures off < MaxOffset(dataset, bs)
  {
    cursor % MaxOffset(dataset, bs)
  }

  lemma SequentialStepSafe(dataset: u64, bs: u64, cursor: u64, tid: u64)
    requires MaxOffset(dataset, bs) > 0 && Paged(bs, dataset) && cursor % PAGE == 0
    ensures InBounds(SequentialOffset(dataset, bs, cursor), dataset, bs)
    ensures Advance(cursor, bs, tid) % PAGE == 0
  {
    SequentialInBounds(dataset, bs, cursor);
    CursorStaysPaged(cursor, bs, tid);
  }

  /** pick_offset, with the block number that is drawn if the pattern is random. For every accepted
      geometry the block lies inside the data set, even after the cursor has wrapped. */
  method PickOffset(pattern: string, dataset: u64, bs: u64, cursor: u64, tid: u64, step: nat)
    returns (off: u64, next: u64)
    requires 0 < bs && step <= MaxOffset(dataset, bs) / bs
    ensures MaxOffset(dataset, bs) == 0 ==> off == 0 && next == cursor
    ensures MaxOffset(dataset, bs) > 0 && IsRandom(pattern) ==>
      next == cursor && off == step * bs <= MaxOffset(dataset, bs)
    ensures MaxOffset(dataset, bs) > 0 && !IsRandom(pattern) ==>
      off == SequentialOffset(dataset, bs, cursor) && next == Advance(cursor, bs, tid)
    ensures Paged(bs, dataset) && cursor % PAGE == 0 ==> InBounds(off, dataset, bs) && next % PAGE == 0
  {
    if MaxOffset(dataset, bs) == 0 {
      return 0, cursor;
    }
    if IsRandom(pattern) {
      off := RandomOffset(dataset, bs, step);
      return off, cursor;
    }
    if Paged(bs, dataset) && cursor % PAGE == 0 {
      SequentialStepSafe(dataset, bs, cursor, tid);
    }
    off := SequentialOffset(dataset, bs, cursor);
    next := Advance(cursor, bs, tid);
  }

  // ----- The sequential walk of one thread -----

  function StartCursor(tid: u64, bs: u64): u64 { (tid * bs) % WRAP }

  /** The cursor when thread tid picks its k-th offset. */
  function CursorAt(tid: u64, bs: u64, k: nat): u64 {
    if k == 0 then StartCursor(tid, bs) else Advance(CursorAt(tid, bs, k - 1), bs, tid)
  }

  function OffsetAt(tid: u64, bs: u64, dataset: u64, k: nat): u64
    requires MaxOffset(dataset, bs) > 0
  {
    SequentialOffset(dataset, bs, CursorAt(tid, bs, k))
  }

  /** The cursor has not wrapped up to operation k. */
  predicate Unwrapped(tid: u64, bs: u64, k: nat) {
    tid + 1 < WRAP && bs * (tid + k * (tid + 1)) < WRAP && bs * (tid + 1) < WRAP
  }

  lemma CursorPaged(tid: u64, bs: u64, k: nat)
    requires bs % PAGE == 0
    ensures CursorAt(tid, bs, k) % PAGE == 0
  {
    if k == 0 {
      WrapIsPaged();
      MultipleScale(tid, bs, PAGE);
      MultipleMod(tid * bs, WRAP, PAGE);
    } else {
      CursorPaged(tid, bs, k - 1);
      CursorStaysPaged(CursorAt(tid, bs, k - 1), bs, tid);
    }
  }

  /** Every offset any thread ever picks is inside the data set and on a page, for ever, and
      none is the data set's last block. */
  lemma SequentialWalkSafe(tid: u64, bs: u64, dataset: u64, k: nat)
    requires Paged(bs, dataset) && MaxOffset(dataset, bs) > 0
    ensures InBounds(OffsetAt(tid, bs, dataset, k), dataset, bs)
    ensures OffsetAt(tid, bs, dataset, k) != dataset - bs
  {
    CursorPaged(tid, bs, k);
    SequentialInBounds(dataset, bs, CursorAt(tid, bs, k));
  }

  lemma UnwrappedBelow(tid: u64, bs: u64, k: nat, top: nat)
    requires k <= top && Unwrapped(tid, bs, top)
    ensures Unwrapped(tid, bs, k)
  {
    ScaleMonotone(tid + 1, k, top);
    assert k * (tid + 1) == (tid + 1) * k && top * (tid + 1) == (tid + 1) * top;
    ScaleMonotone(bs, tid + k * (tid + 1), tid + top * (tid + 1));
  }

  /** One unwrapped step of the cursor, as block counts. */
  lemma AdvanceUnwrapped(tid: u64, bs: u64, k: nat, cursor: u64)
    requires k > 0 && Unwrapped(tid, bs, k)
    requires cursor == bs * (tid + (k - 1) * (tid + 1))
    ensures Advance(cursor, bs, tid) == bs * (tid + k * (tid + 1))
  {
    var before := tid + (k - 1) * (tid + 1);
    assert tid + k * (tid + 1) == before + (tid + 1);
    assert bs * (before + (tid + 1)) == bs * before + bs * (tid + 1);
    ModSmall(tid + 1, WRAP);
    ModSmall(bs * (tid + 1), WRAP);
    ModSmall(cursor + bs * (tid + 1), WRAP);
  }

  lemma {:induction false} CursorClosedForm(tid: u64, bs: u64, k: nat)
    requires Unwrapped(tid, bs, k)
    ensures CursorAt(tid, bs, k) == bs * (tid + k * (tid + 1))
  {
    if k == 0 {
      UnwrappedBelow(tid, bs, 0, k);
      assert tid * bs == bs * (tid + 0 * (tid + 1));
    } else {
      UnwrappedBelow(tid, bs, k - 1, k);
      CursorClosedForm(tid, bs, k - 1);
      AdvanceUnwrapped(tid, bs, k, CursorAt(tid, bs, k - 1));
    }
  }

  /** Block number, of n, of the k-th operation. */
  lemma OffsetClosedForm(tid: u64, bs: u64, dataset: u64, k: nat)
    requires Paged(bs, dataset) && MaxOffset(dataset, bs) > 0 && Unwrapped(tid, bs, k)
    ensures
      var n := MaxOffset(dataset, bs) / bs;
      n > 0 && OffsetAt(tid, bs, dataset, k) == bs * ((tid + k * (tid + 1)) % n)
  {
    CursorClosedForm(tid, bs, k);
    MaxOffsetMultiple(dataset, bs);
    ModScale(bs, tid + k * (tid + 1), MaxOffset(dataset, bs) / bs);
  }

  /** Two operations of a thread hit the same block exactly when n divides their distance
      times the stride. */
  lemma CollisionIff(tid: u64, bs: u64, dataset: u64, k: nat, k': nat)
    requires Paged(bs, dataset) && MaxOffset(dataset, bs) > 0
    requires Unwrapped(tid, bs, k) && Unwrapped(tid, bs, k')
    ensures
      var n := MaxOffset(dataset, bs) / bs;
      n > 0 && (OffsetAt(tid, bs, dataset, k) == OffsetAt(tid, bs, dataset, k') <==> ((k - k') * (tid + 1)) % n == 0)
  {
    var n := MaxOffset(dataset, bs) / bs;
    OffsetClosedForm(tid, bs, dataset, k);
    OffsetClosedForm(tid, bs, dataset, k');
    var x, x' := tid + k * (tid + 1), tid + k' * (tid + 1);
    SameRemainder(x, x', n);
    assert x - x' == (k - k') * (tid + 1);
    ScaleInjective(bs, x % n, x' % n);
  }

  /** Thread 0 hits block j exactly once in any n consecutive operations. */
  lemma ThreadZeroCovers(bs: u64, dataset: u64, first: nat, j: nat) returns (k: nat)
    requires Paged(bs, dataset) && MaxOffset(dataset, bs) > 0
    requires j < MaxOffset(dataset, bs) / bs
    requires Unwrapped(0, bs, first + MaxOffset(dataset, bs) / bs)
    ensures
      var n := MaxOffset(dataset, bs) / bs;
      && first <= k < first + n
      && OffsetAt(0, bs, dataset, k) == j * bs
      && forall k' :: first <= k' < first + n && OffsetAt(0, bs, dataset, k') == j * bs ==> k' == k
  {
    var n := MaxOffset(dataset, bs) / bs;
    var d := (j - first) % n;
    k := first + d;
    ModAdd(j - first, first, n);
    assert (d + first) % n == j % n;
    QuotientUnique(j, n, 0, j);
    UnwrappedBelow(0, bs, k, first + n);
    OffsetClosedForm(0, bs, dataset, k);
    assert bs * j == j * bs;
    forall k' | first <= k' < first + n && OffsetAt(0, bs, dataset, k') == j * bs
      ensures k' == k
    {
      UnwrappedBelow(0, bs, k', first + n);
      CollisionIff(0, bs, dataset, k, k');
      assert (k - k') * 1 == k - k';
      if k > k' {
        QuotientUnique(k - k', n, 0, k - k');
      } else if k < k' {
        QuotientUnique(k - k', n, -1, n + k - k');
      }
    }
  }
}
