/** Range resolution and the chunk plan: how a transfer of `total` bytes is cut
    into uniform chunks and one tail. Every 64-bit sum and product is taken with
    its wrap-around, so that its absence is something proved. */
module Chunking {
  import opened Basics
  import opened Arith

  datatype ByteRange = ByteRange(offset: U64, length: U64)

  datatype Chunk = Chunk(index: U64, sourceOffset: U64, destOffset: U64, length: U64, isTail: bool)

  datatype PlanInput = PlanInput(
    total: U64,
    sourceOffset: U64,
    destOffset: U64,
    minChunk: U64,
    maxChunk: U64,
    preferred: U64,
    alignment: U64)

  datatype Plan = Plan(
    total: U64,
    chunkSize: U64,
    chunkCount: U64,
    alignment: U64,
    sourceOffset: U64,
    destOffset: U64,
    tailSize: U64)

  // ---- Building a plan ----------------------------------------------------

  /** The inputs `build` does not throw on. */
  predicate Buildable(i: PlanInput) {
    0 < i.minChunk <= i.maxChunk && 0 < i.alignment
  }

  function Clamp(x: int, lo: int, hi: int): int
    requires lo <= hi
  {
    if x < lo then lo else if x > hi then hi else x
  }

  function AlignDown(x: nat, alignment: nat): nat
    requires alignment > 0
  {
    (x / alignment) * alignment
  }

  /** The preferred size after the first clamp. */
  function Wanted(i: PlanInput): nat
    requires Buildable(i)
  {
    Clamp(if i.preferred == 0 then i.minChunk else i.preferred, i.minChunk, i.maxChunk)
  }

  predicate Aligned(size: nat, alignment: nat)
    requires alignment > 0
  {
    size % alignment == 0
  }

  /** The preferred size is met as nearly as the bounds allow. */
  lemma WantedIsNearest(i: PlanInput, s: nat)
    requires Buildable(i) && i.minChunk <= s <= i.maxChunk
    ensures i.minChunk <= Wanted(i) <= i.maxChunk
    ensures i.preferred == 0 ==> Wanted(i) == i.minChunk
    ensures i.preferred > 0 && s <= i.preferred ==> s <= Wanted(i)
    ensures i.preferred > 0 && s >= i.preferred ==> s >= Wanted(i)
  {
  }

  /** The size is the largest aligned one within the bounds and not above the
      clamped preference. Where there is none, it is the minimum if the
      preference holds a whole unit of alignment; if not, it is that unit, as
      far as the maximum allows. */
  ghost predicate BestSize(i: PlanInput, size: nat)
    requires Buildable(i)
  {
    && i.minChunk <= size <= i.maxChunk
    && (forall s: nat :: Aligned(s, i.alignment) && i.minChunk <= s <= Wanted(i) ==>
          s <= size <= Wanted(i) && Aligned(size, i.alignment))
    && ((forall s: nat :: Aligned(s, i.alignment) ==> !(i.minChunk <= s <= Wanted(i))) ==>
          size == if i.alignment <= Wanted(i) then i.minChunk else Min(i.alignment, i.maxChunk))
  }

  /** A plan that cuts `total` exactly: full chunks, then a shorter tail. */
  predicate Exact(p: Plan) {
    if p.total == 0 then p.chunkCount == 0 && p.tailSize == 0 else
      && 0 < p.chunkSize
      && 0 < p.chunkCount
      && p.tailSize < p.chunkSize
      && p.total == (if p.tailSize == 0 then p.chunkCount * p.chunkSize
                     else (p.chunkCount - 1) * p.chunkSize + p.tailSize)
  }

  /** The preference, clamped, aligned down and clamped again. */
  method ChooseSize(i: PlanInput) returns (base: U64)
    requires Buildable(i)
    ensures BestSize(i, base)
  {
    var chunk := i.preferred;
    if chunk == 0 { chunk := i.minChunk; }
    if chunk < i.minChunk { chunk := i.minChunk; }
    if chunk > i.maxChunk { chunk := i.maxChunk; }
    AlignDownBelow(chunk, i.alignment);
    base := (chunk / i.alignment) * i.alignment;
    if base == 0 { base := i.alignment; }
    if base < i.minChunk { base := i.minChunk; }
    if base > i.maxChunk { base := i.maxChunk; }
    SizeIsBest(i, base);
  }

  method Build(i: PlanInput) returns (r: Result<Plan>)
    ensures r.Ok? <==> Buildable(i)
    ensures r.Err? ==> r.error == InvalidRequest
    ensures r.Ok? ==> Exact(r.value)
    ensures r.Ok? ==> r.value.total == i.total && r.value.alignment == i.alignment
    ensures r.Ok? ==> r.value.sourceOffset == i.sourceOffset && r.value.destOffset == i.destOffset
    ensures r.Ok? && i.total > 0 ==> BestSize(i, r.value.chunkSize)
  {
    if i.minChunk == 0 { return Err(InvalidRequest); }
    if i.maxChunk < i.minChunk { return Err(InvalidRequest); }
    if i.alignment == 0 { return Err(InvalidRequest); }
    if i.total == 0 {
      var size := if i.preferred != 0 then i.preferred else i.minChunk;
      return Ok(Plan(0, size, 0, i.alignment, i.sourceOffset, i.destOffset, 0));
    }
    var base := ChooseSize(i);
    var count := i.total / base;
    var rem := i.total % base;
    DivBounds(i.total, base);
    var tail := 0;
    if rem != 0 {
      tail := rem;
      count := count + 1;
    }
    r := Ok(Plan(i.total, base, count, i.alignment, i.sourceOffset, i.destOffset, tail));
  }

  lemma AlignDownBelow(x: nat, a: nat)
    requires a > 0
    ensures 0 <= AlignDown(x, a) <= x < AlignDown(x, a) + a
    ensures AlignDown(x, a) % a == 0
  {
    DivBounds(x, a);
    DivModUnique((x / a) * a, a, x / a, 0);
  }

  /** How the size comes from the aligned preference. */
  predicate SizeFrom(i: PlanInput, aligned: nat, size: nat)
    requires Buildable(i)
  {
    size == Clamp(if aligned == 0 then i.alignment else aligned, i.minChunk, i.maxChunk)
  }

  lemma SizeIsBest(i: PlanInput, size: nat)
    requires Buildable(i) && SizeFrom(i, AlignDown(Wanted(i), i.alignment), size)
    ensures BestSize(i, size)
  {
    var w, a := Wanted(i), i.alignment;
    forall s: nat | Aligned(s, a) && i.minChunk <= s <= w ensures s <= size <= w && Aligned(size, a) {
      LargestTaken(i, size, s);
    }
    if forall s: nat :: Aligned(s, a) ==> !(i.minChunk <= s <= w) { NoneAligned(i, size); }
  }

  lemma LargestTaken(i: PlanInput, size: nat, s: nat)
    requires Buildable(i) && SizeFrom(i, AlignDown(Wanted(i), i.alignment), size)
    requires Aligned(s, i.alignment) && i.minChunk <= s <= Wanted(i)
    ensures s <= size <= Wanted(i) && Aligned(size, i.alignment)
  {
    AlignDownBelow(Wanted(i), i.alignment);
    LargestAligned(s, Wanted(i), i.alignment);
    assert size == AlignDown(Wanted(i), i.alignment);
  }

  lemma NoneAligned(i: PlanInput, size: nat)
    requires Buildable(i) && SizeFrom(i, AlignDown(Wanted(i), i.alignment), size)
    requires forall s: nat :: Aligned(s, i.alignment) ==> !(i.minChunk <= s <= Wanted(i))
    ensures size == if i.alignment <= Wanted(i) then i.minChunk else Min(i.alignment, i.maxChunk)
  {
    var aligned := AlignDown(Wanted(i), i.alignment);
    AlignDownBelow(Wanted(i), i.alignment);
    WholeUnits(Wanted(i), i.alignment);
    assert Aligned(aligned, i.alignment);
  }

  /** Aligning down leaves something exactly when there is a whole unit. */
  lemma WholeUnits(x: nat, a: nat)
    requires a > 0
    ensures if a <= x then a <= AlignDown(x, a) else AlignDown(x, a) == 0
  {
    DivBounds(x, a);
    if a <= x {
      DivModUnique(a, a, 1, 0);
      LargestAligned(a, x, a);
    } else {
      DivModUnique(x, a, 0, x);
    }
  }

  /** With a minimum that is itself aligned, the size is the largest aligned one
      not above the clamped preference. */
  lemma AlignedMinimum(i: PlanInput, size: nat)
    requires Buildable(i) && Aligned(i.minChunk, i.alignment) && BestSize(i, size)
    ensures Aligned(size, i.alignment) && size <= Wanted(i)
    ensures forall s: nat :: Aligned(s, i.alignment) && s <= Wanted(i) ==> s <= size
  {
    assert Aligned(i.minChunk, i.alignment) && i.minChunk <= Wanted(i);
  }

  /** No other size would do. */
  lemma BestSizeUnique(i: PlanInput, s: nat, t: nat)
    requires Buildable(i) && BestSize(i, s) && BestSize(i, t)
    ensures s == t
  {
    if u: nat :| Aligned(u, i.alignment) && i.minChunk <= u <= Wanted(i) {
      assert Aligned(s, i.alignment) && Aligned(t, i.alignment);
    }
  }

  lemma LargestAligned(s: nat, x: nat, a: nat)
    requires a > 0 && s % a == 0 && s <= x
    ensures s <= AlignDown(x, a)
  {
    DivBounds(s, a);
    DivBounds(x, a);
    if s / a > x / a {
      MulMonotone(x / a + 1, s / a, a);
      MulSucc(x / a, a);
    } else {
      MulMonotone(s / a, x / a, a);
    }
  }

  /** The exact plan with a given chunk size. */
  function PlanWith(total: U64, size: U64, sourceOffset: U64, destOffset: U64, alignment: U64): (p: Plan)
    requires 0 < size
    ensures Exact(p)
  {
    DivBounds(total, size);
    var full, tail := total / size, total % size;
    Plan(total, size, if tail == 0 then full else full + 1, alignment, sourceOffset, destOffset, tail)
  }

  /** The total and the chunk size leave no choice for the rest. */
  lemma ExactUnique(p: Plan, q: Plan)
    requires Exact(p) && Exact(q) && 0 < p.chunkSize == q.chunkSize && p.total == q.total
    ensures p.chunkCount == q.chunkCount && p.tailSize == q.tailSize
  {
    if p.total > 0 {
      var s := p.chunkSize;
      var a, b := if p.tailSize == 0 then p.chunkCount else p.chunkCount - 1,
                  if q.tailSize == 0 then q.chunkCount else q.chunkCount - 1;
      DivModUnique(p.total, s, a, p.tailSize);
      DivModUnique(q.total, s, b, q.tailSize);
    }
  }

  // ---- One chunk ----------------------------------------------------------

  function CheckedMul(a: U64, b: U64): (r: Option<U64>)
    ensures r.Some? <==> a * b < TWO64
    ensures r.Some? ==> r.value == a * b
  {
    if a != 0 && b > (TWO64 - 1) / a then
      QuotientBelow(TWO64 - 1, a, b);
      None
    else
      if a != 0 then QuotientBelow(TWO64 - 1, a, b); Some(a * b) else Some(0)
  }

  lemma QuotientBelow(m: nat, a: nat, b: nat)
    requires a > 0
    ensures b <= m / a <==> a * b <= m
  {
    DivBounds(m, a);
    if b <= m / a {
      MulMonotone(b, m / a, a);
    } else {
      MulMonotone(m / a + 1, b, a);
      MulSucc(m / a, a);
    }
  }

  function CheckedAdd(a: U64, b: U64): (r: Option<U64>)
    ensures r.Some? <==> a + b < TWO64
    ensures r.Some? ==> r.value == a + b
  {
    if b > TWO64 - 1 - a then None else Some(a + b)
  }

  function ChunkAt(p: Plan, i: U64): Result<Chunk> {
    if i >= p.chunkCount then Err(InvalidRequest) else
      match CheckedMul(i, p.chunkSize)
      case None => Err(InvalidRequest)
      case Some(off) =>
        var tail := Wrap(i + 1) == p.chunkCount && p.tailSize != 0;
        var length := if tail then p.tailSize else p.chunkSize;
        match CheckedAdd(off, length)
        case None => Err(InvalidRequest)
        case Some(end) =>
          if end > p.total then Err(InvalidRequest) else
            Ok(Chunk(i, Wrap(p.sourceOffset + off), Wrap(p.destOffset + off), length, tail))
  }

  // ---- Tiling -------------------------------------------------------------

  /** Where chunk `i` starts, relative to the range; the end when `i` is the
      chunk count. */
  function Start(p: Plan, i: nat): nat {
    if i >= p.chunkCount then p.total else i * p.chunkSize
  }

  /** The range the plan covers does not run past the 64-bit offsets. */
  predicate InRange(p: Plan) {
    p.sourceOffset + p.total < TWO64 && p.destOffset + p.total < TWO64
  }

  lemma StartStep(p: Plan, i: nat)
    requires Exact(p) && i < p.chunkCount
    ensures Start(p, i) < Start(p, i + 1) <= p.total
    ensures Start(p, i + 1) - Start(p, i) ==
      (if i + 1 == p.chunkCount && p.tailSize != 0 then p.tailSize else p.chunkSize)
  {
    MulSucc(i, p.chunkSize);
    if i + 1 < p.chunkCount {
      MulMonotone(i + 1, p.chunkCount - 1, p.chunkSize);
      MulSucc(p.chunkCount - 1, p.chunkSize);
    }
  }

  lemma {:induction false} StartMonotone(p: Plan, i: nat, j: nat)
    requires Exact(p) && i <= j
    ensures Start(p, i) <= Start(p, j) <= p.total
    decreases j - i
  {
    if i < j {
      if j - 1 < p.chunkCount { StartStep(p, j - 1); }
      StartMonotone(p, i, j - 1);
    } else if i < p.chunkCount {
      StartStep(p, i);
    }
  }

  /** `chunk_at` succeeds on every index below the count, and its chunk is
      exactly the next piece of the range; no offset wraps. */
  lemma ChunkAtTiles(p: Plan, i: nat)
    requires Exact(p) && InRange(p) && i < p.chunkCount
    ensures var c := ChunkAt(p, i);
      && c.Ok?
      && c.value.index == i
      && c.value.sourceOffset == p.sourceOffset + Start(p, i)
      && c.value.destOffset == p.destOffset + Start(p, i)
      && c.value.length == Start(p, i + 1) - Start(p, i) > 0
  {
    StartStep(p, i);
  }

  /** Every byte of the range lies in exactly one chunk. */
  lemma {:induction false} ByteOwner(p: Plan, x: nat) returns (i: nat)
    requires Exact(p) && x < p.total
    ensures i < p.chunkCount && Start(p, i) <= x < Start(p, i + 1)
    ensures forall j: nat :: j < p.chunkCount && Start(p, j) <= x < Start(p, j + 1) ==> j == i
  {
    i := 0;
    while Start(p, i + 1) <= x
      invariant i < p.chunkCount && Start(p, i) <= x
      decreases p.chunkCount - i
    {
      i := i + 1;
    }
    forall j: nat | j < p.chunkCount && Start(p, j) <= x < Start(p, j + 1) ensures j == i {
      if j < i { StartMonotone(p, j + 1, i); }
      if i < j { StartMonotone(p, i + 1, j); }
    }
  }

  /** A list of chunks that covers `[source, source + total)` and its
      destination image from left to right, leaving no gap and no overlap. */
  predicate Tiles(chunks: seq<Chunk>, source: nat, dest: nat, total: nat)
    decreases |chunks|
  {
    if chunks == [] then total == 0 else
      var c := chunks[|chunks| - 1];
      && 0 < c.length <= total
      && c.index == |chunks| - 1
      && c.sourceOffset == source + total - c.length
      && c.destOffset == dest + total - c.length
      && Tiles(chunks[..|chunks| - 1], source, dest, total - c.length)
  }

  /** `v` lists the first chunks of the plan. */
  predicate Lists(p: Plan, v: seq<Chunk>) {
    |v| <= p.chunkCount && forall i :: 0 <= i < |v| ==> ChunkAt(p, i) == Ok(v[i])
  }

  lemma ListsNext(p: Plan, v: seq<Chunk>, c: Chunk)
    requires |v| < p.chunkCount && Lists(p, v) && ChunkAt(p, |v|) == Ok(c)
    ensures Lists(p, v + [c])
  {
  }

  method Materialize(p: Plan) returns (v: seq<Chunk>)
    requires Exact(p) && InRange(p)
    ensures |v| == p.chunkCount
    ensures forall i :: 0 <= i < |v| ==> ChunkAt(p, i) == Ok(v[i])
    ensures Tiles(v, p.sourceOffset, p.destOffset, p.total)
  {
    v := [];
    for i := 0 to p.chunkCount
      invariant |v| == i && Lists(p, v)
      invariant Tiles(v, p.sourceOffset, p.destOffset, Start(p, i))
    {
      ChunkAtTiles(p, i);
      var c := ChunkAt(p, i).value;
      ListsNext(p, v, c);
      TilesNext(p, v, i, c);
      v := v + [c];
    }
  }

  lemma TilesNext(p: Plan, v: seq<Chunk>, i: nat, c: Chunk)
    requires Exact(p) && InRange(p) && i < p.chunkCount && |v| == i && ChunkAt(p, i) == Ok(c)
    requires Tiles(v, p.sourceOffset, p.destOffset, Start(p, i))
    ensures Tiles(v + [c], p.sourceOffset, p.destOffset, Start(p, i + 1))
  {
    ChunkAtTiles(p, i);
    assert (v + [c])[..i] == v;
  }

  // ---- Range resolution ---------------------------------------------------

  /** The whole source when no length is given. */
  function SourceRange(src: ByteRange, srcSize: U64): ByteRange {
    if src.length == 0 then ByteRange(0, srcSize) else src
  }

  function DestRange(dst: ByteRange, bytes: U64): ByteRange {
    if dst.length == 0 then ByteRange(0, bytes) else dst
  }

  datatype Ranges = Ranges(src: ByteRange, dst: ByteRange, bytes: U64)

  method ResolveRanges(srcSize: U64, dstSize: U64, src: ByteRange, dst: ByteRange)
    returns (r: Result<Ranges>)
    ensures r.Err? ==> r.error == InvalidRequest
    // Accepted exactly when both ranges fit, with sums taken without wrap.
    ensures var s := SourceRange(src, srcSize);
      var d := DestRange(dst, s.length);
      r.Ok? <==>
        && s.offset + s.length <= srcSize
        && s.length <= d.length
        && d.offset + s.length <= dstSize
    ensures r.Ok? ==> r.value == Ranges(SourceRange(src, srcSize),
                                        DestRange(dst, r.value.src.length), r.value.src.length)
  {
    var srcRange, dstRange := src, dst;
    if srcRange.length == 0 { srcRange := ByteRange(0, srcSize); }
    if srcRange.offset > srcSize || srcRange.length > srcSize - srcRange.offset {
      return Err(InvalidRequest);
    }
    var bytes := srcRange.length;
    if dstRange.length == 0 { dstRange := ByteRange(0, bytes); }
    if dstRange.length < bytes { return Err(InvalidRequest); }
    if dstRange.offset > dstSize || bytes > dstSize - dstRange.offset {
      return Err(InvalidRequest);
    }
    return Ok(Ranges(srcRange, dstRange, bytes));
  }

  /** From a request to its chunks: whatever is accepted is cut into pieces
      that tile the transfer and lie inside both endpoints. */
  method PlanTransfer(srcSize: U64, dstSize: U64, src: ByteRange, dst: ByteRange,
                      maxChunk: U64, preferred: U64, alignment: U64)
    returns (r: Result<Plan>)
    ensures r.Ok? ==>
      && Exact(r.value) && InRange(r.value)
      && r.value.total == SourceRange(src, srcSize).length
    ensures r.Ok? ==> forall i: nat :: i < r.value.chunkCount ==>
      && ChunkAt(r.value, i).Ok?
      && var c := ChunkAt(r.value, i).value;
      && 0 < c.length
      && c.sourceOffset + c.length <= srcSize
      && c.destOffset + c.length <= dstSize
  {
    var ranges := ResolveRanges(srcSize, dstSize, src, dst);
    if ranges.Err? { return Err(ranges.error); }
    var Ranges(s, d, bytes) := ranges.value;
    r := Build(PlanInput(bytes, s.offset, d.offset, 4096, maxChunk, preferred, alignment));
    if r.Err? { return; }
    forall i: nat | i < r.value.chunkCount
      ensures && ChunkAt(r.value, i).Ok?
              && var c := ChunkAt(r.value, i).value;
              && 0 < c.length
              && c.sourceOffset + c.length <= srcSize
              && c.destOffset + c.length <= dstSize
    {
      ChunkAtTiles(r.value, i);
      StartStep(r.value, i);
    }
  }

  /** A request for zero bytes is never a no-op unless the source is empty: an
      empty source range stands for the whole source. */
  lemma ZeroBytesOnlyFromEmptySource(src: ByteRange, srcSize: U64)
    ensures SourceRange(src, srcSize).length == 0 <==> src.length == 0 && srcSize == 0
  {
  }
}
