/** The pipeline of the executor. Chunks run through rings of staging slots; on
    an overlapped route the last leg's copies are queued on streams and an
    engine moves their bytes at times of its own choosing. The engine's choices
    are an arbitrary list of operations taken at every point where it can act,
    so what is proved holds for every schedule. */
module Pipeline {
  import opened Basics
  import opened Chunking

  /** A queued copy: `len` bytes still to go from position `pos` of slot `slot`
      of the last ring to offset `to` of the destination. */
  datatype Copy = Copy(slot: nat, pos: nat, to: nat, len: nat)

  /** Memory the transfer can touch. `rings[j]` holds the staging slots of node
      `j`; `faults[k]` says that a copy on stream `k` has failed. */
  datatype Machine = Machine(
    dst: Bytes,
    rings: seq<seq<Bytes>>,
    streams: seq<seq<Copy>>,
    faults: seq<bool>)

  /** What stays fixed during one transfer. */
  datatype Job = Job(plan: Plan, legs: nat, depth: nat, src: Bytes, dst0: Bytes)

  predicate Ready(job: Job) {
    && Exact(job.plan) && InRange(job.plan)
    && 1 <= job.legs && 1 <= job.depth
    && job.plan.sourceOffset + job.plan.total <= |job.src|
    && job.plan.destOffset + job.plan.total <= |job.dst0|
  }

  function Overwrite(s: Bytes, at: nat, data: Bytes): (r: Bytes)
    requires at + |data| <= |s|
    ensures |r| == |s|
    ensures forall x :: 0 <= x < |s| ==> r[x] == if at <= x < at + |data| then data[x - at] else s[x]
  {
    s[..at] + data + s[at + |data|..]
  }

  // ---- The engine ---------------------------------------------------------

  datatype EngineOp = Move(stream: nat, bytes: nat) | Fault(stream: nat)

  /** A queued copy lies inside the memory it names. */
  predicate CopyFits(m: Machine, c: Copy) {
    && |m.rings| >= 2
    && var last := m.rings[|m.rings| - 2];
    && c.slot < |last| && c.pos + c.len <= |last[c.slot]| && c.to + c.len <= |m.dst|
  }

  /** What is left of copy `c` after `n` of its bytes. */
  function Rest(c: Copy, n: nat): seq<Copy>
    requires n <= c.len
  {
    if n == c.len then [] else [Copy(c.slot, c.pos + n, c.to + n, c.len - n)]
  }

  /** One action of the engine: move some bytes of the oldest copy on a stream,
      or let that copy fail. Anything else is no action. */
  function EngineStep(m: Machine, op: EngineOp): (m': Machine)
    ensures |m'.streams| == |m.streams| && |m'.dst| == |m.dst| && m'.rings == m.rings
    ensures |m.faults| == |m.streams| ==> |m'.faults| == |m'.streams|
  {
    var k := op.stream;
    if k >= |m.streams| || k >= |m.faults| || m.streams[k] == [] then m else
      var c := m.streams[k][0];
      var rest := m.streams[k][1..];
      match op
      case Fault(_) => m.(streams := m.streams[k := rest], faults := m.faults[k := true])
      case Move(_, n) =>
        if !CopyFits(m, c) || n > c.len || (n == 0 && c.len > 0) then m else
          var slot := m.rings[|m.rings| - 2][c.slot];
          m.(dst := Overwrite(m.dst, c.to, slot[c.pos..c.pos + n]), streams := m.streams[k := Rest(c, n) + rest])
  }

  function Engine(m: Machine, ops: seq<EngineOp>): (m': Machine)
    ensures |m'.streams| == |m.streams| && |m'.dst| == |m.dst| && m'.rings == m.rings
    ensures |m.faults| == |m.streams| ==> |m'.faults| == |m'.streams|
    decreases |ops|
  {
    if ops == [] then m else Engine(EngineStep(m, ops[0]), ops[1..])
  }

  // ---- The invariant ------------------------------------------------------

  /** The source bytes to be moved. */
  function Payload(job: Job): (w: Bytes)
    requires Ready(job)
    ensures |w| == job.plan.total
  {
    job.src[job.plan.sourceOffset..job.plan.sourceOffset + job.plan.total]
  }

  predicate Shape(job: Job, m: Machine)
    requires Ready(job)
  {
    && |m.dst| == |job.dst0|
    && |m.rings| == job.legs + 1
    && (forall j :: 1 <= j < job.legs ==> |m.rings[j]| == job.depth)
    && (forall j, s :: 1 <= j < job.legs && 0 <= s < job.depth ==> |m.rings[j][s]| == job.plan.chunkSize)
    && |m.faults| == |m.streams|
    && (m.streams != [] ==> job.legs >= 2 && |m.streams| == job.depth)
    && (forall k :: 0 <= k < |m.streams| ==> |m.streams[k]| <= 1)
  }

  /** `len` bytes of `a` from `i` on are those of `b` from `j` on. */
  predicate SameBytes(a: Bytes, i: nat, b: Bytes, j: nat, len: nat) {
    i + len <= |a| && j + len <= |b| && a[i..i + len] == b[j..j + len]
  }

  /** Copy `c`, queued on stream `k`, still owes bytes below `reach`, and its
      slot holds exactly the source bytes it owes. */
  predicate Owes(job: Job, m: Machine, reach: nat, k: nat, c: Copy)
    requires Ready(job) && Shape(job, m) && k < |m.streams| && reach <= job.plan.total
  {
    var base := job.plan.destOffset;
    && c.slot == k
    && 0 < c.len && c.pos + c.len <= job.plan.chunkSize
    && base <= c.to && c.to + c.len <= base + reach
    && SameBytes(m.rings[job.legs - 1][k], c.pos, Payload(job), c.to - base, c.len)
  }

  predicate Covers(c: Copy, x: nat) { c.to <= x < c.to + c.len }

  /** Destination byte `x` is still to be written by some queued copy. */
  predicate InFlight(m: Machine, x: nat) {
    exists k :: 0 <= k < |m.streams| && m.streams[k] != [] && Covers(m.streams[k][0], x)
  }

  predicate NoFault(m: Machine) {
    forall k :: 0 <= k < |m.faults| ==> !m.faults[k]
  }

  /** Byte `y` of the range has reached the destination. */
  predicate Arrived(job: Job, dst: Bytes, y: nat)
    requires Ready(job) && |dst| == |job.dst0| && y < job.plan.total
  {
    dst[job.plan.destOffset + y] == Payload(job)[y]
  }

  predicate Kept(job: Job, dst: Bytes, x: nat)
    requires |dst| == |job.dst0| && x < |dst|
  {
    dst[x] == job.dst0[x]
  }

  /** Every destination byte is its old value or the source byte meant for it;
      bytes outside the first `reach` bytes of the range are untouched. */
  predicate Clean(job: Job, dst: Bytes, reach: nat)
    requires Ready(job) && |dst| == |job.dst0|
  {
    && (forall x :: 0 <= x < |dst| ==>
          job.plan.destOffset <= x < job.plan.destOffset + reach || Kept(job, dst, x))
    && (forall y :: 0 <= y < job.plan.total ==>
          Arrived(job, dst, y) || Kept(job, dst, job.plan.destOffset + y))
  }

  /** Every byte below `reach` has arrived or is on its way. */
  predicate Covered(job: Job, m: Machine, reach: nat)
    requires Ready(job) && |m.dst| == |job.dst0| && reach <= job.plan.total
  {
    forall y :: 0 <= y < reach ==> Arrived(job, m.dst, y) || InFlight(m, job.plan.destOffset + y)
  }

  predicate Queues(job: Job, m: Machine, reach: nat)
    requires Ready(job) && Shape(job, m) && reach <= job.plan.total
  {
    forall k :: 0 <= k < |m.streams| && m.streams[k] != [] ==> Owes(job, m, reach, k, m.streams[k][0])
  }

  /** What holds whenever the first `reach` bytes have been issued. `trusted`
      says that no failure report has been thrown away. */
  predicate Inv(job: Job, m: Machine, reach: nat, trusted: bool)
    requires Ready(job)
  {
    && reach <= job.plan.total
    && Shape(job, m)
    && Clean(job, m.dst, reach)
    && Queues(job, m, reach)
    && (trusted && NoFault(m) ==> Covered(job, m, reach))
  }

  lemma FaultKeeps(job: Job, m: Machine, reach: nat, trusted: bool, k: nat)
    requires Ready(job) && Inv(job, m, reach, trusted)
    ensures Inv(job, EngineStep(m, Fault(k)), reach, trusted)
  {
    var m' := EngineStep(m, Fault(k));
    if m' != m {
      assert m'.faults[k];
      assert forall j :: 0 <= j < |m.streams| && j != k ==> m'.streams[j] == m.streams[j];
    }
  }

  /** `dst'` is `dst` with `n` wanted bytes from `at` on in their place. */
  predicate Wrote(job: Job, dst: Bytes, dst': Bytes, at: nat, n: nat)
    requires Ready(job)
  {
    && |dst'| == |dst| == |job.dst0| && at + n <= job.plan.total
    && var base := job.plan.destOffset;
    forall x :: 0 <= x < |dst'| ==>
      dst'[x] == if base + at <= x < base + at + n then Payload(job)[x - base] else dst[x]
  }

  lemma OverwriteWrote(job: Job, dst: Bytes, at: nat, n: nat)
    requires Ready(job) && |dst| == |job.dst0| && at + n <= job.plan.total
    ensures Wrote(job, dst, Overwrite(dst, job.plan.destOffset + at, Payload(job)[at..at + n]), at, n)
  {
  }

  lemma WriteArrives(job: Job, dst: Bytes, dst': Bytes, at: nat, n: nat, y: nat)
    requires Ready(job) && Wrote(job, dst, dst', at, n) && y < job.plan.total
    ensures Arrived(job, dst', y) <==> at <= y < at + n || Arrived(job, dst, y)
    ensures Kept(job, dst, job.plan.destOffset + y) ==>
      Arrived(job, dst', y) || Kept(job, dst', job.plan.destOffset + y)
  {
  }

  /** Writing the wanted bytes at their place keeps the destination clean. */
  lemma WriteKeepsClean(job: Job, dst: Bytes, dst': Bytes, reach: nat, at: nat, n: nat)
    requires Ready(job) && Wrote(job, dst, dst', at, n) && Clean(job, dst, reach)
    requires at + n <= reach <= job.plan.total
    ensures Clean(job, dst', reach)
  {
    var base := job.plan.destOffset;
    forall y | 0 <= y < job.plan.total
      ensures Arrived(job, dst', y) || Kept(job, dst', base + y)
    {
      assert Arrived(job, dst, y) || Kept(job, dst, base + y);
      WriteArrives(job, dst, dst', at, n, y);
    }
    forall x | 0 <= x < |dst'|
      ensures base <= x < base + reach || Kept(job, dst', x)
    {
      assert base <= x < base + reach || Kept(job, dst, x);
    }
  }

  /** `m'` is `m` after `n` wanted bytes of stream `k`'s copy went to their place. */
  predicate Moved(job: Job, m: Machine, m': Machine, k: nat, n: nat)
    requires Ready(job) && |m.dst| == |job.dst0|
  {
    && k < |m.streams| && |m.streams[k]| == 1 && 0 < n <= m.streams[k][0].len
    && m'.rings == m.rings && m'.faults == m.faults
    && |m'.streams| == |m.streams|
    && (forall j :: 0 <= j < |m.streams| && j != k ==> m'.streams[j] == m.streams[j])
    && var c := m.streams[k][0];
    && m'.streams[k] == Rest(c, n)
    && var at := c.to - job.plan.destOffset;
    && 0 <= at && at + c.len <= job.plan.total
    && Wrote(job, m.dst, m'.dst, at, n)
  }

  /** Equal stretches have equal beginnings and equal ends. */
  lemma SlicePrefix(a: Bytes, i: nat, b: Bytes, j: nat, len: nat, n: nat)
    requires n <= len && SameBytes(a, i, b, j, len)
    ensures SameBytes(a, i, b, j, n) && SameBytes(a, i + n, b, j + n, len - n)
  {
    SliceSlice(a, i, i + len, 0, n);
    SliceSlice(b, j, j + len, 0, n);
    SliceSlice(a, i, i + len, n, len);
    SliceSlice(b, j, j + len, n, len);
  }

  /** What a move of `n` bytes does, whatever the slot holds. */
  lemma EngineMoves(m: Machine, k: nat, n: nat, c: Copy)
    requires k < |m.streams| == |m.faults| && m.streams[k] == [c] && CopyFits(m, c) && 0 < n <= c.len
    ensures EngineStep(m, Move(k, n)) ==
      m.(dst := Overwrite(m.dst, c.to, m.rings[|m.rings| - 2][c.slot][c.pos..c.pos + n]),
         streams := m.streams[k := Rest(c, n)])
  {
    assert m.streams[k][1..] == [];
    assert Rest(c, n) + [] == Rest(c, n);
  }

  lemma OwedFits(job: Job, m: Machine, reach: nat, k: nat, c: Copy)
    requires Ready(job) && reach <= job.plan.total && Shape(job, m) && k < |m.streams| && Owes(job, m, reach, k, c)
    ensures CopyFits(m, c) && m.rings[|m.rings| - 2][c.slot] == m.rings[job.legs - 1][k]
  {
  }

  /** The first `n` bytes that a copy owes. */
  lemma OwedPrefix(job: Job, m: Machine, reach: nat, k: nat, c: Copy, n: nat)
    requires Ready(job) && reach <= job.plan.total && Shape(job, m) && k < |m.streams| && Owes(job, m, reach, k, c)
    requires n <= c.len
    ensures SameBytes(m.rings[job.legs - 1][k], c.pos, Payload(job), c.to - job.plan.destOffset, n)
  {
    SlicePrefix(m.rings[job.legs - 1][k], c.pos, Payload(job), c.to - job.plan.destOffset, c.len, n);
  }

  lemma MoveEffect(job: Job, m: Machine, reach: nat, k: nat, n: nat)
    requires Ready(job) && reach <= job.plan.total && Shape(job, m)
    requires k < |m.streams| && m.streams[k] != [] && 0 < n <= m.streams[k][0].len
    requires Owes(job, m, reach, k, m.streams[k][0])
    ensures Moved(job, m, EngineStep(m, Move(k, n)), k, n)
  {
    var c := m.streams[k][0];
    assert m.streams[k] == [c];
    OwedFits(job, m, reach, k, c);
    OwedPrefix(job, m, reach, k, c, n);
    OverwriteWrote(job, m.dst, c.to - job.plan.destOffset, n);
    EngineMoves(m, k, n, c);
  }

  lemma MovedRest(job: Job, m: Machine, m': Machine, reach: nat, k: nat, n: nat)
    requires Ready(job) && reach <= job.plan.total && Shape(job, m) && Shape(job, m')
    requires Moved(job, m, m', k, n) && Owes(job, m, reach, k, m.streams[k][0]) && m'.streams[k] != []
    ensures Owes(job, m', reach, k, m'.streams[k][0])
  {
    var c := m.streams[k][0];
    SlicePrefix(m.rings[job.legs - 1][k], c.pos, Payload(job), c.to - job.plan.destOffset, c.len, n);
  }

  lemma MovedOwes(job: Job, m: Machine, m': Machine, reach: nat, k: nat, n: nat)
    requires Ready(job) && reach <= job.plan.total && Shape(job, m) && Queues(job, m, reach)
    requires Moved(job, m, m', k, n)
    ensures Shape(job, m') && Queues(job, m', reach)
  {
    forall j | 0 <= j < |m'.streams| && m'.streams[j] != []
      ensures Owes(job, m', reach, j, m'.streams[j][0])
    {
      assert Owes(job, m, reach, j, m.streams[j][0]);
      if j == k { MovedRest(job, m, m', reach, k, n); }
    }
  }

  lemma MovedClean(job: Job, m: Machine, m': Machine, reach: nat, k: nat, n: nat)
    requires Ready(job) && reach <= job.plan.total && |m.dst| == |job.dst0| && Clean(job, m.dst, reach)
    requires Moved(job, m, m', k, n) && m.streams[k][0].to + n <= job.plan.destOffset + reach
    ensures |m'.dst| == |m.dst| && Clean(job, m'.dst, reach)
  {
    WriteKeepsClean(job, m.dst, m'.dst, reach, m.streams[k][0].to - job.plan.destOffset, n);
  }

  lemma MovedCovered(job: Job, m: Machine, m': Machine, reach: nat, k: nat, n: nat)
    requires Ready(job) && reach <= job.plan.total && |m.dst| == |m'.dst| == |job.dst0|
    requires Moved(job, m, m', k, n) && Covered(job, m, reach)
    ensures Covered(job, m', reach)
  {
    forall y | 0 <= y < reach
      ensures Arrived(job, m'.dst, y) || InFlight(m', job.plan.destOffset + y)
    {
      assert Arrived(job, m.dst, y) || InFlight(m, job.plan.destOffset + y);
      MovedByte(job, m, m', k, n, y);
    }
  }

  lemma MovedByte(job: Job, m: Machine, m': Machine, k: nat, n: nat, y: nat)
    requires Ready(job) && |m.dst| == |job.dst0| && Moved(job, m, m', k, n) && y < job.plan.total
    requires Arrived(job, m.dst, y) || InFlight(m, job.plan.destOffset + y)
    ensures Arrived(job, m'.dst, y) || InFlight(m', job.plan.destOffset + y)
  {
    var c := m.streams[k][0];
    var x := job.plan.destOffset + y;
    if InFlight(m, x) && !(c.to <= x < c.to + n) { StillInFlight(job, m, m', k, n, x); }
  }

  lemma StillInFlight(job: Job, m: Machine, m': Machine, k: nat, n: nat, x: nat)
    requires Ready(job) && |m.dst| == |job.dst0| && Moved(job, m, m', k, n)
    requires InFlight(m, x) && !(m.streams[k][0].to <= x < m.streams[k][0].to + n)
    ensures InFlight(m', x)
  {
    var j :| 0 <= j < |m.streams| && m.streams[j] != [] && Covers(m.streams[j][0], x);
    assert m'.streams[j] != [] && Covers(m'.streams[j][0], x);
  }

  lemma EngineStepKeeps(job: Job, m: Machine, reach: nat, trusted: bool, op: EngineOp)
    requires Ready(job) && Inv(job, m, reach, trusted)
    ensures Inv(job, EngineStep(m, op), reach, trusted)
  {
    match op
    case Fault(k) => FaultKeeps(job, m, reach, trusted, k);
    case Move(k, n) =>
      if k < |m.streams| && m.streams[k] != [] {
        assert Owes(job, m, reach, k, m.streams[k][0]);
        if 0 < n <= m.streams[k][0].len {
          MoveEffect(job, m, reach, k, n);
          MovedOwes(job, m, EngineStep(m, op), reach, k, n);
          MovedClean(job, m, EngineStep(m, op), reach, k, n);
          if trusted && NoFault(m) { MovedCovered(job, m, EngineStep(m, op), reach, k, n); }
        }
      }
  }

  /** No schedule of the engine breaks the invariant, and a stream that is empty
      stays empty and as faulty as it was. */
  lemma {:induction false} EngineKeeps(job: Job, m: Machine, reach: nat, trusted: bool, ops: seq<EngineOp>)
    requires Ready(job) && Inv(job, m, reach, trusted)
    ensures Inv(job, Engine(m, ops), reach, trusted)
    ensures forall k :: 0 <= k < |m.streams| && m.streams[k] == [] ==>
      Engine(m, ops).streams[k] == [] && Engine(m, ops).faults[k] == m.faults[k]
    decreases |ops|
  {
    if ops != [] {
      EngineStepKeeps(job, m, reach, trusted, ops[0]);
      EngineKeeps(job, EngineStep(m, ops[0]), reach, trusted, ops[1..]);
    }
  }

  // ---- Actions of the transfer thread -------------------------------------

  /** No queued copy reads slot `s` of the last ring. */
  predicate SlotIdle(m: Machine, s: nat) {
    forall k :: 0 <= k < |m.streams| && m.streams[k] != [] ==> m.streams[k][0].slot != s
  }

  /** A synchronous leg that lands in a staging slot. Writing the slot of the
      last ring is allowed only while no queued copy reads it. */
  function PutSlot(job: Job, m: Machine, node: nat, s: nat, data: Bytes): (m': Machine)
    requires Ready(job) && Shape(job, m) && 1 <= node < job.legs && s < job.depth
    requires |data| <= job.plan.chunkSize
    requires node == job.legs - 1 ==> SlotIdle(m, s)
    ensures Shape(job, m')
    ensures m'.rings[node][s][..|data|] == data
  {
    m.(rings := m.rings[node := m.rings[node][s := Overwrite(m.rings[node][s], 0, data)]])
  }

  lemma PutSlotQueues(job: Job, m: Machine, reach: nat, node: nat, s: nat, data: Bytes)
    requires Ready(job) && reach <= job.plan.total && Shape(job, m) && Queues(job, m, reach)
    requires 1 <= node < job.legs && s < job.depth && |data| <= job.plan.chunkSize
    requires node == job.legs - 1 ==> SlotIdle(m, s)
    ensures Queues(job, PutSlot(job, m, node, s, data), reach)
  {
    var m' := PutSlot(job, m, node, s, data);
    forall k | 0 <= k < |m'.streams| && m'.streams[k] != []
      ensures Owes(job, m', reach, k, m'.streams[k][0])
    {
      assert Owes(job, m, reach, k, m.streams[k][0]);
      assert m'.rings[job.legs - 1][k] == m.rings[job.legs - 1][k];
    }
  }

  lemma SameCover(job: Job, m: Machine, m': Machine, reach: nat)
    requires Ready(job) && |m.dst| == |job.dst0| && reach <= job.plan.total
    requires m'.dst == m.dst && m'.streams == m.streams && Covered(job, m, reach)
    ensures Covered(job, m', reach)
  {
    forall y | 0 <= y < reach
      ensures Arrived(job, m'.dst, y) || InFlight(m', job.plan.destOffset + y)
    {
      assert Arrived(job, m.dst, y) || InFlight(m, job.plan.destOffset + y);
    }
  }

  lemma PutSlotKeeps(job: Job, m: Machine, reach: nat, trusted: bool, node: nat, s: nat, data: Bytes)
    requires Ready(job) && Inv(job, m, reach, trusted) && 1 <= node < job.legs && s < job.depth
    requires |data| <= job.plan.chunkSize
    requires node == job.legs - 1 ==> SlotIdle(m, s)
    ensures Inv(job, PutSlot(job, m, node, s, data), reach, trusted)
  {
    PutSlotQueues(job, m, reach, node, s, data);
    if trusted && NoFault(m) { SameCover(job, m, PutSlot(job, m, node, s, data), reach); }
  }

  /** Queueing the last leg of a chunk on its stream. */
  function Issue(m: Machine, k: nat, c: Copy): Machine
    requires k < |m.streams|
  {
    m.(streams := m.streams[k := m.streams[k] + [c]])
  }

  /** The copy that moves bytes `[s, e)` of the range out of slot `k`. */
  function CopyOf(job: Job, k: nat, s: nat, e: nat): Copy
    requires s <= e
  {
    Copy(k, 0, job.plan.destOffset + s, e - s)
  }

  lemma IssueQueues(job: Job, m: Machine, s: nat, e: nat, k: nat)
    requires Ready(job) && s < e <= job.plan.total && Shape(job, m) && Queues(job, m, s)
    requires k < |m.streams| && m.streams[k] == [] && e - s <= job.plan.chunkSize
    requires m.rings[job.legs - 1][k][..e - s] == Payload(job)[s..e]
    ensures var m' := Issue(m, k, CopyOf(job, k, s, e)); Shape(job, m') && Queues(job, m', e)
  {
    var c := CopyOf(job, k, s, e);
    var m' := Issue(m, k, c);
    assert m'.streams[k] == [c];
    assert Shape(job, m');
    forall j | 0 <= j < |m'.streams| && m'.streams[j] != []
      ensures Owes(job, m', e, j, m'.streams[j][0])
    {
      if j != k { assert Owes(job, m, s, j, m.streams[j][0]); }
    }
  }

  lemma IssueCovers(job: Job, m: Machine, s: nat, e: nat, k: nat)
    requires Ready(job) && s < e <= job.plan.total && |m.dst| == |job.dst0|
    requires k < |m.streams| && m.streams[k] == [] && Covered(job, m, s)
    ensures Covered(job, Issue(m, k, CopyOf(job, k, s, e)), e)
  {
    var base := job.plan.destOffset;
    var c := CopyOf(job, k, s, e);
    var m' := Issue(m, k, c);
    assert m'.streams[k] == [c];
    forall y | 0 <= y < e
      ensures Arrived(job, m'.dst, y) || InFlight(m', base + y)
    {
      if y >= s {
        assert Covers(m'.streams[k][0], base + y);
      } else if !Arrived(job, m.dst, y) {
        assert InFlight(m, base + y);
        var j :| 0 <= j < |m.streams| && m.streams[j] != [] && Covers(m.streams[j][0], base + y);
        assert m'.streams[j] != [] && Covers(m'.streams[j][0], base + y);
      }
    }
  }

  lemma CleanFurther(job: Job, dst: Bytes, s: nat, e: nat)
    requires Ready(job) && |dst| == |job.dst0| && s <= e && Clean(job, dst, s)
    ensures Clean(job, dst, e)
  {
  }

  lemma IssueKeeps(job: Job, m: Machine, s: nat, e: nat, trusted: bool, k: nat)
    requires Ready(job) && s < e <= job.plan.total && Inv(job, m, s, trusted)
    requires k < |m.streams| && m.streams[k] == [] && e - s <= job.plan.chunkSize
    requires m.rings[job.legs - 1][k][..e - s] == Payload(job)[s..e]
    ensures Inv(job, Issue(m, k, CopyOf(job, k, s, e)), e, trusted)
  {
    IssueQueues(job, m, s, e, k);
    CleanFurther(job, m.dst, s, e);
    if trusted && NoFault(m) { IssueCovers(job, m, s, e, k); }
  }

  /** With nothing queued, everything covered has arrived. */
  lemma QuietMeansArrived(job: Job, m: Machine, reach: nat)
    requires Ready(job) && |m.dst| == |job.dst0| && reach <= job.plan.total
    requires Covered(job, m, reach)
    requires forall k :: 0 <= k < |m.streams| ==> m.streams[k] == []
    ensures forall y :: 0 <= y < reach ==> Arrived(job, m.dst, y)
  {
  }

  /** The last leg done synchronously. */
  lemma PutDestKeeps(job: Job, m: Machine, s: nat, e: nat, trusted: bool)
    requires Ready(job) && s < e <= job.plan.total && m.streams == []
    requires Inv(job, m, s, trusted)
    ensures Inv(job, m.(dst := Overwrite(m.dst, job.plan.destOffset + s, Payload(job)[s..e])), e, trusted)
  {
    CleanFurther(job, m.dst, s, e);
    var dst' := Overwrite(m.dst, job.plan.destOffset + s, Payload(job)[s..e]);
    OverwriteWrote(job, m.dst, s, e - s);
    WriteKeepsClean(job, m.dst, dst', e, s, e - s);
    if trusted {
      QuietMeansArrived(job, m, s);
      forall y | 0 <= y < e ensures Arrived(job, dst', y) { WriteArrives(job, m.dst, dst', s, e - s, y); }
    }
  }

  lemma {:induction false} EngineSnoc(m: Machine, ops: seq<EngineOp>, op: EngineOp)
    ensures Engine(m, ops + [op]) == EngineStep(Engine(m, ops), op)
    decreases |ops|
  {
    if ops == [] {
      assert [op][1..] == [];
    } else {
      assert (ops + [op])[1..] == ops[1..] + [op];
      EngineSnoc(EngineStep(m, ops[0]), ops[1..], op);
    }
  }

  /** Forgetting a failure keeps everything but the trust in the silence that
      follows. */
  lemma ForgetKeeps(job: Job, m: Machine, reach: nat, trusted: bool, k: nat)
    requires Ready(job) && Inv(job, m, reach, trusted) && k < |m.faults|
    ensures Inv(job, m.(faults := m.faults[k := false]), reach, false)
  {
    var m' := m.(faults := m.faults[k := false]);
    forall j | 0 <= j < |m'.streams| && m'.streams[j] != []
      ensures Owes(job, m', reach, j, m'.streams[j][0])
    {
      assert Owes(job, m, reach, j, m.streams[j][0]);
    }
  }

  /** Chunk `c` is bytes `[s, e)` of the range. */
  predicate Piece(job: Job, c: Chunk, s: nat, e: nat) {
    && s < e <= job.plan.total
    && e - s == c.length <= job.plan.chunkSize
    && c.sourceOffset == job.plan.sourceOffset + s
    && c.destOffset == job.plan.destOffset + s
  }

  lemma PieceAt(job: Job, c: Chunk, i: nat)
    requires Ready(job) && i < job.plan.chunkCount && ChunkAt(job.plan, i) == Ok(c)
    ensures c.index == i && Piece(job, c, Start(job.plan, i), Start(job.plan, i + 1))
  {
    ChunkAtTiles(job.plan, i);
    StartStep(job.plan, i);
  }

  /** Slot `slot` of node `node` begins with bytes `[s, e)` of the range. */
  predicate Staged(job: Job, m: Machine, node: nat, slot: nat, s: nat, e: nat)
    requires Ready(job)
  {
    && s <= e <= job.plan.total
    && node < |m.rings| && slot < |m.rings[node]| && e - s <= |m.rings[node][slot]|
    && m.rings[node][slot][..e - s] == Payload(job)[s..e]
  }

  /** Streams that were empty still are. */
  predicate QuietKept(m: Machine, m': Machine) {
    && |m'.streams| == |m.streams|
    && forall k :: 0 <= k < |m.streams| && m.streams[k] == [] ==> m'.streams[k] == []
  }

  lemma IdleWhenEmpty(job: Job, m: Machine, reach: nat, slot: nat)
    requires Ready(job) && reach <= job.plan.total && Shape(job, m) && Queues(job, m, reach)
    requires slot < |m.streams| ==> m.streams[slot] == []
    ensures SlotIdle(m, slot)
  {
    forall k | 0 <= k < |m.streams| && m.streams[k] != []
      ensures m.streams[k][0].slot != slot
    {
      assert Owes(job, m, reach, k, m.streams[k][0]);
    }
  }

  lemma StagedSlot(job: Job, m: Machine, node: nat, slot: nat, s: nat, e: nat, data: Bytes)
    requires Ready(job) && Shape(job, m) && 1 <= node < job.legs && slot < job.depth
    requires s <= e <= job.plan.total && e - s <= job.plan.chunkSize && data == Payload(job)[s..e]
    requires node == job.legs - 1 ==> SlotIdle(m, slot)
    ensures Staged(job, PutSlot(job, m, node, slot, data), node, slot, s, e)
  {
  }

  /** What node `li` holds of chunk `c`. */
  function NodeBytes(job: Job, m: Machine, li: nat, c: Chunk): Bytes
    requires Ready(job)
    requires if li == 0 then c.sourceOffset + c.length <= |job.src| else
      && li < |m.rings| && c.index % job.depth < |m.rings[li]|
      && c.length <= |m.rings[li][c.index % job.depth]|
  {
    if li == 0 then job.src[c.sourceOffset..c.sourceOffset + c.length]
    else m.rings[li][c.index % job.depth][..c.length]
  }

  lemma NodeBytesWanted(job: Job, m: Machine, li: nat, c: Chunk, s: nat, e: nat)
    requires Ready(job) && Piece(job, c, s, e)
    requires li > 0 ==> Staged(job, m, li, c.index % job.depth, s, e)
    ensures NodeBytes(job, m, li, c) == Payload(job)[s..e]
  {
    SliceSlice(job.src, job.plan.sourceOffset, job.plan.sourceOffset + job.plan.total, s, e);
  }

  /** A copy into a staging slot, whole or cut short. */
  lemma LandsInSlot(job: Job, m: Machine, node: nat, slot: nat, s: nat, e: nat, trusted: bool, n: nat)
    requires Ready(job) && s <= e <= job.plan.total && n <= e - s <= job.plan.chunkSize
    requires Inv(job, m, s, trusted) && 1 <= node < job.legs && slot < job.depth && SlotIdle(m, slot)
    ensures var m' := PutSlot(job, m, node, slot, Payload(job)[s..e][..n]);
      && Inv(job, m', s, trusted) && QuietKept(m, m')
      && (n == e - s ==> Staged(job, m', node, slot, s, e))
  {
    var data := Payload(job)[s..e][..n];
    PutSlotKeeps(job, m, s, trusted, node, slot, data);
    if n == e - s {
      assert data == Payload(job)[s..e];
      StagedSlot(job, m, node, slot, s, e, data);
    }
  }

  lemma WeakenInv(job: Job, m: Machine, reach: nat, trusted: bool)
    requires Ready(job) && Inv(job, m, reach, trusted)
    ensures Inv(job, m, job.plan.total, false)
  {
    CleanFurther(job, m.dst, reach, job.plan.total);
    forall k | 0 <= k < |m.streams| && m.streams[k] != []
      ensures Owes(job, m, job.plan.total, k, m.streams[k][0])
    {
      assert Owes(job, m, reach, k, m.streams[k][0]);
    }
  }

  lemma CutShort(job: Job, m: Machine, s: nat, e: nat, n: nat, trusted: bool)
    requires Ready(job) && s <= e <= job.plan.total && n <= e - s && m.streams == []
    requires Inv(job, m, s, trusted)
    ensures var m' := m.(dst := Overwrite(m.dst, job.plan.destOffset + s, Payload(job)[s..e][..n]));
      Inv(job, m', job.plan.total, false)
  {
    CleanFurther(job, m.dst, s, job.plan.total);
    assert Payload(job)[s..e][..n] == Payload(job)[s..s + n];
    OverwriteWrote(job, m.dst, s, n);
    var dst' := Overwrite(m.dst, job.plan.destOffset + s, Payload(job)[s..s + n]);
    WriteKeepsClean(job, m.dst, dst', job.plan.total, s, n);
  }

  predicate Quiet(m: Machine) {
    forall k :: 0 <= k < |m.streams| ==> m.streams[k] == []
  }

  /** Rings and streams as they are when the chunk loop starts. */
  predicate Fresh(job: Job, m: Machine)
    requires Ready(job)
  {
    Shape(job, m) && m.dst == job.dst0 && Quiet(m) && NoFault(m)
  }

  /** The plain copy that the pipeline has to amount to. */
  function PlainCopy(job: Job): Bytes
    requires Ready(job)
  {
    Overwrite(job.dst0, job.plan.destOffset, Payload(job))
  }

  lemma FinishedCopy(job: Job, m: Machine)
    requires Ready(job) && Inv(job, m, job.plan.total, true) && Quiet(m) && NoFault(m)
    ensures m.dst == PlainCopy(job)
  {
    QuietMeansArrived(job, m, job.plan.total);
    var base := job.plan.destOffset;
    forall x | 0 <= x < |m.dst| ensures m.dst[x] == PlainCopy(job)[x] {
      if base <= x < base + job.plan.total {
        assert Arrived(job, m.dst, x - base);
      } else {
        assert Kept(job, m.dst, x);
      }
    }
  }

  /** Streams from `ci` up have not been used yet. */
  predicate Unused(m: Machine, ci: nat) {
    forall k :: ci <= k < |m.streams| ==> m.streams[k] == []
  }

  lemma SlotInRange(i: nat, depth: nat)
    requires depth > 0
    ensures 0 <= i % depth < depth
    ensures i < depth ==> i % depth == i
  {
  }

  lemma QuietKeptUnused(m: Machine, m': Machine, ci: nat)
    requires QuietKept(m, m') && Unused(m, ci)
    ensures Unused(m', ci)
  {
  }
}
