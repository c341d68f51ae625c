/** The pipelined executor: the chunk loop and the drain after it, step by step
    over the machine of the pipeline. */
module Executor {
  import opened Basics
  import opened Chunking
  import opened Pipeline
  import opened Schedules
  import opened Worlds

  /** Waits until stream `k` is empty and reports whether a copy on it failed.
      When failures are not sticky, reporting one clears it. */
  method Sync(m: Machine, k: nat, sticky: bool, ops: seq<EngineOp>) returns (m': Machine, ok: bool)
    requires k < |m.streams| == |m.faults|
    ensures var e := Engine(m, Awaited(m, k, ops));
      && e.streams[k] == []
      && ok == !e.faults[k]
      && m' == if ok || sticky then e else e.(faults := e.faults[k := false])
  {
    m' := Engine(m, ops);
    EngineAppend(m, ops, Finish(m', k));
    AwaitedEmpties(m, k, ops);
    while m'.streams[k] != []
      invariant |m'.streams| == |m.streams| && |m'.faults| == |m'.streams|
      invariant Engine(m', Finish(m', k)) == Engine(m, Awaited(m, k, ops))
      decreases |m'.streams[k]|
    {
      var c := m'.streams[k][0];
      var op := if CopyFits(m', c) then Move(k, c.len) else Fault(k);
      assert Finish(m', k)[0] == op && Finish(m', k)[1..] == Finish(EngineStep(m', op), k);
      m' := EngineStep(m', op);
    }
    ok := !m'.faults[k];
    if !ok && !sticky { m' := m'.(faults := m'.faults[k := false]); }
  }

  /** One synchronous leg into a staging node: the bytes move, or the copy fails
      after some of them. */
  method RunLeg(job: Job, m: Machine, li: nat, c: Chunk, result: CopyResult, ghost s: nat, ghost e: nat,
                ghost trusted: bool)
    returns (m': Machine, error: Option<Category>)
    requires Ready(job) && Piece(job, c, s, e) && li + 1 < job.legs
    requires Inv(job, m, s, trusted)
    requires c.index % job.depth < |m.streams| ==> m.streams[c.index % job.depth] == []
    requires li > 0 ==> Staged(job, m, li, c.index % job.depth, s, e)
    ensures Inv(job, m', s, trusted) && QuietKept(m, m')
    ensures error == ErrorOf(result)
    ensures error.None? ==> Staged(job, m', li + 1, c.index % job.depth, s, e) && m' == Landed(job, m, li, c)
  {
    var slot := c.index % job.depth;
    LandsWanted(job, m, li, c, s, e, trusted);
    NodeBytesWanted(job, m, li, c, s, e);
    var data := NodeBytes(job, m, li, c);
    IdleWhenEmpty(job, m, s, slot);
    var n := BytesMoved(result, |data|);
    LandsInSlot(job, m, li + 1, slot, s, e, trusted, n);
    assert n == |data| ==> data[..n] == data;
    m' := PutSlot(job, m, li + 1, slot, data[..n]);
    error := ErrorOf(result);
  }

  /** What the engine and the next leg leave. */
  method NextLeg(job: Job, m: Machine, li: nat, c: Chunk, ch: Choice, ghost s: nat, ghost e: nat, ghost trusted: bool)
    returns (m': Machine, error: Option<Category>)
    requires Ready(job) && Piece(job, c, s, e) && li + 1 < job.legs
    requires Inv(job, m, s, trusted)
    requires c.index % job.depth < |m.streams| ==> m.streams[c.index % job.depth] == []
    requires li > 0 ==> Staged(job, m, li, c.index % job.depth, s, e)
    ensures Inv(job, m', s, trusted) && QuietKept(m, m')
    ensures error == ErrorOf(ch.copy(li))
    ensures error.None? ==> Staged(job, m', li + 1, c.index % job.depth, s, e)
    ensures error.None? ==> m' == Landed(job, Engine(m, ch.engine(li)), li, c)
  {
    EngineKeeps(job, m, s, trusted, ch.engine(li));
    m' := Engine(m, ch.engine(li));
    m', error := RunLeg(job, m', li, c, ch.copy(li), s, e, trusted);
  }

  /** The first `li` legs took `m` to `m'` and left the chunk in its slot. */
  ghost predicate LegsAt(job: Job, m: Machine, m': Machine, c: Chunk, ch: Choice, li: nat, s: nat, e: nat,
                         trusted: bool)
    requires Ready(job) && li < job.legs && Piece(job, c, s, e)
  {
    && LegsTo(job, m, m', c, ch, li) && Inv(job, m', s, trusted) && QuietKept(m, m')
    && (li > 0 ==> Staged(job, m', li, c.index % job.depth, s, e))
  }

  lemma LegsAtStart(job: Job, m: Machine, c: Chunk, ch: Choice, s: nat, e: nat, trusted: bool)
    requires Ready(job) && Piece(job, c, s, e) && Inv(job, m, s, trusted)
    ensures LegsAt(job, m, m, c, ch, 0, s, e, trusted)
  {
  }

  lemma LegsStop(ch: Choice, li: nat, n: nat)
    requires li < n && LegError(ch, li).None? && ErrorOf(ch.copy(li)).Some?
    ensures LegError(ch, n) == ErrorOf(ch.copy(li))
  {
    LegErrorPrefix(ch, li + 1, n);
  }

  /** One leg further, or the error of this leg for good. */
  method OneLeg(job: Job, m: Machine, li: nat, c: Chunk, ch: Choice, ghost s: nat, ghost e: nat, ghost trusted: bool,
                ghost m0: Machine)
    returns (m': Machine, error: Option<Category>)
    requires Ready(job) && Piece(job, c, s, e) && li + 1 < job.legs
    requires c.index % job.depth < |m0.streams| ==> m0.streams[c.index % job.depth] == []
    requires LegsAt(job, m0, m, c, ch, li, s, e, trusted)
    ensures error.None? ==> LegsAt(job, m0, m', c, ch, li + 1, s, e, trusted)
    ensures error.Some? ==>
      error == LegError(ch, job.legs - 1) && Inv(job, m', s, trusted) && QuietKept(m0, m')
  {
    m', error := NextLeg(job, m, li, c, ch, s, e, trusted);
    if error.Some? {
      LegsStop(ch, li, job.legs - 1);
    } else {
      LegsToNext(job, m0, m, c, ch, li);
    }
  }

  /** The synchronous legs of a chunk, engine running meanwhile. On success the
      chunk's bytes sit in its slot of the last ring. */
  method RunLegs(job: Job, m: Machine, c: Chunk, ch: Choice, ghost s: nat, ghost e: nat, ghost trusted: bool)
    returns (m': Machine, error: Option<Category>)
    requires Ready(job) && Piece(job, c, s, e) && Inv(job, m, s, trusted)
    requires c.index % job.depth < |m.streams| ==> m.streams[c.index % job.depth] == []
    ensures Inv(job, m', s, trusted) && QuietKept(m, m')
    ensures error == LegError(ch, job.legs - 1)
    ensures error.None? && job.legs >= 2 ==> Staged(job, m', job.legs - 1, c.index % job.depth, s, e)
    ensures error.None? ==> m' == LegsDone(job, m, c, EngineLegs(ch, job.legs - 1))
  {
    m', error := m, None;
    LegsAtStart(job, m, c, ch, s, e, trusted);
    for li := 0 to job.legs - 1
      invariant error.None? && LegsAt(job, m, m', c, ch, li, s, e, trusted)
    {
      m', error := OneLeg(job, m', li, c, ch, s, e, trusted, m);
      if error.Some? {
        return;
      }
    }
  }

  /** The last leg of an overlapped route: queued on the chunk's stream. */
  method QueueLeg(job: Job, m: Machine, c: Chunk, result: CopyResult, ghost s: nat, ghost e: nat, ghost trusted: bool)
    returns (m': Machine, error: Option<Category>)
    requires Ready(job) && Piece(job, c, s, e) && Inv(job, m, s, trusted)
    requires m.streams != [] && m.streams[c.index % job.depth] == []
    requires Staged(job, m, job.legs - 1, c.index % job.depth, s, e)
    ensures |m'.streams| == |m.streams| && error == ErrorOf(result)
    ensures forall k :: 0 <= k < |m.streams| && k != c.index % job.depth ==> m'.streams[k] == m.streams[k]
    ensures error.None? ==> Inv(job, m', e, trusted) && m' == LastDone(job, m, c)
    ensures error.Some? ==> Inv(job, m', job.plan.total, false) && m' == m
  {
    var slot := c.index % job.depth;
    error := ErrorOf(result);
    if error.Some? {
      WeakenInv(job, m, s, trusted);
      m' := m;
    } else {
      IssueKeeps(job, m, s, e, trusted, slot);
      m' := Issue(m, slot, Copy(slot, 0, c.destOffset, c.length));
    }
  }

  /** The last leg of any other route: done at once, perhaps cut short. */
  method DirectLeg(job: Job, m: Machine, c: Chunk, result: CopyResult, ghost s: nat, ghost e: nat, ghost trusted: bool)
    returns (m': Machine, error: Option<Category>)
    requires Ready(job) && Piece(job, c, s, e) && Inv(job, m, s, trusted) && m.streams == []
    requires job.legs >= 2 ==> Staged(job, m, job.legs - 1, c.index % job.depth, s, e)
    ensures m'.streams == [] && error == ErrorOf(result)
    ensures error.None? ==> Inv(job, m', e, trusted) && m' == LastDone(job, m, c)
    ensures error.Some? ==> Inv(job, m', job.plan.total, false)
  {
    NodeBytesWanted(job, m, job.legs - 1, c, s, e);
    var data := NodeBytes(job, m, job.legs - 1, c);
    error := ErrorOf(result);
    var n := BytesMoved(result, |data|);
    if error.Some? {
      CutShort(job, m, s, e, n, trusted);
      m' := m.(dst := Overwrite(m.dst, c.destOffset, data[..n]));
    } else {
      PutDestKeeps(job, m, s, e, trusted);
      m' := m.(dst := Overwrite(m.dst, c.destOffset, data));
    }
  }

  /** One stream is drained; what its failure report says decides the trust. */
  method SyncStream(job: Job, m: Machine, k: nat, sticky: bool, ops: seq<EngineOp>, ghost reach: nat,
                    ghost trusted: bool)
    returns (m': Machine, ok: bool)
    requires Ready(job) && Inv(job, m, reach, trusted) && k < |m.streams|
    ensures m'.streams != [] && QuietKept(m, m') && m'.streams[k] == []
    ensures Inv(job, m', reach, trusted && (ok || sticky))
    ensures ok ==> !m'.faults[k]
    ensures var all := Awaited(m, k, ops);
      Engine(m, all).streams[k] == [] && ok == !Engine(m, all).faults[k] && m' == Synced(m, k, sticky, all)
    ensures forall j :: 0 <= j < |m.streams| && m.streams[j] == [] && !m.faults[j] ==> !m'.faults[j]
  {
    m', ok := Sync(m, k, sticky, ops);
    ghost var all := Awaited(m, k, ops);
    EngineKeeps(job, m, reach, trusted, all);
    if !ok && !sticky { ForgetKeeps(job, Engine(m, all), reach, trusted, k); }
  }

  /** Before a slot is used again, the copy that reads it is waited for. Its
      failure report is dropped here. */
  method FreeSlot(job: Job, m: Machine, ci: nat, sticky: bool, ch: Choice, ghost reach: nat, ghost trusted: bool)
    returns (m': Machine, ghost trusted': bool)
    requires Ready(job) && Inv(job, m, reach, trusted) && Unused(m, ci)
    ensures |m'.streams| == |m.streams|
    ensures trusted && (sticky || m.streams == [] || ci < job.depth) ==> trusted'
    ensures Inv(job, m', reach, trusted') && Unused(m', ci)
    ensures m'.streams != [] ==> m'.streams[ci % job.depth] == []
    ensures Quiet(m) ==> Quiet(m')
    ensures TurnOk(job, m, ci, TurnFor(job, m, ci, ch)) && m' == Freed(job, m, ci, sticky, TurnFor(job, m, ci, ch))
  {
    SlotInRange(ci, job.depth);
    m', trusted' := m, trusted;
    if m.streams != [] && ci >= job.depth {
      var ok;
      m', ok := SyncStream(job, m, ci % job.depth, sticky, ch.sync, reach, trusted);
      trusted' := trusted && (ok || sticky);
      QuietKeptUnused(m, m', ci);
    }
  }

  method LastLeg(job: Job, m: Machine, c: Chunk, result: CopyResult, ghost s: nat, ghost e: nat, ghost trusted: bool)
    returns (m': Machine, error: Option<Category>)
    requires Ready(job) && Piece(job, c, s, e) && Inv(job, m, s, trusted) && Unused(m, c.index)
    requires m.streams != [] ==> m.streams[c.index % job.depth] == []
    requires job.legs >= 2 ==> Staged(job, m, job.legs - 1, c.index % job.depth, s, e)
    ensures |m'.streams| == |m.streams| && error == ErrorOf(result)
    ensures error.None? ==> Inv(job, m', e, trusted) && Unused(m', c.index + 1) && m' == LastDone(job, m, c)
    ensures error.Some? ==> Inv(job, m', job.plan.total, false) && m'.streams == m.streams
  {
    SlotInRange(c.index, job.depth);
    if m.streams != [] {
      m', error := QueueLeg(job, m, c, result, s, e, trusted);
    } else {
      m', error := DirectLeg(job, m, c, result, s, e, trusted);
    }
  }

  /** Brings chunk `c` into the last ring: the slot is freed, then the synchronous
      legs run. */
  method StageChunk(job: Job, m: Machine, ci: nat, c: Chunk, sticky: bool, ch: Choice, ghost s: nat, ghost e: nat,
                    ghost trusted: bool, ghost t: Turn)
    returns (m': Machine, error: Option<Category>, ghost trusted': bool)
    requires Ready(job) && c.index == ci && Piece(job, c, s, e) && Inv(job, m, s, trusted) && Unused(m, ci)
    requires t == TurnFor(job, m, ci, ch)
    ensures |m'.streams| == |m.streams| && error == LegError(ch, job.legs - 1)
    ensures trusted && (sticky || m.streams == [] || ci < job.depth) ==> trusted'
    ensures Inv(job, m', s, trusted') && Unused(m', ci) && (Quiet(m) ==> Quiet(m'))
    ensures m'.streams != [] ==> m'.streams[ci % job.depth] == []
    ensures error.None? && job.legs >= 2 ==> Staged(job, m', job.legs - 1, ci % job.depth, s, e)
    ensures TurnOk(job, m, ci, t)
    ensures error.None? ==> m' == LegsDone(job, Freed(job, m, ci, sticky, t), c, t.legs)
  {
    SlotInRange(ci, job.depth);
    m', trusted' := FreeSlot(job, m, ci, sticky, ch, s, trusted);
    ghost var free := m';
    m', error := RunLegs(job, m', c, ch, s, e, trusted');
    QuietKeptUnused(free, m', ci);
  }

  /** Moves chunk `c`: the last leg is issued once the others have run. */
  method MoveChunk(job: Job, m: Machine, ci: nat, c: Chunk, sticky: bool, ch: Choice, ghost s: nat, ghost e: nat,
                   ghost trusted: bool, ghost t: Turn)
    returns (m': Machine, error: Option<Category>, ghost trusted': bool)
    requires Ready(job) && c.index == ci && Piece(job, c, s, e) && Inv(job, m, s, trusted) && Unused(m, ci)
    requires t == TurnFor(job, m, ci, ch)
    ensures |m'.streams| == |m.streams| && error == LegError(ch, job.legs)
    ensures trusted && (sticky || m.streams == [] || ci < job.depth) ==> trusted'
    ensures error.None? ==> Inv(job, m', e, trusted') && Unused(m', ci + 1)
    ensures TurnOk(job, m, ci, t)
    ensures error.None? ==> m' == LastDone(job, LegsDone(job, Freed(job, m, ci, sticky, t), c, t.legs), c)
    ensures error.Some? ==> Inv(job, m', job.plan.total, false) && (Quiet(m) ==> Quiet(m'))
  {
    m', error, trusted' := StageChunk(job, m, ci, c, sticky, ch, s, e, trusted, t);
    if error.Some? {
      WeakenInv(job, m', s, trusted');
      return;
    }
    m', error := LastLeg(job, m', c, ch.copy(job.legs - 1), s, e, trusted');
  }

  /** One turn of the chunk loop. */
  method OneChunk(job: Job, m: Machine, ci: nat, sticky: bool, w: World, ghost trusted: bool)
    returns (m': Machine, error: Option<Category>, moved: nat, ghost trusted': bool)
    requires Ready(job) && ci < job.plan.chunkCount
    requires Inv(job, m, Start(job.plan, ci), trusted) && Unused(m, ci)
    ensures |m'.streams| == |m.streams| && error == ChunkError(job, w, ci)
    ensures trusted && (sticky || m.streams == [] || ci < job.depth) ==> trusted'
    ensures error.None? ==> Inv(job, m', Start(job.plan, ci + 1), trusted') && Unused(m', ci + 1)
    ensures error.None? ==> moved == Start(job.plan, ci + 1) - Start(job.plan, ci)
    ensures var t := TurnFor(job, m, ci, w.chunk(ci));
      error.None? ==> TurnOk(job, m, ci, t) && m' == TurnDone(job, m, ci, sticky, t)
    ensures error.Some? ==> Inv(job, m', job.plan.total, false) && (Quiet(m) ==> Quiet(m'))
    ensures error == Some(Cancellation) ==> m' == m
  {
    ghost var s, e := Start(job.plan, ci), Start(job.plan, ci + 1);
    var ch := w.chunk(ci);
    if ch.cancelled {
      WeakenInv(job, m, s, trusted);
      return m, Some(Cancellation), 0, trusted;
    }
    ChunkAtTiles(job.plan, ci);
    var c := ChunkAt(job.plan, ci).value;
    PieceAt(job, c, ci);
    moved := c.length;
    m', error, trusted' := MoveChunk(job, m, ci, c, sticky, ch, s, e, trusted, TurnFor(job, m, ci, ch));
  }

  /** The drain after the loop: every stream synced, any failure reported. */
  method DrainStreams(job: Job, m0: Machine, sticky: bool, w: World) returns (m: Machine, error: Option<Category>)
    requires Ready(job) && Inv(job, m0, job.plan.total, false)
    ensures |m.streams| == |m0.streams| && Inv(job, m, job.plan.total, false)
    ensures error.None? <==> forall k :: 0 <= k < |m0.streams| ==> !Reports(m0, w, k)
    ensures error.None? ==> DrainedTo(m0, w, |m0.streams|, m)
    ensures error.Some? ==> error.value == BackendFailure
    ensures Unused(m0, 1) ==> Quiet(m)
  {
    m, error := m0, None;
    DrainedNone(m0, w);
    for k := 0 to |m0.streams|
      invariant error.None? && |m.streams| == |m0.streams| && Inv(job, m, job.plan.total, false)
      invariant DrainedTo(m0, w, k, m)
      invariant Unused(m0, 1) ==> Unused(m, 1)
      invariant Unused(m0, 1) && k > 0 ==> Quiet(m)
    {
      ghost var before := m;
      var ok;
      m, ok := SyncStream(job, m, k, sticky, w.drain(k), job.plan.total, false);
      QuietTail(before, m, k);
      DrainedNext(m0, w, k, before, Engine(before, Awaited(before, k, w.drain(k))));
      if !ok {
        error := Some(BackendFailure);
        return;
      }
    }
  }

  lemma QuietTail(m: Machine, m': Machine, k: nat)
    requires QuietKept(m, m') && k < |m.streams| && m'.streams[k] == []
    ensures Unused(m, 1) ==> Unused(m', 1) && (k == 0 ==> Quiet(m'))
    ensures Quiet(m) ==> Quiet(m')
  {
  }

  /** One turn further, or the error of this turn. */
  method OneTurn(job: Job, m: Machine, ci: nat, sticky: bool, w: World, ghost m0: Machine)
    returns (m': Machine, error: Option<Category>, moved: nat)
    requires Ready(job) && Fresh(job, m0) && ci < job.plan.chunkCount && Through(job, m0, sticky, w, ci, m)
    ensures |m'.streams| == |m0.streams| && error == ChunkError(job, w, ci)
    ensures error.None? ==> Through(job, m0, sticky, w, ci + 1, m')
    ensures error.None? ==> Start(job.plan, ci) + moved == Start(job.plan, ci + 1)
    ensures error.Some? ==> Inv(job, m', job.plan.total, false) && (job.plan.chunkCount <= 1 ==> Quiet(m'))
    ensures error == Some(Cancellation) ==> m' == m
  {
    ThroughKeeps(job, m0, sticky, w, ci, m);
    ghost var trusted;
    m', error, moved, trusted := OneChunk(job, m, ci, sticky, w, Heard(job, m0, sticky, ci));
    if error.None? { ThroughNext(job, m0, sticky, w, ci, m, m', TurnFor(job, m, ci, w.chunk(ci))); }
  }

  /** The chunk loop: all turns, or those before the first that does not get
      through. */
  method RunTurns(job: Job, m0: Machine, sticky: bool, w: World)
    returns (m: Machine, error: Option<Category>, completed: nat, chunksDone: nat, ghost last: Machine)
    requires Ready(job) && Fresh(job, m0)
    ensures |m.streams| == |m0.streams| && completed == Start(job.plan, chunksDone)
    ensures Through(job, m0, sticky, w, chunksDone, last)
    ensures if chunksDone == job.plan.chunkCount then error.None?
      else error == ChunkError(job, w, chunksDone) && error.Some?
    ensures error.None? || error == Some(Cancellation) ==> m == last
    ensures error.Some? ==> Inv(job, m, job.plan.total, false) && (job.plan.chunkCount <= 1 ==> Quiet(m))
  {
    m, error, completed, chunksDone, last := m0, None, 0, 0, m0;
    ThroughNone(job, m0, sticky, w);
    for ci := 0 to job.plan.chunkCount
      invariant error.None? && chunksDone == ci && completed == Start(job.plan, ci)
      invariant last == m && Through(job, m0, sticky, w, ci, m)
    {
      var moved;
      m, error, moved := OneTurn(job, m, ci, sticky, w, m0);
      if error.Some? {
        return;
      }
      last := m;
      completed := completed + moved;
      chunksDone := ci + 1;
    }
  }

  /** The drain after all turns: if it finds nothing, the run is a success. */
  method DrainAfter(job: Job, m1: Machine, sticky: bool, w: World, ghost m0: Machine)
    returns (m: Machine, error: Option<Category>)
    requires Ready(job) && Fresh(job, m0) && Through(job, m0, sticky, w, job.plan.chunkCount, m1)
    ensures |m.streams| == |m0.streams| && Inv(job, m, job.plan.total, false)
    ensures error.None? <==> NoReport(job, m0, sticky, w)
    ensures error.Some? ==> error.value == BackendFailure
    ensures job.plan.chunkCount <= 1 ==> Quiet(m)
    ensures error.None? ==>
      Succeeds(job, m0, sticky, RunOf(job, m0, sticky, w)) && m == End(job, m0, sticky, RunOf(job, m0, sticky, w))
    ensures error.None? ==> Quiet(m) && (Reliable(job, m0, sticky) ==> m.dst == PlainCopy(job))
  {
    ThroughKeeps(job, m0, sticky, w, job.plan.chunkCount, m1);
    WeakenInv(job, m1, job.plan.total, Heard(job, m0, sticky, job.plan.chunkCount));
    m, error := DrainStreams(job, m1, sticky, w);
    if error.None? {
      ghost var run := RunOf(job, m0, sticky, w);
      SuccessKeeps(job, m0, sticky, run);
      if Reliable(job, m0, sticky) { ReliableIsPlain(job, m0, sticky, run); }
    }
  }

  /** The chunk loop and the drain after it. Whatever the world does: no byte but
      a wanted one is ever written, and a run that reports success has done the
      plain copy. The latter needs a failure report to be sticky only when the
      report of a chunk that was not in place before can be thrown away. */
  method MoveChunks(job: Job, m0: Machine, sticky: bool, w: World)
    returns (m: Machine, error: Option<Category>, completed: nat, chunksDone: nat)
    requires Ready(job) && Fresh(job, m0)
    ensures Inv(job, m, job.plan.total, false)
    ensures m0.streams == [] ==> m.streams == []
    // Success: exactly if every turn gets through and no stream reports a failure.
    ensures error.None? <==> NoHalt(job, w) && NoReport(job, m0, sticky, w)
    ensures error.None? ==> Quiet(m)
    ensures error.None? && Reliable(job, m0, sticky) ==> m.dst == PlainCopy(job)
    // Otherwise the error of the first turn that does not get through, which is
    // cancellation exactly if the flag was seen there, or of the drain.
    ensures forall ci: nat :: FirstHalt(job, w, ci) ==>
      error == ChunkError(job, w, ci) && chunksDone == ci && completed == Start(job.plan, ci)
    ensures NoHalt(job, w) ==>
      && chunksDone == job.plan.chunkCount && completed == job.plan.total
      && (error.Some? ==> error.value == BackendFailure)
    ensures error == Some(Cancellation) <==> FlagSeen(job, w)
    // No slot is left under a queued copy unless the route is overlapped and has
    // more than one chunk.
    ensures m0.streams == [] || job.plan.chunkCount <= 1 ==> Quiet(m)
    // Success and cancellation are runs of the schedule semantics.
    ensures error.None? ==>
      Succeeds(job, m0, sticky, RunOf(job, m0, sticky, w)) && m == End(job, m0, sticky, RunOf(job, m0, sticky, w))
    ensures error == Some(Cancellation) ==>
      && Cancelled(job, m0, sticky, TurnsFor(job, m0, sticky, w, chunksDone))
      && m == AfterTurns(job, m0, sticky, w, chunksDone)
  {
    ghost var last;
    m, error, completed, chunksDone, last := RunTurns(job, m0, sticky, w);
    HaltsAt(job, w, chunksDone);
    if error.Some? {
      return;
    }
    m, error := DrainAfter(job, m, sticky, w, m0);
  }

  /** What the number of turns that got through says about the world. */
  lemma HaltsAt(job: Job, w: World, n: nat)
    requires n <= job.plan.chunkCount && forall i :: 0 <= i < n ==> ChunkError(job, w, i).None?
    requires n < job.plan.chunkCount ==> ChunkError(job, w, n).Some?
    ensures NoHalt(job, w) <==> n == job.plan.chunkCount
    ensures forall ci: nat :: FirstHalt(job, w, ci) <==> ci == n < job.plan.chunkCount
    ensures FlagSeen(job, w) <==> n < job.plan.chunkCount && ChunkError(job, w, n) == Some(Cancellation)
  {
    if n < job.plan.chunkCount { assert FirstHalt(job, w, n); }
  }
}
