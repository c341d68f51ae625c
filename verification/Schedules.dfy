/** Runs of the executor that get through: the engine's choices as data, and the
    machine as a function of them. What the executor does on success or on
    cancellation is a run of this kind, and here is what such runs can do. */
module Schedules {
  import opened Arith
  import opened Basics
  import opened Chunking
  import opened Pipeline

  /** What the engine does during one turn of the chunk loop: while the slot's
      stream is synced, and before each synchronous leg. */
  datatype Turn = Turn(sync: seq<EngineOp>, legs: seq<seq<EngineOp>>)

  /** A whole run, with what the engine does in the final sync of each stream. */
  datatype Schedule = Schedule(turns: seq<Turn>, drain: seq<seq<EngineOp>>)

  function SlotOf(job: Job, ci: nat): (slot: nat)
    requires Ready(job)
    ensures slot < job.depth && (ci < job.depth ==> slot == ci)
  {
    SlotInRange(ci, job.depth);
    ci % job.depth
  }

  // ---- One turn -----------------------------------------------------------

  /** The machine after a sync; a failure report that does not stick is gone. */
  function Synced(m: Machine, k: nat, sticky: bool, ops: seq<EngineOp>): Machine
    requires k < |m.streams| == |m.faults|
  {
    var e := Engine(m, ops);
    if sticky || !e.faults[k] then e else e.(faults := e.faults[k := false])
  }

  /** Leg `li` can put chunk `c` into its slot of the next node. */
  predicate Lands(job: Job, m: Machine, li: nat, c: Chunk)
    requires Ready(job)
  {
    && Shape(job, m) && li + 1 < job.legs && c.length <= job.plan.chunkSize
    && (li == 0 ==> c.sourceOffset + c.length <= |job.src|)
    && SlotIdle(m, SlotOf(job, c.index))
  }

  function Landed(job: Job, m: Machine, li: nat, c: Chunk): Machine
    requires Ready(job)
  {
    if Lands(job, m, li, c) then PutSlot(job, m, li + 1, SlotOf(job, c.index), NodeBytes(job, m, li, c)) else m
  }

  /** The machine after the first `|ops|` legs of a chunk. */
  function LegsDone(job: Job, m: Machine, c: Chunk, ops: seq<seq<EngineOp>>): Machine
    requires Ready(job)
    decreases |ops|
  {
    if ops == [] then m else
      var n := |ops| - 1;
      Landed(job, Engine(LegsDone(job, m, c, ops[..n]), ops[n]), n, c)
  }

  /** The last leg: queued on the slot's stream, or done at once. */
  function LastDone(job: Job, m: Machine, c: Chunk): Machine
    requires Ready(job)
  {
    var slot := SlotOf(job, c.index);
    if slot < |m.streams| then Issue(m, slot, Copy(slot, 0, c.destOffset, c.length))
    else if DirectFits(job, m, c) then m.(dst := Overwrite(m.dst, c.destOffset, NodeBytes(job, m, job.legs - 1, c)))
    else m
  }

  predicate DirectFits(job: Job, m: Machine, c: Chunk)
    requires Ready(job)
  {
    && Shape(job, m) && c.length <= job.plan.chunkSize && c.destOffset + c.length <= |m.dst|
    && (job.legs == 1 ==> c.sourceOffset + c.length <= |job.src|)
  }

  /** Whether the slot's stream is synced in turn `ci`. */
  predicate Syncs(job: Job, m: Machine, ci: nat) { m.streams != [] && ci >= job.depth }

  predicate TurnOk(job: Job, m: Machine, ci: nat, t: Turn)
    requires Ready(job)
  {
    && |t.legs| == job.legs - 1
    && (Syncs(job, m, ci) ==>
          var k := SlotOf(job, ci);
          k < |m.streams| == |m.faults| && Engine(m, t.sync).streams[k] == [])
  }

  function Freed(job: Job, m: Machine, ci: nat, sticky: bool, t: Turn): Machine
    requires Ready(job) && TurnOk(job, m, ci, t)
  {
    if Syncs(job, m, ci) then Synced(m, SlotOf(job, ci), sticky, t.sync) else m
  }

  function TurnDone(job: Job, m: Machine, ci: nat, sticky: bool, t: Turn): Machine
    requires Ready(job) && ci < job.plan.chunkCount && TurnOk(job, m, ci, t)
  {
    ChunkAtTiles(job.plan, ci);
    var c := ChunkAt(job.plan, ci).value;
    LastDone(job, LegsDone(job, Freed(job, m, ci, sticky, t), c, t.legs), c)
  }

  // ---- Whole runs ---------------------------------------------------------

  /** What is left of `m` when the items of a list are dealt with in order. */
  function Steps<M, T>(step: (M, nat, T) -> M, m: M, ts: seq<T>): M
    decreases |ts|
  {
    if ts == [] then m else step(Steps(step, m, ts[..|ts| - 1]), |ts| - 1, ts[|ts| - 1])
  }

  /** Each item is fit for the state it meets. */
  predicate Allowed<M, T>(ok: (M, nat, T) -> bool, step: (M, nat, T) -> M, m: M, ts: seq<T>)
    decreases |ts|
  {
    ts == [] ||
      var n := |ts| - 1;
      Allowed(ok, step, m, ts[..n]) && ok(Steps(step, m, ts[..n]), n, ts[n])
  }

  lemma StepsSnoc<M, T>(ok: (M, nat, T) -> bool, step: (M, nat, T) -> M, m: M, ts: seq<T>, t: T)
    ensures Steps(step, m, ts + [t]) == step(Steps(step, m, ts), |ts|, t)
    ensures Allowed(ok, step, m, ts + [t]) <==> Allowed(ok, step, m, ts) && ok(Steps(step, m, ts), |ts|, t)
  {
    assert (ts + [t])[..|ts|] == ts;
  }

  function TurnsOk(job: Job): (Machine, nat, Turn) -> bool
    requires Ready(job)
  {
    (m: Machine, n: nat, t: Turn) => n < job.plan.chunkCount && TurnOk(job, m, n, t)
  }

  function Turns(job: Job, sticky: bool): (Machine, nat, Turn) -> Machine
    requires Ready(job)
  {
    (m: Machine, n: nat, t: Turn) =>
      if n < job.plan.chunkCount && TurnOk(job, m, n, t) then TurnDone(job, m, n, sticky, t) else m
  }

  /** The first turns of a run; each gets its stream empty before it goes on. */
  predicate Ran(job: Job, m0: Machine, sticky: bool, ts: seq<Turn>)
    requires Ready(job)
  {
    Allowed(TurnsOk(job), Turns(job, sticky), m0, ts)
  }

  function After(job: Job, m0: Machine, sticky: bool, ts: seq<Turn>): Machine
    requires Ready(job)
  {
    Steps(Turns(job, sticky), m0, ts)
  }

  lemma RanSnoc(job: Job, m0: Machine, sticky: bool, ts: seq<Turn>, t: Turn)
    requires Ready(job) && Ran(job, m0, sticky, ts) && |ts| < job.plan.chunkCount
    requires TurnOk(job, After(job, m0, sticky, ts), |ts|, t)
    ensures Ran(job, m0, sticky, ts + [t])
    ensures After(job, m0, sticky, ts + [t]) == TurnDone(job, After(job, m0, sticky, ts), |ts|, sticky, t)
  {
    StepsSnoc(TurnsOk(job), Turns(job, sticky), m0, ts, t);
  }

  lemma RanLast(job: Job, m0: Machine, sticky: bool, ts: seq<Turn>, n: nat) returns (m: Machine)
    requires Ready(job) && Ran(job, m0, sticky, ts) && |ts| == n + 1
    ensures Ran(job, m0, sticky, ts[..n]) && m == After(job, m0, sticky, ts[..n])
    ensures n < job.plan.chunkCount && TurnOk(job, m, n, ts[n])
    ensures After(job, m0, sticky, ts) == TurnDone(job, m, n, sticky, ts[n])
  {
    m := After(job, m0, sticky, ts[..n]);
  }

  /** The sync of stream `n` gets it empty and reports no failure. */
  predicate SyncOk(m: Machine, n: nat, ops: seq<EngineOp>) {
    var e := Engine(m, ops);
    n < |e.streams| == |e.faults| && e.streams[n] == [] && !e.faults[n]
  }

  function SyncsOk(): (Machine, nat, seq<EngineOp>) -> bool {
    (m: Machine, n: nat, ops: seq<EngineOp>) => SyncOk(m, n, ops)
  }

  function Engines(): (Machine, nat, seq<EngineOp>) -> Machine {
    (m: Machine, n: nat, ops: seq<EngineOp>) => Engine(m, ops)
  }

  /** The final syncs of the first `|ops|` streams, none reporting a failure. */
  predicate Drains(m: Machine, ops: seq<seq<EngineOp>>) { Allowed(SyncsOk(), Engines(), m, ops) }

  function Drained(m: Machine, ops: seq<seq<EngineOp>>): Machine { Steps(Engines(), m, ops) }

  lemma DrainSnoc(m: Machine, ops: seq<seq<EngineOp>>, next: seq<EngineOp>)
    requires Drains(m, ops) && SyncOk(Drained(m, ops), |ops|, next)
    ensures Drains(m, ops + [next]) && Drained(m, ops + [next]) == Engine(Drained(m, ops), next)
  {
    StepsSnoc(SyncsOk(), Engines(), m, ops, next);
  }

  lemma DrainLast(m: Machine, ops: seq<seq<EngineOp>>)
    requires Drains(m, ops) && ops != []
    ensures var n := |ops| - 1;
      var d := Drained(m, ops[..n]);
      Drains(m, ops[..n]) && SyncOk(d, n, ops[n]) && Drained(m, ops) == Engine(d, ops[n])
  {
  }

  /** A run that reports success. */
  predicate Succeeds(job: Job, m0: Machine, sticky: bool, s: Schedule)
    requires Ready(job)
  {
    && Ran(job, m0, sticky, s.turns) && |s.turns| == job.plan.chunkCount
    && Drains(After(job, m0, sticky, s.turns), s.drain) && |s.drain| == |m0.streams|
  }

  function End(job: Job, m0: Machine, sticky: bool, s: Schedule): Machine
    requires Ready(job) && Succeeds(job, m0, sticky, s)
  {
    Drained(After(job, m0, sticky, s.turns), s.drain)
  }

  /** A run that is cancelled before its last chunk is issued. */
  predicate Cancelled(job: Job, m0: Machine, sticky: bool, ts: seq<Turn>)
    requires Ready(job)
  {
    Ran(job, m0, sticky, ts) && |ts| < job.plan.chunkCount
  }

  // ---- What every run keeps -----------------------------------------------

  lemma LandsWanted(job: Job, m: Machine, li: nat, c: Chunk, s: nat, e: nat, trusted: bool)
    requires Ready(job) && Piece(job, c, s, e) && li + 1 < job.legs && Inv(job, m, s, trusted)
    requires SlotOf(job, c.index) < |m.streams| ==> m.streams[SlotOf(job, c.index)] == []
    requires li > 0 ==> Staged(job, m, li, SlotOf(job, c.index), s, e)
    ensures Lands(job, m, li, c) && NodeBytes(job, m, li, c) == Payload(job)[s..e]
  {
    NodeBytesWanted(job, m, li, c, s, e);
    IdleWhenEmpty(job, m, s, SlotOf(job, c.index));
  }

  lemma LandedKeeps(job: Job, m: Machine, li: nat, c: Chunk, s: nat, e: nat, trusted: bool)
    requires Ready(job) && Piece(job, c, s, e) && Inv(job, m, s, trusted)
    requires Lands(job, m, li, c) && NodeBytes(job, m, li, c) == Payload(job)[s..e]
    ensures var m' := Landed(job, m, li, c);
      && Inv(job, m', s, trusted) && QuietKept(m, m') && Staged(job, m', li + 1, SlotOf(job, c.index), s, e)
  {
    LandsInSlot(job, m, li + 1, SlotOf(job, c.index), s, e, trusted, e - s);
    assert Payload(job)[s..e][..e - s] == Payload(job)[s..e];
  }

  /** One leg of a chunk, with the engine running before it. */
  lemma LegKeeps(job: Job, m: Machine, li: nat, c: Chunk, ops: seq<EngineOp>, s: nat, e: nat, trusted: bool)
    requires Ready(job) && Piece(job, c, s, e) && Inv(job, m, s, trusted) && li + 1 < job.legs
    requires SlotOf(job, c.index) < |m.streams| ==> m.streams[SlotOf(job, c.index)] == []
    requires li > 0 ==> Staged(job, m, li, SlotOf(job, c.index), s, e)
    ensures var m' := Landed(job, Engine(m, ops), li, c);
      && Inv(job, m', s, trusted) && QuietKept(m, m') && Staged(job, m', li + 1, SlotOf(job, c.index), s, e)
  {
    EngineKeeps(job, m, s, trusted, ops);
    LandsWanted(job, Engine(m, ops), li, c, s, e, trusted);
    LandedKeeps(job, Engine(m, ops), li, c, s, e, trusted);
  }

  lemma {:induction false} LegsKeep(job: Job, m: Machine, c: Chunk, ops: seq<seq<EngineOp>>, s: nat, e: nat,
                                    trusted: bool)
    requires Ready(job) && Piece(job, c, s, e) && Inv(job, m, s, trusted) && |ops| <= job.legs - 1
    requires SlotOf(job, c.index) < |m.streams| ==> m.streams[SlotOf(job, c.index)] == []
    ensures var m' := LegsDone(job, m, c, ops);
      && Inv(job, m', s, trusted) && QuietKept(m, m')
      && (ops != [] ==> Staged(job, m', |ops|, SlotOf(job, c.index), s, e))
    decreases |ops|
  {
    if ops != [] {
      var n := |ops| - 1;
      LegsKeep(job, m, c, ops[..n], s, e, trusted);
      LegKeeps(job, LegsDone(job, m, c, ops[..n]), n, c, ops[n], s, e, trusted);
    }
  }

  lemma LastKeeps(job: Job, m: Machine, c: Chunk, s: nat, e: nat, trusted: bool)
    requires Ready(job) && Piece(job, c, s, e) && Inv(job, m, s, trusted) && Unused(m, c.index)
    requires m.streams != [] ==> m.streams[SlotOf(job, c.index)] == []
    requires job.legs >= 2 ==> Staged(job, m, job.legs - 1, SlotOf(job, c.index), s, e)
    ensures var m' := LastDone(job, m, c);
      Inv(job, m', e, trusted) && Unused(m', c.index + 1) && |m'.streams| == |m.streams|
  {
    if m.streams != [] {
      QueuedKeeps(job, m, c, s, e, trusted);
    } else {
      NodeBytesWanted(job, m, job.legs - 1, c, s, e);
      PutDestKeeps(job, m, s, e, trusted);
    }
  }

  lemma LastIssued(job: Job, m: Machine, c: Chunk, slot: nat)
    requires Ready(job) && slot == SlotOf(job, c.index) < |m.streams|
    ensures LastDone(job, m, c) == Issue(m, slot, Copy(slot, 0, c.destOffset, c.length))
  {
  }

  lemma IssueUses(m: Machine, k: nat, c: Copy, n: nat)
    requires k < |m.streams| && k <= n && Unused(m, n)
    ensures Unused(Issue(m, k, c), n + 1)
  {
  }

  lemma SlotQueuedKeeps(job: Job, m: Machine, c: Chunk, slot: nat, s: nat, e: nat, trusted: bool)
    requires Ready(job) && Piece(job, c, s, e) && Inv(job, m, s, trusted) && Unused(m, c.index)
    requires slot < |m.streams| && slot <= c.index && m.streams[slot] == []
    requires Staged(job, m, job.legs - 1, slot, s, e)
    ensures var m' := Issue(m, slot, Copy(slot, 0, c.destOffset, c.length));
      Inv(job, m', e, trusted) && Unused(m', c.index + 1) && |m'.streams| == |m.streams|
  {
    assert CopyOf(job, slot, s, e) == Copy(slot, 0, c.destOffset, c.length);
    IssueKeeps(job, m, s, e, trusted, slot);
    IssueUses(m, slot, CopyOf(job, slot, s, e), c.index);
  }

  lemma QueuedKeeps(job: Job, m: Machine, c: Chunk, s: nat, e: nat, trusted: bool)
    requires Ready(job) && Piece(job, c, s, e) && Inv(job, m, s, trusted) && Unused(m, c.index)
    requires m.streams != [] && m.streams[SlotOf(job, c.index)] == []
    requires Staged(job, m, job.legs - 1, SlotOf(job, c.index), s, e)
    ensures var m' := LastDone(job, m, c);
      Inv(job, m', e, trusted) && Unused(m', c.index + 1) && |m'.streams| == |m.streams|
  {
    LastIssued(job, m, c, SlotOf(job, c.index));
    SlotQueuedKeeps(job, m, c, SlotOf(job, c.index), s, e, trusted);
  }

  /** Whether a report that is dropped in turn `ci` would be missed. */
  predicate TurnTrusted(job: Job, m: Machine, ci: nat, sticky: bool) { sticky || !Syncs(job, m, ci) }

  lemma FreedKeeps(job: Job, m: Machine, ci: nat, sticky: bool, t: Turn, reach: nat, trusted: bool)
    requires Ready(job) && Inv(job, m, reach, trusted) && Unused(m, ci) && TurnOk(job, m, ci, t)
    ensures var m' := Freed(job, m, ci, sticky, t);
      && Inv(job, m', reach, trusted && TurnTrusted(job, m, ci, sticky))
      && Unused(m', ci) && |m'.streams| == |m.streams|
      && (m'.streams != [] ==> m'.streams[SlotOf(job, ci)] == [])
  {
    if Syncs(job, m, ci) {
      var k := SlotOf(job, ci);
      var e := Engine(m, t.sync);
      EngineKeeps(job, m, reach, trusted, t.sync);
      QuietKeptUnused(m, e, ci);
      if !sticky {
        ForgetKeeps(job, e, reach, trusted, k);
        Distrust(job, e, reach, trusted);
      }
    }
  }

  lemma Distrust(job: Job, m: Machine, reach: nat, trusted: bool)
    requires Ready(job) && Inv(job, m, reach, trusted)
    ensures Inv(job, m, reach, false)
  {
  }

  /** One turn moves the pipeline on by one chunk. */
  lemma TurnKeeps(job: Job, m: Machine, ci: nat, sticky: bool, t: Turn, trusted: bool)
    requires Ready(job) && ci < job.plan.chunkCount && TurnOk(job, m, ci, t)
    requires Inv(job, m, Start(job.plan, ci), trusted) && Unused(m, ci)
    ensures var m' := TurnDone(job, m, ci, sticky, t);
      && Inv(job, m', Start(job.plan, ci + 1), trusted && TurnTrusted(job, m, ci, sticky))
      && Unused(m', ci + 1) && |m'.streams| == |m.streams|
  {
    ChunkAtTiles(job.plan, ci);
    var c := ChunkAt(job.plan, ci).value;
    var s, e := Start(job.plan, ci), Start(job.plan, ci + 1);
    PieceAt(job, c, ci);
    var trusted' := trusted && TurnTrusted(job, m, ci, sticky);
    FreedKeeps(job, m, ci, sticky, t, s, trusted);
    var free := Freed(job, m, ci, sticky, t);
    LegsKeep(job, free, c, t.legs, s, e, trusted');
    var staged := LegsDone(job, free, c, t.legs);
    QuietKeptUnused(free, staged, ci);
    LastKeeps(job, staged, c, s, e, trusted');
  }

  /** No report of a copy can get lost in a run of `n` turns. */
  predicate Heard(job: Job, m0: Machine, sticky: bool, n: nat) {
    sticky || m0.streams == [] || n <= job.depth
  }

  /** The machine before turn `n` of a run from `m0`. */
  predicate BeforeTurn(job: Job, m0: Machine, sticky: bool, m: Machine, n: nat)
    requires Ready(job)
  {
    && Inv(job, m, Start(job.plan, n), Heard(job, m0, sticky, n))
    && Unused(m, n) && |m.streams| == |m0.streams|
  }

  lemma FreshStarts(job: Job, m0: Machine, sticky: bool)
    requires Ready(job) && Fresh(job, m0)
    ensures BeforeTurn(job, m0, sticky, m0, 0)
  {
  }

  lemma NextTurn(job: Job, m0: Machine, sticky: bool, m: Machine, n: nat, t: Turn)
    requires Ready(job) && n < job.plan.chunkCount && BeforeTurn(job, m0, sticky, m, n) && TurnOk(job, m, n, t)
    ensures BeforeTurn(job, m0, sticky, TurnDone(job, m, n, sticky, t), n + 1)
  {
    var m' := TurnDone(job, m, n, sticky, t);
    TurnKeeps(job, m, n, sticky, t, Heard(job, m0, sticky, n));
    if !Heard(job, m0, sticky, n + 1) {
      Distrust(job, m', Start(job.plan, n + 1), Heard(job, m0, sticky, n) && TurnTrusted(job, m, n, sticky));
    }
  }

  lemma {:induction false} RanKeeps(job: Job, m0: Machine, sticky: bool, ts: seq<Turn>)
    requires Ready(job) && Fresh(job, m0) && Ran(job, m0, sticky, ts)
    ensures |ts| <= job.plan.chunkCount
    ensures BeforeTurn(job, m0, sticky, After(job, m0, sticky, ts), |ts|)
    decreases |ts|
  {
    if ts == [] {
      FreshStarts(job, m0, sticky);
    } else {
      var n := |ts| - 1;
      var m := RanLast(job, m0, sticky, ts, n);
      RanKeeps(job, m0, sticky, ts[..n]);
      NextTurn(job, m0, sticky, m, n, ts[n]);
    }
  }

  /** The first `n` streams are empty and have not failed. */
  predicate Clear(m: Machine, n: nat) {
    forall k :: 0 <= k < n && k < |m.streams| && k < |m.faults| ==> m.streams[k] == [] && !m.faults[k]
  }

  lemma DrainOneKeeps(job: Job, m: Machine, n: nat, ops: seq<EngineOp>, trusted: bool)
    requires Ready(job) && Inv(job, m, job.plan.total, trusted) && n < |m.streams| && Clear(m, n)
    requires SyncOk(m, n, ops)
    ensures Inv(job, Engine(m, ops), job.plan.total, trusted) && Clear(Engine(m, ops), n + 1)
  {
    EngineKeeps(job, m, job.plan.total, trusted, ops);
  }

  lemma {:induction false} DrainKeeps(job: Job, m: Machine, ops: seq<seq<EngineOp>>, trusted: bool)
    requires Ready(job) && Inv(job, m, job.plan.total, trusted) && Drains(m, ops) && |ops| <= |m.streams|
    ensures var e := Drained(m, ops);
      Inv(job, e, job.plan.total, trusted) && |e.streams| == |m.streams| && Clear(e, |ops|)
    decreases |ops|
  {
    if ops != [] {
      var n := |ops| - 1;
      DrainLast(m, ops);
      DrainKeeps(job, m, ops[..n], trusted);
      DrainOneKeeps(job, Drained(m, ops[..n]), n, ops[n], trusted);
    }
  }

  /** The end of a successful run. */
  lemma SuccessKeeps(job: Job, m0: Machine, sticky: bool, s: Schedule)
    requires Ready(job) && Fresh(job, m0) && Succeeds(job, m0, sticky, s)
    ensures var m := End(job, m0, sticky, s);
      Inv(job, m, job.plan.total, Heard(job, m0, sticky, job.plan.chunkCount)) && Quiet(m) && NoFault(m)
  {
    RanKeeps(job, m0, sticky, s.turns);
    DrainKeeps(job, After(job, m0, sticky, s.turns), s.drain, Heard(job, m0, sticky, job.plan.chunkCount));
  }

  /** A run that reports success, and that cannot lose a report, has done the
      plain copy. */
  lemma SuccessIsPlain(job: Job, m0: Machine, sticky: bool, s: Schedule)
    requires Ready(job) && Fresh(job, m0) && Succeeds(job, m0, sticky, s)
    requires Heard(job, m0, sticky, job.plan.chunkCount)
    ensures End(job, m0, sticky, s).dst == PlainCopy(job)
  {
    SuccessKeeps(job, m0, sticky, s);
    FinishedCopy(job, End(job, m0, sticky, s));
  }

  // ---- An idle engine -----------------------------------------------------

  /** The engine does nothing during the legs. */
  function Still(n: nat): seq<seq<EngineOp>> { seq(n, i => []) }

  lemma {:induction false} LegsStill(job: Job, m: Machine, c: Chunk, n: nat)
    requires Ready(job)
    ensures var m' := LegsDone(job, m, c, Still(n));
      m'.dst == m.dst && m'.streams == m.streams && m'.faults == m.faults
  {
    if n > 0 {
      assert Still(n)[..n - 1] == Still(n - 1);
      LegsStill(job, m, c, n - 1);
    }
  }

  /** The copy that turn `n` queues. */
  function CopyAt(job: Job, n: nat): (c: Copy)
    requires Ready(job) && n < job.plan.chunkCount
    ensures c.slot == SlotOf(job, n) && c.to == job.plan.destOffset + Start(job.plan, n)
    ensures c.len == Start(job.plan, n + 1) - Start(job.plan, n) > 0
  {
    StartStep(job.plan, n);
    CopyOf(job, SlotOf(job, n), Start(job.plan, n), Start(job.plan, n + 1))
  }

  lemma IssueOnEmpty(m: Machine, k: nat, c: Copy)
    requires k < |m.streams| && m.streams[k] == []
    ensures Issue(m, k, c) == m.(streams := m.streams[k := [c]])
  {
    assert [] + [c] == [c];
  }

  lemma CopyAtIs(job: Job, n: nat, c: Chunk)
    requires Ready(job) && n < job.plan.chunkCount && c.index == n
    requires Piece(job, c, Start(job.plan, n), Start(job.plan, n + 1))
    ensures CopyAt(job, n) == Copy(SlotOf(job, n), 0, c.destOffset, c.length)
  {
  }

  lemma LastQueued(job: Job, m: Machine, c: Chunk, slot: nat)
    requires Ready(job) && slot == SlotOf(job, c.index) < |m.streams| && m.streams[slot] == []
    ensures LastDone(job, m, c) == m.(streams := m.streams[slot := [Copy(slot, 0, c.destOffset, c.length)]])
  {
    LastIssued(job, m, c, slot);
    IssueOnEmpty(m, slot, Copy(slot, 0, c.destOffset, c.length));
  }

  /** A turn with still legs: the sync, then the copy on the slot's stream. */
  lemma StillTurn(job: Job, m: Machine, n: nat, sticky: bool, t: Turn, free: Machine)
    requires Ready(job) && n < job.plan.chunkCount && TurnOk(job, m, n, t)
    requires t.legs == Still(job.legs - 1) && free == Freed(job, m, n, sticky, t)
    requires |free.streams| == job.depth && free.streams[SlotOf(job, n)] == []
    ensures var m' := TurnDone(job, m, n, sticky, t);
      && m'.dst == free.dst && m'.faults == free.faults
      && m'.streams == free.streams[SlotOf(job, n) := [CopyAt(job, n)]]
  {
    ChunkAtTiles(job.plan, n);
    var c := ChunkAt(job.plan, n).value;
    PieceAt(job, c, n);
    CopyAtIs(job, n, c);
    LegsStill(job, free, c, job.legs - 1);
    LastQueued(job, LegsDone(job, free, c, t.legs), c, SlotOf(job, n));
  }

  // ---- Cancelled runs -----------------------------------------------------

  /** The first turn with an idle engine. */
  function FirstTurn(job: Job): Turn
    requires Ready(job)
  {
    Turn([], Still(job.legs - 1))
  }

  lemma FirstTurnRuns(job: Job, m0: Machine, sticky: bool)
    requires Ready(job) && Fresh(job, m0) && m0.streams != [] && job.plan.chunkCount >= 1
    ensures Ran(job, m0, sticky, [FirstTurn(job)])
    ensures var m := After(job, m0, sticky, [FirstTurn(job)]);
      && m.dst == job.dst0 && m.faults == m0.faults
      && m.streams == m0.streams[0 := [CopyAt(job, 0)]]
      && BeforeTurn(job, m0, sticky, m, 1)
  {
    var t := FirstTurn(job);
    RanSnoc(job, m0, sticky, [], t);
    assert [] + [t] == [t];
    StillTurn(job, m0, 0, sticky, t, m0);
    RanKeeps(job, m0, sticky, [t]);
  }

  /** Slots can go back to their pools under a queued copy. */
  ghost predicate CanReturnBusy(job: Job, m0: Machine, sticky: bool)
    requires Ready(job)
  {
    exists ts :: Cancelled(job, m0, sticky, ts) && !Quiet(After(job, m0, sticky, ts))
  }

  lemma FirstTurnBusy(job: Job, m0: Machine, sticky: bool)
    requires Ready(job) && Fresh(job, m0) && m0.streams != [] && job.plan.chunkCount >= 2
    ensures Cancelled(job, m0, sticky, [FirstTurn(job)]) && !Quiet(After(job, m0, sticky, [FirstTurn(job)]))
  {
    FirstTurnRuns(job, m0, sticky);
    assert After(job, m0, sticky, [FirstTurn(job)]).streams[0] != [];
  }

  lemma CancelledQuiet(job: Job, m0: Machine, sticky: bool, ts: seq<Turn>)
    requires Ready(job) && Fresh(job, m0) && Cancelled(job, m0, sticky, ts)
    requires m0.streams == [] || job.plan.chunkCount < 2
    ensures Quiet(After(job, m0, sticky, ts))
  {
    RanKeeps(job, m0, sticky, ts);
  }

  /** A cancelled run can return a slot that a queued copy still reads if and
      only if the route is overlapped and there are at least two chunks. */
  lemma BusyIffOverlapped(job: Job, m0: Machine, sticky: bool)
    requires Ready(job) && Fresh(job, m0)
    ensures CanReturnBusy(job, m0, sticky) <==> m0.streams != [] && job.plan.chunkCount >= 2
  {
    if m0.streams != [] && job.plan.chunkCount >= 2 {
      FirstTurnBusy(job, m0, sticky);
    } else {
      forall ts | Cancelled(job, m0, sticky, ts) ensures Quiet(After(job, m0, sticky, ts)) {
        CancelledQuiet(job, m0, sticky, ts);
      }
    }
  }

  lemma HeadDelivers(m: Machine, c: Copy, data: Bytes)
    requires |m.rings| >= 2 && |m.streams| == |m.faults| > 0 && m.streams[0] == [c] && c.slot == c.pos == 0 && c.len > 0
    requires var last := m.rings[|m.rings| - 2]; |last| > 0 && last[0] == data
    requires c.len <= |data| && c.to + c.len <= |m.dst|
    ensures EngineStep(m, Move(0, c.len)).dst == Overwrite(m.dst, c.to, data[..c.len])
  {
    assert data[0..c.len] == data[..c.len];
  }

  /** Whoever gets such a slot next decides what arrives: with `data` written
      into the slot, the queued copy delivers the beginning of `data`. */
  lemma ReusedSlotCorrupts(job: Job, m0: Machine, sticky: bool, data: Bytes)
    requires Ready(job) && Fresh(job, m0) && m0.streams != [] && job.plan.chunkCount >= 2
    requires |data| == job.plan.chunkSize
    ensures Cancelled(job, m0, sticky, [FirstTurn(job)])
    ensures var m := After(job, m0, sticky, [FirstTurn(job)]);
      var len := Start(job.plan, 1);
      && Shape(job, m) && 0 < len <= |data| && job.plan.destOffset + len <= |job.dst0|
      && var reused := m.(rings := m.rings[job.legs - 1 := m.rings[job.legs - 1][0 := data]]);
      EngineStep(reused, Move(0, len)).dst == Overwrite(job.dst0, job.plan.destOffset, data[..len])
  {
    FirstTurnRuns(job, m0, sticky);
    StartStep(job.plan, 0);
    SlotDelivers(job, After(job, m0, sticky, [FirstTurn(job)]), data);
  }

  lemma SlotDelivers(job: Job, m: Machine, data: Bytes)
    requires Ready(job) && Shape(job, m) && m.dst == job.dst0 && |data| == job.plan.chunkSize
    requires job.plan.chunkCount >= 2 && m.streams != [] && m.streams[0] == [CopyAt(job, 0)]
    ensures var len := Start(job.plan, 1);
      && 0 < len <= |data| && job.plan.destOffset + len <= |job.dst0|
      && var reused := m.(rings := m.rings[job.legs - 1 := m.rings[job.legs - 1][0 := data]]);
      EngineStep(reused, Move(0, len)).dst == Overwrite(job.dst0, job.plan.destOffset, data[..len])
  {
    StartStep(job.plan, 0);
    var reused := m.(rings := m.rings[job.legs - 1 := m.rings[job.legs - 1][0 := data]]);
    HeadDelivers(reused, CopyAt(job, 0), data);
  }

  // ---- Reports that are heard ---------------------------------------------

  /** Chunks less than a ring apart have different slots. */
  lemma SlotsDiffer(job: Job, i: nat, n: nat)
    requires Ready(job) && i < n < i + job.depth
    ensures SlotOf(job, i) != SlotOf(job, n)
  {
    ModDiffers(i, n, job.depth);
  }

  lemma SlotAgain(job: Job, i: nat)
    requires Ready(job)
    ensures SlotOf(job, i + job.depth) == SlotOf(job, i)
  {
    ModAgain(i, job.depth);
  }

  /** Byte `y` has arrived, is on its way on stream `k`, or stream `k` failed. */
  predicate Watched(job: Job, m: Machine, k: nat, y: nat)
    requires Ready(job)
  {
    && |m.dst| == |job.dst0| && y < job.plan.total && k < |m.streams| == |m.faults|
    && (|| Arrived(job, m.dst, y) || m.faults[k]
        || (m.streams[k] != [] && Covers(m.streams[k][0], job.plan.destOffset + y)))
  }

  lemma MovedWatches(job: Job, m: Machine, m': Machine, j: nat, n: nat, k: nat, y: nat)
    requires Ready(job) && |m.dst| == |job.dst0| && Moved(job, m, m', j, n)
    requires Watched(job, m, k, y)
    ensures Watched(job, m', k, y)
  {
    WriteArrives(job, m.dst, m'.dst, m.streams[j][0].to - job.plan.destOffset, n, y);
  }

  lemma StepWatches(job: Job, m: Machine, reach: nat, trusted: bool, op: EngineOp, k: nat, y: nat)
    requires Ready(job) && Inv(job, m, reach, trusted) && Watched(job, m, k, y)
    ensures Watched(job, EngineStep(m, op), k, y)
  {
    match op
    case Fault(_) =>
    case Move(j, n) =>
      if j < |m.streams| && m.streams[j] != [] {
        assert Owes(job, m, reach, j, m.streams[j][0]);
        if 0 < n <= m.streams[j][0].len {
          MoveEffect(job, m, reach, j, n);
          MovedWatches(job, m, EngineStep(m, op), j, n, k, y);
        }
      }
  }

  lemma {:induction false} EngineWatches(job: Job, m: Machine, reach: nat, trusted: bool, ops: seq<EngineOp>,
                                         k: nat, y: nat)
    requires Ready(job) && Inv(job, m, reach, trusted) && Watched(job, m, k, y)
    ensures Watched(job, Engine(m, ops), k, y)
    decreases |ops|
  {
    if ops != [] {
      StepWatches(job, m, reach, trusted, ops[0], k, y);
      EngineStepKeeps(job, m, reach, trusted, ops[0]);
      EngineWatches(job, EngineStep(m, ops[0]), reach, trusted, ops[1..], k, y);
    }
  }

  lemma LandedWatches(job: Job, m: Machine, li: nat, c: Chunk, k: nat, y: nat)
    requires Ready(job) && Watched(job, m, k, y)
    ensures Watched(job, Landed(job, m, li, c), k, y)
  {
  }

  lemma {:induction false} LegsWatch(job: Job, m: Machine, c: Chunk, ops: seq<seq<EngineOp>>, s: nat, e: nat,
                                     trusted: bool, k: nat, y: nat)
    requires Ready(job) && Piece(job, c, s, e) && Inv(job, m, s, trusted) && |ops| <= job.legs - 1
    requires SlotOf(job, c.index) < |m.streams| ==> m.streams[SlotOf(job, c.index)] == []
    requires Watched(job, m, k, y)
    ensures Watched(job, LegsDone(job, m, c, ops), k, y)
    decreases |ops|
  {
    if ops != [] {
      var n := |ops| - 1;
      LegsWatch(job, m, c, ops[..n], s, e, trusted, k, y);
      LegsKeep(job, m, c, ops[..n], s, e, trusted);
      var before := LegsDone(job, m, c, ops[..n]);
      EngineWatches(job, before, s, trusted, ops[n], k, y);
      LandedWatches(job, Engine(before, ops[n]), n, c, k, y);
    }
  }

  /** A sync drops no report but that of its own stream. */
  lemma FreedWatches(job: Job, m: Machine, n: nat, sticky: bool, t: Turn, reach: nat, trusted: bool, k: nat, y: nat)
    requires Ready(job) && Inv(job, m, reach, trusted) && TurnOk(job, m, n, t)
    requires Watched(job, m, k, y) && k != SlotOf(job, n)
    ensures Watched(job, Freed(job, m, n, sticky, t), k, y)
  {
    if Syncs(job, m, n) { EngineWatches(job, m, reach, trusted, t.sync, k, y); }
  }

  lemma LastWatches(job: Job, m: Machine, c: Chunk, k: nat, y: nat)
    requires Ready(job) && SlotOf(job, c.index) < |m.streams|
    requires k != SlotOf(job, c.index) && Watched(job, m, k, y)
    ensures Watched(job, LastDone(job, m, c), k, y)
  {
  }

  /** The bytes of chunk `j` stay watched while the slots of later chunks are
      filled. */
  lemma TurnWatches(job: Job, m: Machine, n: nat, sticky: bool, t: Turn, trusted: bool, j: nat, y: nat)
    requires Ready(job) && n < job.plan.chunkCount && TurnOk(job, m, n, t) && m.streams != []
    requires Inv(job, m, Start(job.plan, n), trusted) && Unused(m, n)
    requires j < n < j + job.depth && Watched(job, m, SlotOf(job, j), y)
    ensures Watched(job, TurnDone(job, m, n, sticky, t), SlotOf(job, j), y)
  {
    var k := SlotOf(job, j);
    SlotsDiffer(job, j, n);
    var s, e := Start(job.plan, n), Start(job.plan, n + 1);
    ChunkAtTiles(job.plan, n);
    var c := ChunkAt(job.plan, n).value;
    PieceAt(job, c, n);
    var trusted' := trusted && TurnTrusted(job, m, n, sticky);
    FreedKeeps(job, m, n, sticky, t, s, trusted);
    FreedWatches(job, m, n, sticky, t, s, trusted, k, y);
    var free := Freed(job, m, n, sticky, t);
    LegsKeep(job, free, c, t.legs, s, e, trusted');
    LegsWatch(job, free, c, t.legs, s, e, trusted', k, y);
    LastWatches(job, LegsDone(job, free, c, t.legs), c, k, y);
  }

  /** The turn of a chunk puts its bytes on their way. */
  lemma TurnIssues(job: Job, m: Machine, n: nat, sticky: bool, t: Turn, trusted: bool, y: nat)
    requires Ready(job) && n < job.plan.chunkCount && TurnOk(job, m, n, t) && m.streams != []
    requires Inv(job, m, Start(job.plan, n), trusted) && Unused(m, n)
    requires Start(job.plan, n) <= y < Start(job.plan, n + 1)
    ensures Watched(job, TurnDone(job, m, n, sticky, t), SlotOf(job, n), y)
  {
    var s, e := Start(job.plan, n), Start(job.plan, n + 1);
    ChunkAtTiles(job.plan, n);
    var c := ChunkAt(job.plan, n).value;
    PieceAt(job, c, n);
    FreedKeeps(job, m, n, sticky, t, s, trusted);
    var free := Freed(job, m, n, sticky, t);
    LegsKeep(job, free, c, t.legs, s, e, trusted && TurnTrusted(job, m, n, sticky));
    LastIssues(job, LegsDone(job, free, c, t.legs), c, s, e, y);
  }

  lemma LastIssues(job: Job, m: Machine, c: Chunk, s: nat, e: nat, y: nat)
    requires Ready(job) && Piece(job, c, s, e) && s <= y < e && Shape(job, m) && m.streams != []
    requires m.streams[SlotOf(job, c.index)] == []
    ensures Watched(job, LastDone(job, m, c), SlotOf(job, c.index), y)
  {
    var slot := SlotOf(job, c.index);
    assert LastDone(job, m, c).streams[slot] == [Copy(slot, 0, c.destOffset, c.length)];
  }

  /** Turn `n` of a run, as seen by byte `y` of chunk `j`. */
  lemma RunTurnWatches(job: Job, m0: Machine, sticky: bool, m: Machine, n: nat, t: Turn, j: nat, y: nat)
    requires Ready(job) && n < job.plan.chunkCount && BeforeTurn(job, m0, sticky, m, n) && TurnOk(job, m, n, t)
    requires m0.streams != [] && j <= n < j + job.depth && Start(job.plan, j) <= y < Start(job.plan, j + 1)
    requires j < n ==> Watched(job, m, SlotOf(job, j), y)
    ensures Watched(job, TurnDone(job, m, n, sticky, t), SlotOf(job, j), y)
  {
    if n == j {
      TurnIssues(job, m, n, sticky, t, Heard(job, m0, sticky, n), y);
    } else {
      TurnWatches(job, m, n, sticky, t, Heard(job, m0, sticky, n), j, y);
    }
  }

  /** The last chunks of a run, as many as there are streams, stay watched. */
  lemma {:induction false} RanWatches(job: Job, m0: Machine, sticky: bool, ts: seq<Turn>, j: nat, y: nat)
    requires Ready(job) && Fresh(job, m0) && m0.streams != [] && Ran(job, m0, sticky, ts)
    requires j < |ts| <= j + job.depth && j < job.plan.chunkCount && Start(job.plan, j) <= y < Start(job.plan, j + 1)
    ensures Watched(job, After(job, m0, sticky, ts), SlotOf(job, j), y)
    decreases |ts|
  {
    var n := |ts| - 1;
    var m := RanLast(job, m0, sticky, ts, n);
    RanKeeps(job, m0, sticky, ts[..n]);
    if j < n { RanWatches(job, m0, sticky, ts[..n], j, y); }
    RunTurnWatches(job, m0, sticky, m, n, ts[n], j, y);
  }

  lemma {:induction false} DrainWatches(job: Job, m: Machine, ops: seq<seq<EngineOp>>, trusted: bool, k: nat, y: nat)
    requires Ready(job) && Inv(job, m, job.plan.total, trusted) && Drains(m, ops) && |ops| <= |m.streams|
    requires Watched(job, m, k, y)
    ensures Watched(job, Drained(m, ops), k, y)
    decreases |ops|
  {
    if ops != [] {
      var n := |ops| - 1;
      DrainLast(m, ops);
      DrainKeeps(job, m, ops[..n], trusted);
      DrainWatches(job, m, ops[..n], trusted, k, y);
      EngineWatches(job, Drained(m, ops[..n]), job.plan.total, trusted, ops[n], k, y);
    }
  }

  /** The chunks whose reports a sync in the loop may drop: all but the last
      `depth` ones. */
  function Early(job: Job): nat {
    if job.plan.chunkCount > job.depth then job.plan.chunkCount - job.depth else 0
  }

  /** A successful run has delivered every byte of the last chunks. */
  lemma LateArrives(job: Job, m0: Machine, sticky: bool, s: Schedule, y: nat)
    requires Ready(job) && Fresh(job, m0) && m0.streams != [] && Succeeds(job, m0, sticky, s)
    requires Start(job.plan, Early(job)) <= y < job.plan.total
    ensures |End(job, m0, sticky, s).dst| == |job.dst0| && Arrived(job, End(job, m0, sticky, s).dst, y)
  {
    var j := ByteOwner(job.plan, y);
    if j < Early(job) { StartMonotone(job.plan, j + 1, Early(job)); }
    SuccessKeeps(job, m0, sticky, s);
    RanWatches(job, m0, sticky, s.turns, j, y);
    RanKeeps(job, m0, sticky, s.turns);
    DrainWatches(job, After(job, m0, sticky, s.turns), s.drain, Heard(job, m0, sticky, job.plan.chunkCount),
                 SlotOf(job, j), y);
  }

  /** The first `n` chunks are at the destination before the transfer begins. */
  predicate InPlace(job: Job, n: nat)
    requires Ready(job)
  {
    forall y :: 0 <= y < Start(job.plan, n) && y < job.plan.total ==> Arrived(job, job.dst0, y)
  }

  lemma EarlyStays(job: Job, dst: Bytes, y: nat)
    requires Ready(job) && |dst| == |job.dst0| && Clean(job, dst, job.plan.total) && y < job.plan.total
    requires Arrived(job, job.dst0, y)
    ensures Arrived(job, dst, y)
  {
  }

  lemma EarlyInPlaceSuffices(job: Job, m0: Machine, sticky: bool, s: Schedule)
    requires Ready(job) && Fresh(job, m0) && m0.streams != [] && Succeeds(job, m0, sticky, s)
    requires InPlace(job, Early(job))
    ensures End(job, m0, sticky, s).dst == PlainCopy(job)
  {
    var m := End(job, m0, sticky, s);
    SuccessKeeps(job, m0, sticky, s);
    forall y | 0 <= y < job.plan.total ensures Arrived(job, m.dst, y) {
      if y < Start(job.plan, Early(job)) {
        EarlyStays(job, m.dst, y);
      } else {
        LateArrives(job, m0, sticky, s, y);
      }
    }
    AllArrived(job, m.dst);
  }

  lemma AllArrived(job: Job, dst: Bytes)
    requires Ready(job) && |dst| == |job.dst0| && Clean(job, dst, job.plan.total)
    requires forall y :: 0 <= y < job.plan.total ==> Arrived(job, dst, y)
    ensures dst == PlainCopy(job)
  {
    var base := job.plan.destOffset;
    forall x | 0 <= x < |dst| ensures dst[x] == PlainCopy(job)[x] {
      if base <= x < base + job.plan.total {
        assert Arrived(job, dst, x - base);
      } else {
        assert Kept(job, dst, x);
      }
    }
  }

  /** No report can be lost but those of chunks that were in place already. */
  predicate Reliable(job: Job, m0: Machine, sticky: bool)
    requires Ready(job)
  {
    Heard(job, m0, sticky, job.plan.chunkCount) || InPlace(job, Early(job))
  }

  /** Every successful run that is reliable has done the plain copy. */
  lemma ReliableIsPlain(job: Job, m0: Machine, sticky: bool, s: Schedule)
    requires Ready(job) && Fresh(job, m0) && Succeeds(job, m0, sticky, s) && Reliable(job, m0, sticky)
    ensures End(job, m0, sticky, s).dst == PlainCopy(job)
  {
    if Heard(job, m0, sticky, job.plan.chunkCount) {
      SuccessIsPlain(job, m0, sticky, s);
    } else {
      EarlyInPlaceSuffices(job, m0, sticky, s);
    }
  }

  // ---- Reports that get lost ----------------------------------------------

  /** No queued copy writes destination byte `x`. */
  predicate Away(m: Machine, x: nat) {
    forall k :: 0 <= k < |m.streams| && m.streams[k] != [] ==> !Covers(m.streams[k][0], x)
  }

  /** The engine finishes whatever is queued on stream `k`. */
  function FinishOps(m: Machine, k: nat): seq<EngineOp>
    requires k < |m.streams|
  {
    if m.streams[k] == [] then [] else [Move(k, m.streams[k][0].len)]
  }

  lemma OneOp(m: Machine, op: EngineOp)
    ensures Engine(m, [op]) == EngineStep(m, op)
  {
    EngineSnoc(m, [], op);
    assert [] + [op] == [op];
  }

  lemma FinishStream(job: Job, m: Machine, reach: nat, k: nat, x: nat)
    requires Ready(job) && Inv(job, m, reach, false) && k < |m.streams| && x < |m.dst|
    requires m.streams[k] != [] ==> !Covers(m.streams[k][0], x)
    ensures var e := Engine(m, FinishOps(m, k));
      && Inv(job, e, reach, false)
      && e.streams == m.streams[k := []] && e.faults == m.faults && |e.dst| == |m.dst| && e.dst[x] == m.dst[x]
  {
    EngineKeeps(job, m, reach, false, FinishOps(m, k));
    if m.streams[k] != [] {
      var c := m.streams[k][0];
      assert Owes(job, m, reach, k, c);
      OneOp(m, Move(k, c.len));
      MoveEffect(job, m, reach, k, c.len);
    }
  }

  lemma FaultStream(m: Machine, k: nat)
    requires k < |m.streams| == |m.faults| && |m.streams[k]| == 1
    ensures Engine(m, [Fault(k)]) == m.(streams := m.streams[k := []], faults := m.faults[k := true])
  {
    OneOp(m, Fault(k));
    assert m.streams[k][1..] == [];
  }

  /** Byte `y` of chunk `i` is not what it should become. */
  predicate Missing(job: Job, i: nat, y: nat)
    requires Ready(job)
  {
    && i < job.plan.chunkCount && Start(job.plan, i) <= y < Start(job.plan, i + 1) <= job.plan.total
    && job.dst0[job.plan.destOffset + y] != Payload(job)[y]
  }

  function Spot(job: Job, y: nat): nat { job.plan.destOffset + y }

  /** Only the copy of chunk `i` writes byte `x`, and it is queued before turn
      `n` exactly if the chunk was issued less than a ring ago. */
  predicate OnlyFrom(job: Job, m: Machine, n: nat, i: nat, x: nat)
    requires Ready(job)
  {
    && |m.streams| == job.depth
    && (i < n <= i + job.depth ==> |m.streams[SlotOf(job, i)]| == 1)
    && forall k :: 0 <= k < |m.streams| && m.streams[k] != [] && Covers(m.streams[k][0], x) ==>
         i < n <= i + job.depth && k == SlotOf(job, i)
  }

  /** Before turn `n` of a run in which chunk `i` gets lost. */
  predicate Losing(job: Job, m0: Machine, m: Machine, n: nat, i: nat, y: nat)
    requires Ready(job) && Missing(job, i, y)
  {
    && BeforeTurn(job, m0, false, m, n) && NoFault(m)
    && OnlyFrom(job, m, n, i, Spot(job, y)) && Kept(job, m.dst, Spot(job, y))
  }

  /** The sync of turn `n`: none for the first `depth` turns; after that every
      copy is finished, but that of chunk `i` fails. */
  function LosingSync(job: Job, m: Machine, n: nat, i: nat): seq<EngineOp>
    requires Ready(job) && |m.streams| == job.depth
  {
    if n < job.depth then [] else if n == i + job.depth then [Fault(SlotOf(job, i))] else FinishOps(m, SlotOf(job, n))
  }

  /** The sync of turn `n` frees the slot and leaves byte `y` as it was. */
  predicate LosingFree(job: Job, m: Machine, free: Machine, n: nat, i: nat, y: nat)
    requires Ready(job) && Missing(job, i, y) && |m.streams| == job.depth
  {
    && free.streams == m.streams[SlotOf(job, n) := []] && NoFault(free)
    && |free.dst| == |m.dst| == |job.dst0| && Kept(job, free.dst, Spot(job, y))
  }

  lemma FaultFrees(job: Job, m: Machine, k: nat)
    requires Ready(job) && k < |m.streams| == |m.faults| && |m.streams[k]| == 1 && NoFault(m)
    ensures Engine(m, [Fault(k)]).streams[k] == []
    ensures Synced(m, k, false, [Fault(k)]) == m.(streams := m.streams[k := []])
  {
    FaultStream(m, k);
    assert m.faults[k := true][k := false] == m.faults;
  }

  lemma LosingFrees(job: Job, m0: Machine, m: Machine, n: nat, i: nat, y: nat, t: Turn)
    requires Ready(job) && Missing(job, i, y) && Losing(job, m0, m, n, i, y) && n < job.plan.chunkCount
    requires t == Turn(LosingSync(job, m, n, i), Still(job.legs - 1))
    ensures TurnOk(job, m, n, t) && LosingFree(job, m, Freed(job, m, n, false, t), n, i, y)
  {
    var k := SlotOf(job, n);
    if n < job.depth {
      assert m.streams[k := []] == m.streams;
    } else if n == i + job.depth {
      SlotAgain(job, i);
      FaultFrees(job, m, k);
    } else {
      if i < n < i + job.depth { SlotsDiffer(job, i, n); }
      FinishStream(job, m, Start(job.plan, n), k, Spot(job, y));
    }
  }

  /** The copies of other chunks stay away from chunk `i`. */
  lemma OtherCopies(job: Job, n: nat, i: nat, y: nat)
    requires Ready(job) && Missing(job, i, y) && n < job.plan.chunkCount
    ensures Covers(CopyAt(job, n), Spot(job, y)) <==> n == i
  {
    if n < i { StartMonotone(job.plan, n + 1, i); }
    if i < n { StartMonotone(job.plan, i + 1, n); }
  }

  lemma IssueOnlyFrom(job: Job, m: Machine, streams: seq<seq<Copy>>, m': Machine, n: nat, i: nat, y: nat)
    requires Ready(job) && Missing(job, i, y) && n < job.plan.chunkCount && OnlyFrom(job, m, n, i, Spot(job, y))
    requires streams == m.streams[SlotOf(job, n) := []]
    requires m'.streams == streams[SlotOf(job, n) := [CopyAt(job, n)]]
    ensures OnlyFrom(job, m', n + 1, i, Spot(job, y))
  {
    OtherCopies(job, n, i, y);
    if i < n < i + job.depth { SlotsDiffer(job, i, n); }
    if n == i + job.depth { SlotAgain(job, i); }
    assert forall k :: 0 <= k < |m.streams| && k != SlotOf(job, n) ==> m'.streams[k] == m.streams[k];
  }

  lemma LosingTurn(job: Job, m0: Machine, m: Machine, n: nat, i: nat, y: nat) returns (t: Turn)
    requires Ready(job) && Missing(job, i, y) && Losing(job, m0, m, n, i, y) && n < job.plan.chunkCount
    ensures TurnOk(job, m, n, t) && Losing(job, m0, TurnDone(job, m, n, false, t), n + 1, i, y)
  {
    t := Turn(LosingSync(job, m, n, i), Still(job.legs - 1));
    LosingFrees(job, m0, m, n, i, y, t);
    var free := Freed(job, m, n, false, t);
    StillTurn(job, m, n, false, t, free);
    NextTurn(job, m0, false, m, n, t);
    IssueOnlyFrom(job, m, free.streams, TurnDone(job, m, n, false, t), n, i, y);
  }

  lemma FreshLoses(job: Job, m0: Machine, i: nat, y: nat)
    requires Ready(job) && Fresh(job, m0) && m0.streams != [] && Missing(job, i, y)
    ensures Losing(job, m0, m0, 0, i, y)
  {
    FreshStarts(job, m0, false);
  }

  /** A run of `|ts|` turns that loses chunk `i`. */
  predicate Loses(job: Job, m0: Machine, ts: seq<Turn>, i: nat, y: nat)
    requires Ready(job) && Missing(job, i, y)
  {
    Ran(job, m0, false, ts) && Losing(job, m0, After(job, m0, false, ts), |ts|, i, y)
  }

  lemma LosesAtFirst(job: Job, m0: Machine, i: nat, y: nat)
    requires Ready(job) && Fresh(job, m0) && m0.streams != [] && Missing(job, i, y)
    ensures Loses(job, m0, [], i, y)
  {
    FreshLoses(job, m0, i, y);
  }

  lemma LosesSnoc(job: Job, m0: Machine, ts: seq<Turn>, m: Machine, t: Turn, i: nat, y: nat)
    requires Ready(job) && Missing(job, i, y) && Ran(job, m0, false, ts) && m == After(job, m0, false, ts)
    requires |ts| < job.plan.chunkCount && TurnOk(job, m, |ts|, t)
    requires Losing(job, m0, TurnDone(job, m, |ts|, false, t), |ts| + 1, i, y)
    ensures Loses(job, m0, ts + [t], i, y)
  {
    RanSnoc(job, m0, false, ts, t);
  }

  lemma LosesNext(job: Job, m0: Machine, ts: seq<Turn>, i: nat, y: nat) returns (t: Turn)
    requires Ready(job) && Missing(job, i, y) && Loses(job, m0, ts, i, y) && |ts| < job.plan.chunkCount
    ensures Loses(job, m0, ts + [t], i, y)
  {
    var m := After(job, m0, false, ts);
    t := LosingTurn(job, m0, m, |ts|, i, y);
    LosesSnoc(job, m0, ts, m, t, i, y);
  }

  lemma {:induction false} LosingTurns(job: Job, m0: Machine, n: nat, i: nat, y: nat) returns (ts: seq<Turn>)
    requires Ready(job) && Fresh(job, m0) && m0.streams != [] && Missing(job, i, y) && n <= job.plan.chunkCount
    ensures |ts| == n && Loses(job, m0, ts, i, y)
  {
    if n == 0 {
      ts := [];
      LosesAtFirst(job, m0, i, y);
    } else {
      ts := LosingTurns(job, m0, n - 1, i, y);
      var t := LosesNext(job, m0, ts, i, y);
      ts := ts + [t];
    }
  }

  /** Nothing queued writes byte `x`, and no failure is on record. */
  predicate Harmless(job: Job, m: Machine, x: nat)
    requires Ready(job)
  {
    Inv(job, m, job.plan.total, false) && NoFault(m) && Away(m, x) && x < |m.dst|
  }

  lemma FinishHarmless(job: Job, m: Machine, k: nat, x: nat)
    requires Ready(job) && Harmless(job, m, x) && k < |m.streams|
    ensures var e := Engine(m, FinishOps(m, k));
      && Harmless(job, e, x) && e.dst[x] == m.dst[x] && |e.dst| == |m.dst|
      && |e.streams| == |m.streams| == |e.faults| && e.streams[k] == [] && !e.faults[k]
  {
    FinishStream(job, m, job.plan.total, k, x);
  }

  /** The syncs of the first `|ops|` streams find nothing wrong and leave byte
      `x` alone. */
  predicate DrainsHarmlessly(job: Job, m: Machine, ops: seq<seq<EngineOp>>, x: nat)
    requires Ready(job)
  {
    && Drains(m, ops)
    && var e := Drained(m, ops);
    && Harmless(job, e, x) && |e.streams| == |m.streams| && x < |e.dst| == |m.dst| && e.dst[x] == m.dst[x]
  }

  lemma DrainsNext(job: Job, m: Machine, ops: seq<seq<EngineOp>>, e: Machine, x: nat)
    requires Ready(job) && Drains(m, ops) && e == Drained(m, ops) && |ops| < |e.streams| == |m.streams|
    requires Harmless(job, e, x) && x < |e.dst| == |m.dst| && e.dst[x] == m.dst[x]
    ensures DrainsHarmlessly(job, m, ops + [FinishOps(e, |ops|)], x)
  {
    FinishHarmless(job, e, |ops|, x);
    DrainSnoc(m, ops, FinishOps(e, |ops|));
  }

  /** The drain after such a run finds nothing wrong. */
  lemma {:induction false} LosingDrain(job: Job, m: Machine, n: nat, x: nat) returns (ops: seq<seq<EngineOp>>)
    requires Ready(job) && Harmless(job, m, x) && n <= |m.streams|
    ensures |ops| == n && DrainsHarmlessly(job, m, ops, x)
  {
    if n == 0 {
      ops := [];
    } else {
      ops := LosingDrain(job, m, n - 1, x);
      var e := Drained(m, ops);
      DrainsNext(job, m, ops, e, x);
      ops := ops + [FinishOps(e, n - 1)];
    }
  }

  /** Byte `y` of the range is as it was before the transfer. */
  predicate Untouched(job: Job, dst: Bytes, y: nat) {
    |dst| == |job.dst0| && Spot(job, y) < |dst| && Kept(job, dst, Spot(job, y))
  }

  /** When reports do not stick, some run reports success without having copied
      a byte of one of the early chunks that was not in place before. */
  lemma LosingRun(job: Job, m0: Machine, i: nat, y: nat) returns (s: Schedule)
    requires Ready(job) && Fresh(job, m0) && m0.streams != [] && Missing(job, i, y) && i < Early(job)
    ensures Succeeds(job, m0, false, s)
    ensures Untouched(job, End(job, m0, false, s).dst, y) && End(job, m0, false, s).dst != PlainCopy(job)
  {
    var ts := LosingTurns(job, m0, job.plan.chunkCount, i, y);
    var m := After(job, m0, false, ts);
    var ops := LosingDrain(job, m, |m.streams|, Spot(job, y));
    s := Schedule(ts, ops);
    NotPlain(job, Drained(m, ops).dst, i, y);
  }

  lemma NotPlain(job: Job, dst: Bytes, i: nat, y: nat)
    requires Ready(job) && Missing(job, i, y) && |dst| == |job.dst0| && Kept(job, dst, Spot(job, y))
    ensures dst != PlainCopy(job)
  {
    assert PlainCopy(job)[Spot(job, y)] == Payload(job)[y];
  }

  /** Every successful run from a fresh overlapped pipeline does the plain copy. */
  ghost predicate AlwaysPlain(job: Job, sticky: bool)
    requires Ready(job)
  {
    forall m0, s :: Fresh(job, m0) && m0.streams != [] && Succeeds(job, m0, sticky, s) ==>
      End(job, m0, sticky, s).dst == PlainCopy(job)
  }

  /** A fresh machine with one stream for each slot. */
  function FreshMachine(job: Job): Machine
    requires Ready(job)
  {
    Machine(job.dst0, seq(job.legs + 1, j => seq(job.depth, k => Zeros(job.plan.chunkSize))),
            seq(job.depth, k => []), seq(job.depth, k => false))
  }

  /** A chunk that is not in place among the first ones. */
  lemma FindMissing(job: Job, n: nat) returns (i: nat, y: nat)
    requires Ready(job) && n <= job.plan.chunkCount && !InPlace(job, n)
    ensures i < n && Missing(job, i, y)
  {
    y :| 0 <= y < Start(job.plan, n) && y < job.plan.total && !Arrived(job, job.dst0, y);
    i := ByteOwner(job.plan, y);
    if n <= i { StartMonotone(job.plan, n, i); }
    StartStep(job.plan, i);
  }

  /** Success means a plain copy, whatever the engine does: always when reports
      stick; and when they do not, exactly if every chunk but the last `depth`
      ones was in place already (in particular if there are no others). */
  lemma PlainIffNoReportLost(job: Job)
    requires Ready(job) && job.legs >= 2
    ensures AlwaysPlain(job, true)
    ensures AlwaysPlain(job, false) <==> InPlace(job, Early(job))
  {
    forall m0, s | Fresh(job, m0) && m0.streams != [] && Succeeds(job, m0, true, s)
      ensures End(job, m0, true, s).dst == PlainCopy(job)
    {
      SuccessIsPlain(job, m0, true, s);
    }
    if InPlace(job, Early(job)) {
      forall m0, s | Fresh(job, m0) && m0.streams != [] && Succeeds(job, m0, false, s)
        ensures End(job, m0, false, s).dst == PlainCopy(job)
      {
        EarlyInPlaceSuffices(job, m0, false, s);
      }
    } else {
      var i, y := FindMissing(job, Early(job));
      var m0 := FreshMachine(job);
      assert Fresh(job, m0);
      var s := LosingRun(job, m0, i, y);
    }
  }
}
