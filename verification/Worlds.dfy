/** What the executor does not decide itself, as its input: when the cancel flag
    is seen, which copies fail and how, and what the engine does meanwhile. For
    each world there is one run, and each run has a world. */
module Worlds {
  import opened Basics
  import opened Chunking
  import opened Pipeline
  import opened Schedules

  /** An error that a backend returns. */
  type BackendError = e: Category | e != Cancellation witness BackendFailure

  /** What becomes of a copy: it is done, the backend declines it, or it fails
      after some bytes. */
  datatype CopyResult = Copied | CannotCopy | FailsAfter(bytes: nat, error: BackendError)

  /** One turn of the chunk loop: whether the cancel flag is seen, what the engine
      does while the slot's stream is synced and before each leg, and what becomes
      of each leg. */
  datatype Choice = Choice(
    cancelled: bool,
    sync: seq<EngineOp>,
    engine: nat -> seq<EngineOp>,
    copy: nat -> CopyResult)

  /** All turns, and what the engine does in the final sync of each stream. */
  datatype World = World(chunk: nat -> Choice, drain: nat -> seq<EngineOp>)

  // ---- What goes wrong ----------------------------------------------------

  function ErrorOf(r: CopyResult): (e: Option<Category>)
    ensures e != Some(Cancellation)
  {
    match r
    case Copied => None
    case CannotCopy => Some(UnsupportedPath)
    case FailsAfter(_, error) => Some(error)
  }

  /** How many of `n` bytes have moved. */
  function BytesMoved(r: CopyResult, n: nat): (k: nat)
    ensures k <= n
  {
    match r
    case Copied => n
    case CannotCopy => 0
    case FailsAfter(bytes, _) => Min(bytes, n)
  }

  /** The error of the first of `n` legs that fails. */
  function LegError(ch: Choice, n: nat): (e: Option<Category>)
    ensures e != Some(Cancellation)
  {
    if n == 0 then None
    else if LegError(ch, n - 1).Some? then LegError(ch, n - 1)
    else ErrorOf(ch.copy(n - 1))
  }

  /** Why turn `ci` does not get through, if it does not. */
  function ChunkError(job: Job, w: World, ci: nat): Option<Category> {
    if w.chunk(ci).cancelled then Some(Cancellation) else LegError(w.chunk(ci), job.legs)
  }

  /** Turn `ci` is the first that does not get through. */
  ghost predicate FirstHalt(job: Job, w: World, ci: nat) {
    && ci < job.plan.chunkCount && ChunkError(job, w, ci).Some?
    && forall i :: 0 <= i < ci ==> ChunkError(job, w, i).None?
  }

  /** The flag is seen before anything else stops the loop. */
  ghost predicate FlagSeen(job: Job, w: World) {
    exists ci: nat :: FirstHalt(job, w, ci) && w.chunk(ci).cancelled
  }

  /** All turns get through. */
  ghost predicate NoHalt(job: Job, w: World) {
    forall ci :: 0 <= ci < job.plan.chunkCount ==> ChunkError(job, w, ci).None?
  }

  /** Leg `li` is the first whose copy is not done, and `e` its error. */
  ghost predicate FirstFailure(ch: Choice, li: nat, e: Option<Category>) {
    ch.copy(li) != Copied && e == ErrorOf(ch.copy(li)) && forall k :: 0 <= k < li ==> ch.copy(k) == Copied
  }

  /** A turn gets through exactly if every copy is done, and otherwise has the
      error of the first that is not. */
  lemma {:induction false} LegErrorMeans(ch: Choice, n: nat)
    ensures LegError(ch, n).None? <==> forall li :: 0 <= li < n ==> ch.copy(li) == Copied
    ensures LegError(ch, n).Some? ==> exists li :: 0 <= li < n && FirstFailure(ch, li, LegError(ch, n))
  {
    if n > 0 {
      LegErrorMeans(ch, n - 1);
      if LegError(ch, n - 1).None? && ch.copy(n - 1) != Copied { assert FirstFailure(ch, n - 1, LegError(ch, n)); }
    }
  }

  lemma {:induction false} LegErrorPrefix(ch: Choice, m: nat, n: nat)
    requires m <= n && LegError(ch, m).Some?
    ensures LegError(ch, n) == LegError(ch, m)
    decreases n
  {
    if m < n { LegErrorPrefix(ch, m, n - 1); }
  }

  // ---- The run of a world -------------------------------------------------

  /** What the engine does until stream `k` is empty. */
  function Finish(m: Machine, k: nat): seq<EngineOp>
    requires k < |m.streams| == |m.faults|
    decreases |m.streams[k]|
  {
    if m.streams[k] == [] then [] else
      var c := m.streams[k][0];
      var op := if CopyFits(m, c) then Move(k, c.len) else Fault(k);
      [op] + Finish(EngineStep(m, op), k)
  }

  lemma {:induction false} Finished(m: Machine, k: nat)
    requires k < |m.streams| == |m.faults|
    ensures Engine(m, Finish(m, k)).streams[k] == []
    decreases |m.streams[k]|
  {
    if m.streams[k] != [] {
      var c := m.streams[k][0];
      var op := if CopyFits(m, c) then Move(k, c.len) else Fault(k);
      Finished(EngineStep(m, op), k);
      assert Finish(m, k)[0] == op && Finish(m, k)[1..] == Finish(EngineStep(m, op), k);
    }
  }

  lemma {:induction false} EngineAppend(m: Machine, a: seq<EngineOp>, b: seq<EngineOp>)
    ensures Engine(m, a + b) == Engine(Engine(m, a), b)
    decreases |a|
  {
    if a == [] {
      assert a + b == b;
    } else {
      assert (a + b)[1..] == a[1..] + b;
      EngineAppend(EngineStep(m, a[0]), a[1..], b);
    }
  }

  /** A sync of stream `k` in which the engine begins with `ops`. */
  function Awaited(m: Machine, k: nat, ops: seq<EngineOp>): seq<EngineOp> {
    var e := Engine(m, ops);
    if k < |e.streams| == |e.faults| then ops + Finish(e, k) else ops
  }

  lemma AwaitedEmpties(m: Machine, k: nat, ops: seq<EngineOp>)
    requires k < |m.streams| == |m.faults|
    ensures Engine(m, Awaited(m, k, ops)).streams[k] == []
  {
    EngineAppend(m, ops, Finish(Engine(m, ops), k));
    Finished(Engine(m, ops), k);
  }

  /** What the engine does before each synchronous leg. */
  function EngineLegs(ch: Choice, n: nat): (ops: seq<seq<EngineOp>>)
    ensures |ops| == n
  {
    seq(n, li requires 0 <= li < n => ch.engine(li))
  }

  function TurnFor(job: Job, m: Machine, ci: nat, ch: Choice): Turn
    requires Ready(job)
  {
    Turn(if Syncs(job, m, ci) then Awaited(m, SlotOf(job, ci), ch.sync) else [], EngineLegs(ch, job.legs - 1))
  }

  /** A list that grows by what `next` makes of it. */
  function Grown<T>(next: seq<T> -> T, n: nat): (ts: seq<T>)
    ensures |ts| == n
    decreases n
  {
    if n == 0 then [] else
      var ts := Grown(next, n - 1);
      ts + [next(ts)]
  }

  function NextTurn(job: Job, m0: Machine, sticky: bool, w: World): seq<Turn> -> Turn
    requires Ready(job)
  {
    (ts: seq<Turn>) => TurnFor(job, After(job, m0, sticky, ts), |ts|, w.chunk(|ts|))
  }

  /** The first `n` turns. */
  function TurnsFor(job: Job, m0: Machine, sticky: bool, w: World, n: nat): (ts: seq<Turn>)
    requires Ready(job)
    ensures |ts| == n
  {
    Grown(NextTurn(job, m0, sticky, w), n)
  }

  /** The machine after the first `n` turns. */
  function AfterTurns(job: Job, m0: Machine, sticky: bool, w: World, n: nat): Machine
    requires Ready(job)
  {
    After(job, m0, sticky, TurnsFor(job, m0, sticky, w, n))
  }

  function NextSync(m: Machine, w: World): seq<seq<EngineOp>> -> seq<EngineOp> {
    (ops: seq<seq<EngineOp>>) => Awaited(Drained(m, ops), |ops|, w.drain(|ops|))
  }

  /** The final syncs of the first `n` streams. */
  function DrainFor(m: Machine, w: World, n: nat): (ops: seq<seq<EngineOp>>)
    ensures |ops| == n
  {
    Grown(NextSync(m, w), n)
  }

  /** Stream `k` reports a failure in the drain. */
  predicate Reports(m: Machine, w: World, k: nat) {
    var e := Drained(m, DrainFor(m, w, k + 1));
    k < |e.faults| && e.faults[k]
  }

  /** No stream reports a failure in the drain after the last turn. */
  ghost predicate NoReport(job: Job, m0: Machine, sticky: bool, w: World)
    requires Ready(job)
  {
    forall k :: 0 <= k < |m0.streams| ==> !Reports(AfterTurns(job, m0, sticky, w, job.plan.chunkCount), w, k)
  }

  // ---- From turn to turn --------------------------------------------------

  lemma TurnsForNext(job: Job, m0: Machine, sticky: bool, w: World, n: nat, m: Machine)
    requires Ready(job) && m == AfterTurns(job, m0, sticky, w, n)
    ensures TurnsFor(job, m0, sticky, w, n + 1)
      == TurnsFor(job, m0, sticky, w, n) + [TurnFor(job, m, n, w.chunk(n))]
  {
  }

  /** The first `n` turns have got through and left `m`. */
  ghost predicate Through(job: Job, m0: Machine, sticky: bool, w: World, n: nat, m: Machine)
    requires Ready(job)
  {
    && n <= job.plan.chunkCount && Ran(job, m0, sticky, TurnsFor(job, m0, sticky, w, n))
    && m == AfterTurns(job, m0, sticky, w, n) && |m.streams| == |m0.streams|
    && forall i :: 0 <= i < n ==> ChunkError(job, w, i).None?
  }

  lemma ThroughNone(job: Job, m0: Machine, sticky: bool, w: World)
    requires Ready(job)
    ensures Through(job, m0, sticky, w, 0, m0)
  {
  }

  lemma ThroughNext(job: Job, m0: Machine, sticky: bool, w: World, n: nat, m: Machine, m': Machine, t: Turn)
    requires Ready(job) && n < job.plan.chunkCount && Through(job, m0, sticky, w, n, m)
    requires t == TurnFor(job, m, n, w.chunk(n)) && TurnOk(job, m, n, t) && m' == TurnDone(job, m, n, sticky, t)
    requires ChunkError(job, w, n).None? && |m'.streams| == |m0.streams|
    ensures Through(job, m0, sticky, w, n + 1, m')
  {
    TurnsForNext(job, m0, sticky, w, n, m);
    RanSnoc(job, m0, sticky, TurnsFor(job, m0, sticky, w, n), t);
  }

  lemma ThroughKeeps(job: Job, m0: Machine, sticky: bool, w: World, n: nat, m: Machine)
    requires Ready(job) && Fresh(job, m0) && Through(job, m0, sticky, w, n, m)
    ensures BeforeTurn(job, m0, sticky, m, n)
  {
    RanKeeps(job, m0, sticky, TurnsFor(job, m0, sticky, w, n));
  }

  /** The first `n` streams were drained without a report, leaving `m`. */
  ghost predicate DrainedTo(m0: Machine, w: World, n: nat, m: Machine) {
    && Drains(m0, DrainFor(m0, w, n)) && m == Drained(m0, DrainFor(m0, w, n))
    && forall j :: 0 <= j < n ==> !Reports(m0, w, j)
  }

  lemma DrainedNone(m0: Machine, w: World)
    ensures DrainedTo(m0, w, 0, m0)
  {
  }

  lemma DrainForNext(m0: Machine, w: World, n: nat, m: Machine)
    requires m == Drained(m0, DrainFor(m0, w, n))
    ensures DrainFor(m0, w, n + 1) == DrainFor(m0, w, n) + [Awaited(m, n, w.drain(n))]
    ensures Drained(m0, DrainFor(m0, w, n + 1)) == Engine(m, Awaited(m, n, w.drain(n)))
  {
    StepsSnoc(SyncsOk(), Engines(), m0, DrainFor(m0, w, n), Awaited(m, n, w.drain(n)));
  }

  /** The report of the next stream decides whether the drain goes on. */
  lemma DrainedNext(m0: Machine, w: World, n: nat, m: Machine, e: Machine)
    requires DrainedTo(m0, w, n, m) && n < |m.streams| == |m.faults|
    requires e == Engine(m, Awaited(m, n, w.drain(n)))
    ensures Reports(m0, w, n) <==> e.faults[n]
    ensures !e.faults[n] ==> DrainedTo(m0, w, n + 1, e)
  {
    DrainForNext(m0, w, n, m);
    AwaitedEmpties(m, n, w.drain(n));
    if !e.faults[n] { DrainSnoc(m0, DrainFor(m0, w, n), Awaited(m, n, w.drain(n))); }
  }

  /** The legs before leg `li` have got through and left `m'`. */
  ghost predicate LegsTo(job: Job, m: Machine, m': Machine, c: Chunk, ch: Choice, li: nat)
    requires Ready(job)
  {
    LegError(ch, li).None? && m' == LegsDone(job, m, c, EngineLegs(ch, li))
  }

  lemma LegsToNext(job: Job, m: Machine, m': Machine, c: Chunk, ch: Choice, li: nat)
    requires Ready(job) && LegsTo(job, m, m', c, ch, li) && ch.copy(li) == Copied
    ensures LegsTo(job, m, Landed(job, Engine(m', ch.engine(li)), li, c), c, ch, li + 1)
  {
    assert EngineLegs(ch, li + 1)[..li] == EngineLegs(ch, li);
  }

  /** The whole run. */
  function RunOf(job: Job, m0: Machine, sticky: bool, w: World): Schedule
    requires Ready(job)
  {
    Schedule(TurnsFor(job, m0, sticky, w, job.plan.chunkCount),
             DrainFor(AfterTurns(job, m0, sticky, w, job.plan.chunkCount), w, |m0.streams|))
  }

  // ---- The world of a run -------------------------------------------------

  /** The world in which the engine acts as in `s` and nothing else goes wrong. */
  function WorldOf(s: Schedule): World {
    World((ci: nat) => if ci < |s.turns| then ChoiceOf(s.turns[ci]) else ChoiceOf(Turn([], [])),
          (k: nat) => if k < |s.drain| then s.drain[k] else [])
  }

  function ChoiceOf(t: Turn): Choice {
    Choice(false, t.sync, (li: nat) => if li < |t.legs| then t.legs[li] else [], (li: nat) => Copied)
  }

  lemma {:induction false} NothingFails(t: Turn, n: nat)
    ensures LegError(ChoiceOf(t), n).None?
  {
    if n > 0 { NothingFails(t, n - 1); }
  }

  lemma AwaitedNothing(m: Machine, k: nat, ops: seq<EngineOp>)
    requires k < |m.streams| == |m.faults| && Engine(m, ops).streams[k] == []
    ensures Awaited(m, k, ops) == ops
  {
    assert ops + [] == ops;
  }

  /** Such a world plays the turn, up to a sync that does not take place. */
  lemma TurnPlayed(job: Job, m: Machine, n: nat, sticky: bool, t: Turn, t': Turn)
    requires Ready(job) && n < job.plan.chunkCount && TurnOk(job, m, n, t) && t' == TurnFor(job, m, n, ChoiceOf(t))
    ensures TurnOk(job, m, n, t') && TurnDone(job, m, n, sticky, t') == TurnDone(job, m, n, sticky, t)
  {
    assert t'.legs == t.legs;
    if Syncs(job, m, n) { AwaitedNothing(m, SlotOf(job, n), t.sync); }
  }

  lemma {:induction false} RanPrefix(job: Job, m0: Machine, sticky: bool, ts: seq<Turn>, n: nat)
    requires Ready(job) && Ran(job, m0, sticky, ts) && n <= |ts|
    ensures Ran(job, m0, sticky, ts[..n])
    decreases |ts|
  {
    if n == |ts| {
      assert ts[..n] == ts;
    } else {
      var m := RanLast(job, m0, sticky, ts, |ts| - 1);
      RanPrefix(job, m0, sticky, ts[..|ts| - 1], n);
      assert ts[..|ts| - 1][..n] == ts[..n];
    }
  }

  lemma {:induction false} TurnsPlayed(job: Job, m0: Machine, sticky: bool, s: Schedule, n: nat)
    requires Ready(job) && Ran(job, m0, sticky, s.turns) && n <= |s.turns|
    ensures Ran(job, m0, sticky, TurnsFor(job, m0, sticky, WorldOf(s), n))
    ensures AfterTurns(job, m0, sticky, WorldOf(s), n) == After(job, m0, sticky, s.turns[..n])
    decreases n
  {
    if n == 0 {
      assert s.turns[..0] == [];
    } else {
      var k := n - 1;
      TurnsPlayed(job, m0, sticky, s, k);
      RanPrefix(job, m0, sticky, s.turns, n);
      var m := RanLast(job, m0, sticky, s.turns[..n], k);
      assert s.turns[..n][..k] == s.turns[..k];
      var t' := TurnFor(job, m, k, WorldOf(s).chunk(k));
      TurnPlayed(job, m, k, sticky, s.turns[k], t');
      TurnsForNext(job, m0, sticky, WorldOf(s), k, m);
      RanSnoc(job, m0, sticky, TurnsFor(job, m0, sticky, WorldOf(s), k), t');
    }
  }

  lemma {:induction false} DrainsPrefix(m: Machine, ops: seq<seq<EngineOp>>, n: nat)
    requires Drains(m, ops) && n <= |ops|
    ensures Drains(m, ops[..n])
    decreases |ops|
  {
    if n == |ops| {
      assert ops[..n] == ops;
    } else {
      DrainLast(m, ops);
      DrainsPrefix(m, ops[..|ops| - 1], n);
      assert ops[..|ops| - 1][..n] == ops[..n];
    }
  }

  lemma {:induction false} DrainPlayed(m: Machine, s: Schedule, n: nat)
    requires Drains(m, s.drain) && n <= |s.drain| <= |m.streams| == |m.faults|
    ensures DrainedTo(m, WorldOf(s), n, Drained(m, s.drain[..n]))
    ensures |Drained(m, s.drain[..n]).streams| == |m.streams| == |Drained(m, s.drain[..n]).faults|
    decreases n
  {
    if n == 0 {
      assert s.drain[..0] == [];
      DrainedNone(m, WorldOf(s));
    } else {
      var k := n - 1;
      DrainPlayed(m, s, k);
      DrainsPrefix(m, s.drain, n);
      DrainLast(m, s.drain[..n]);
      assert s.drain[..n][..k] == s.drain[..k];
      var d := Drained(m, s.drain[..k]);
      AwaitedNothing(d, k, s.drain[k]);
      DrainedNext(m, WorldOf(s), k, d, Engine(d, s.drain[k]));
    }
  }

  lemma NothingHalts(job: Job, s: Schedule)
    ensures NoHalt(job, WorldOf(s))
  {
    forall ci | 0 <= ci < job.plan.chunkCount ensures ChunkError(job, WorldOf(s), ci).None? {
      NothingFails(if ci < |s.turns| then s.turns[ci] else Turn([], []), job.legs);
    }
  }

  /** Every run that reports success is the run of a world in which everything
      gets through: what such runs can do, the executor can do. */
  lemma EveryRunIsPlayed(job: Job, m0: Machine, sticky: bool, s: Schedule)
    requires Ready(job) && Fresh(job, m0) && Succeeds(job, m0, sticky, s)
    ensures NoHalt(job, WorldOf(s)) && NoReport(job, m0, sticky, WorldOf(s))
    ensures Succeeds(job, m0, sticky, RunOf(job, m0, sticky, WorldOf(s)))
    ensures End(job, m0, sticky, RunOf(job, m0, sticky, WorldOf(s))) == End(job, m0, sticky, s)
  {
    var n := job.plan.chunkCount;
    NothingHalts(job, s);
    TurnsPlayed(job, m0, sticky, s, n);
    assert s.turns[..n] == s.turns;
    RanKeeps(job, m0, sticky, s.turns);
    var m := After(job, m0, sticky, s.turns);
    DrainPlayed(m, s, |s.drain|);
    assert s.drain[..|s.drain|] == s.drain;
  }
}
