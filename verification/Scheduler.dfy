/** The banded scheduler queue against a stable priority queue: one list of
    accepted tasks in order of arrival, from which the oldest task of the
    highest band is taken. Then the whole system: submitters, workers and
    shutdown in every interleaving of their critical sections. */
module Scheduler {
  import opened Basics

  const BANDS := 10

  datatype Task = Task(id: nat, priority: int)

  function Band(t: Task): (b: int)
    ensures 0 <= b < BANDS
  {
    if t.priority < 0 then 0 else if t.priority >= BANDS then BANDS - 1 else t.priority
  }

  // ---- The reference ------------------------------------------------------

  /** `u` is more urgent than `t`: of higher priority, where everything below 0
      counts as 0 and everything above 9 as 9. */
  predicate Higher(u: Task, t: Task) { u.priority > t.priority && u.priority > 0 && t.priority < 9 }

  /** The bands are in order of urgency. */
  lemma BandOrder(t: Task, u: Task)
    ensures Band(t) < Band(u) <==> Higher(u, t)
    ensures Band(t) == Band(u) <==> !Higher(u, t) && !Higher(t, u)
  {
  }

  /** A bounded queue of accepted tasks, oldest first. */
  datatype Queue = Queue(pending: seq<Task>, bound: nat, down: bool)

  /** No task is more urgent than task `i`, and every older one is less urgent. */
  predicate Best(ts: seq<Task>, i: nat) {
    && i < |ts|
    && (forall j :: 0 <= j < |ts| ==> !Higher(ts[j], ts[i]))
    && (forall j :: 0 <= j < i ==> Higher(ts[i], ts[j]))
  }

  /** Task `i` is the oldest of the highest band present. */
  predicate Foremost(ts: seq<Task>, i: nat) {
    && i < |ts|
    && (forall j :: 0 <= j < |ts| ==> Band(ts[j]) <= Band(ts[i]))
    && (forall j :: 0 <= j < i ==> Band(ts[j]) < Band(ts[i]))
  }

  lemma BestIsForemost(ts: seq<Task>, i: nat)
    ensures Best(ts, i) <==> Foremost(ts, i)
  {
    if i < |ts| {
      forall j | 0 <= j < |ts|
        ensures Band(ts[j]) <= Band(ts[i]) <==> !Higher(ts[j], ts[i])
        ensures Band(ts[j]) < Band(ts[i]) <==> Higher(ts[i], ts[j])
      {
        BandOrder(ts[j], ts[i]);
        BandOrder(ts[i], ts[j]);
      }
    }
  }

  function Without(ts: seq<Task>, i: nat): seq<Task>
    requires i < |ts|
  {
    ts[..i] + ts[i + 1..]
  }

  predicate Accepts(q: Queue) { !q.down && |q.pending| < q.bound }

  /** `q'` is `q` after its best task `t` was taken. */
  ghost predicate Takes(q: Queue, q': Queue, t: Task) {
    exists i: nat :: Best(q.pending, i) && t == q.pending[i] && q' == q.(pending := Without(q.pending, i))
  }

  lemma BestUnique(ts: seq<Task>, i: nat, j: nat)
    requires Best(ts, i) && Best(ts, j)
    ensures i == j
  {
    BestIsForemost(ts, i);
    BestIsForemost(ts, j);
    assert Band(ts[i]) <= Band(ts[j]) <= Band(ts[i]);
  }

  // ---- Bands of a list ----------------------------------------------------

  function OnlyIf(t: Task, b: int): seq<Task> { if Band(t) == b then [t] else [] }

  function OfBand(ts: seq<Task>, b: int): seq<Task> {
    if ts == [] then [] else OnlyIf(ts[0], b) + OfBand(ts[1..], b)
  }

  lemma {:induction false} OfBandAppend(a: seq<Task>, c: seq<Task>, b: int)
    ensures OfBand(a + c, b) == OfBand(a, b) + OfBand(c, b)
  {
    if a == [] {
      assert a + c == c;
    } else {
      assert (a + c)[1..] == a[1..] + c && (a + c)[0] == a[0];
      OfBandAppend(a[1..], c, b);
      Associate(OnlyIf(a[0], b), OfBand(a[1..], b), OfBand(c, b));
    }
  }

  lemma {:induction false} OfBandEmpty(ts: seq<Task>, b: int)
    ensures OfBand(ts, b) == [] <==> forall j :: 0 <= j < |ts| ==> Band(ts[j]) != b
  {
    if ts != [] {
      OfBandEmpty(ts[1..], b);
      assert forall j :: 0 < j < |ts| ==> ts[j] == ts[1..][j - 1];
      assert forall j :: 0 <= j < |ts| - 1 ==> ts[1..][j] == ts[j + 1];
    }
  }

  /** The head of a band is the oldest task of that band. */
  lemma {:induction false} BandHead(ts: seq<Task>, b: int) returns (i: nat)
    requires OfBand(ts, b) != []
    ensures i < |ts| && Band(ts[i]) == b && OfBand(ts, b)[0] == ts[i]
    ensures forall j :: 0 <= j < i ==> Band(ts[j]) != b
  {
    if Band(ts[0]) == b {
      i := 0;
    } else {
      var k := BandHead(ts[1..], b);
      i := k + 1;
      forall j | 0 <= j < i ensures Band(ts[j]) != b {
        if j > 0 { assert ts[j] == ts[1..][j - 1]; }
      }
    }
  }

  lemma OneOfBand(t: Task, b: int)
    ensures OfBand([t], b) == OnlyIf(t, b)
  {
    assert [t][1..] == [];
  }

  lemma OfBandSnoc(ts: seq<Task>, t: Task, b: int)
    ensures OfBand(ts + [t], b) == if Band(t) == b then OfBand(ts, b) + [t] else OfBand(ts, b)
  {
    OfBandAppend(ts, [t], b);
    OneOfBand(t, b);
  }

  /** Taking the head of a band leaves the other bands alone. */
  lemma OfBandWithout(ts: seq<Task>, i: nat, b: int)
    requires i < |ts| && forall j :: 0 <= j < i ==> Band(ts[j]) != Band(ts[i])
    ensures OfBand(ts, Band(ts[i])) != [] && OfBand(ts, Band(ts[i]))[0] == ts[i]
    ensures OfBand(Without(ts, i), b) == if b == Band(ts[i]) then OfBand(ts, b)[1..] else OfBand(ts, b)
  {
    assert ts == ts[..i] + ([ts[i]] + ts[i + 1..]);
    OfBandSplit(ts, i, b);
    OfBandSplit(ts, i, Band(ts[i]));
    OfBandEmpty(ts[..i], Band(ts[i]));
    OfBandAppend(ts[..i], ts[i + 1..], b);
  }

  lemma OfBandSplit(ts: seq<Task>, i: nat, b: int)
    requires i < |ts|
    ensures OfBand(ts, b) == OfBand(ts[..i], b) + (OnlyIf(ts[i], b) + OfBand(ts[i + 1..], b))
  {
    assert ts == ts[..i] + ([ts[i]] + ts[i + 1..]);
    OfBandAppend(ts[..i], [ts[i]] + ts[i + 1..], b);
    OfBandAppend([ts[i]], ts[i + 1..], b);
    OneOfBand(ts[i], b);
  }

  /** The lengths of the first `n` bands. */
  function BandTotal(ts: seq<Task>, n: nat): nat {
    if n == 0 then 0 else BandTotal(ts, n - 1) + |OfBand(ts, n - 1)|
  }

  lemma {:induction false} BandTotalCons(ts: seq<Task>, n: nat)
    requires ts != []
    ensures BandTotal(ts, n) == BandTotal(ts[1..], n) + (if Band(ts[0]) < n then 1 else 0)
  {
    if n > 0 { BandTotalCons(ts, n - 1); }
  }

  lemma {:induction false} BandTotalEmpty(n: nat)
    ensures BandTotal([], n) == 0
  {
    if n > 0 { BandTotalEmpty(n - 1); }
  }

  /** The bands together hold every task once. */
  lemma {:induction false} BandsCoverAll(ts: seq<Task>)
    ensures BandTotal(ts, BANDS) == |ts|
  {
    if ts == [] {
      BandTotalEmpty(BANDS);
    } else {
      BandTotalCons(ts, BANDS);
      BandsCoverAll(ts[1..]);
    }
  }

  // ---- The object ---------------------------------------------------------

  class Bands {
    var queues: seq<seq<Task>>
    var queueDepth: nat
    var maxBand: int
    var shuttingDown: bool
    const maxQueued: nat

    /** The accepted tasks that have not been taken, oldest first. */
    ghost var pending: seq<Task>

    ghost predicate Valid()
      reads this
    {
      && |queues| == BANDS
      && (forall b :: 0 <= b < BANDS ==> queues[b] == OfBand(pending, b))
      && queueDepth == |pending| <= maxQueued
      && -1 <= maxBand < BANDS
      && (forall b :: maxBand < b < BANDS ==> queues[b] == [])
    }

    ghost function Abstract(): Queue
      reads this
    {
      Queue(pending, maxQueued, shuttingDown)
    }

    constructor (bound: nat)
      ensures Valid() && Abstract() == Queue([], if bound > 0 then bound else 1, false)
    {
      queues := seq(BANDS, i => []);
      queueDepth, maxBand, shuttingDown, pending := 0, -1, false, [];
      maxQueued := if bound > 0 then bound else 1;
    }

    method Submit(task: Task) returns (ok: bool)
      requires Valid()
      modifies this
      ensures Valid()
      ensures ok == Accepts(old(Abstract()))
      ensures Abstract() == if ok then old(Abstract()).(pending := old(pending) + [task]) else old(Abstract())
    {
      if shuttingDown { return false; }
      if queueDepth >= maxQueued { return false; }
      var band := task.priority;
      if band < 0 { band := 0; }
      if band >= BANDS { band := BANDS - 1; }
      forall b | 0 <= b < BANDS
        ensures OfBand(pending + [task], b) == queues[b] + (if b == band then [task] else [])
      {
        OfBandSnoc(pending, task, b);
      }
      queues := queues[band := queues[band] + [task]];
      queueDepth := queueDepth + 1;
      if band > maxBand { maxBand := band; }
      pending := pending + [task];
      return true;
    }

    /** The head of the highest nonempty band is the best task, and taking it
        leaves the other bands alone. */
    lemma TopBandHead() returns (i: nat)
      requires Valid() && 0 <= maxBand && queues[maxBand] != []
      ensures Best(pending, i) && pending[i] == queues[maxBand][0]
      ensures forall b :: 0 <= b < BANDS ==>
        OfBand(Without(pending, i), b) == if b == maxBand then queues[b][1..] else queues[b]
    {
      i := BandHead(pending, maxBand);
      forall j | 0 <= j < |pending| ensures Band(pending[j]) <= maxBand {
        OfBandEmpty(pending, Band(pending[j]));
      }
      forall b | 0 <= b < BANDS
        ensures OfBand(Without(pending, i), b) == if b == maxBand then queues[b][1..] else queues[b]
      {
        OfBandWithout(pending, i, b);
      }
      BestIsForemost(pending, i);
    }

    method Pop() returns (out: Option<Task>)
      requires Valid()
      modifies this
      ensures Valid()
      ensures out.Some? <==> old(pending) != []
      ensures out.None? ==> Abstract() == old(Abstract())
      ensures out.Some? ==> Takes(old(Abstract()), Abstract(), out.value)
    {
      if maxBand < 0 {
        BandsEmpty();
        return None;
      }
      while maxBand >= 0 && queues[maxBand] == []
        invariant Valid() && unchanged(`queues, `queueDepth, `shuttingDown, `pending)
        decreases maxBand
      {
        maxBand := maxBand - 1;
      }
      if maxBand < 0 {
        BandsEmpty();
        return None;
      }
      var t := TakeHead();
      return Some(t);
    }

    /** The end of `Pop`: takes the head of the highest nonempty band. */
    method TakeHead() returns (t: Task)
      requires Valid() && 0 <= maxBand && queues[maxBand] != []
      modifies this
      ensures Valid() && old(pending) != []
      ensures Takes(old(Abstract()), Abstract(), t)
    {
      ghost var i := TopBandHead();
      t := queues[maxBand][0];
      queues := queues[maxBand := queues[maxBand][1..]];
      queueDepth := queueDepth - 1;
      if queues[maxBand] == [] { maxBand := maxBand - 1; }
      pending := Without(pending, i);
    }

    lemma BandsEmpty()
      requires Valid() && maxBand < 0
      ensures pending == []
    {
      if pending != [] {
        OfBandEmpty(pending, Band(pending[0]));
        assert false;
      }
    }

    /** The critical section of a worker, entered when its wait predicate
        holds: `None` means that the worker exits. A worker that stays always
        gets a task. */
    method Poll() returns (out: Option<Task>)
      requires Valid() && (shuttingDown || queueDepth > 0)
      modifies this
      ensures Valid()
      ensures out.None? <==> old(shuttingDown) && old(pending) == []
      ensures out.None? ==> Abstract() == old(Abstract())
      ensures out.Some? ==> Takes(old(Abstract()), Abstract(), out.value)
    {
      if shuttingDown && queueDepth == 0 {
        return None;
      }
      out := Pop();
    }

    /** Whether this caller is the one that joins the workers. */
    method Shutdown() returns (join: bool)
      requires Valid()
      modifies this
      ensures Valid()
      ensures Abstract() == old(Abstract()).(down := true)
      ensures join == !old(shuttingDown)
    {
      join := false;
      if !shuttingDown {
        shuttingDown := true;
        join := true;
      }
    }

    /** The depth counter is the sum of the band lengths. */
    lemma DepthIsSum()
      requires Valid()
      ensures queueDepth == BandTotal(pending, BANDS)
    {
      BandsCoverAll(pending);
    }
  }

  // ---- Submitters, workers and shutdown -----------------------------------

  datatype Worker = Idle | Running(task: Task) | Exited

  /** `accepted` and `popped` record the tasks in the order of those events. */
  datatype System = System(q: Queue, workers: seq<Worker>, accepted: seq<Task>, popped: seq<Task>)

  datatype Event = Submit(t: Task) | Wake(w: nat) | Finish(w: nat) | Shutdown

  predicate Initial(s: System) {
    && s.q.pending == [] && !s.q.down && s.q.bound > 0
    && (forall w :: 0 <= w < |s.workers| ==> s.workers[w].Idle?)
    && s.accepted == [] && s.popped == []
  }

  ghost predicate Wakes(s: System, s': System, w: nat)
    requires w < |s.workers|
  {
    if s.q.pending != [] then
      && |s'.popped| > 0
      && Takes(s.q, s'.q, s'.popped[|s'.popped| - 1])
      && s'.popped == s.popped + [s'.popped[|s'.popped| - 1]]
      && s'.workers == s.workers[w := Running(s'.popped[|s'.popped| - 1])]
      && s'.accepted == s.accepted
    else
      s.q.down && s' == s.(workers := s.workers[w := Exited])
  }

  /** One critical section of some thread, or the end of a task's body. */
  ghost predicate Next(s: System, s': System, e: Event) {
    match e
    case Submit(t) =>
      if Accepts(s.q) then s' == s.(q := s.q.(pending := s.q.pending + [t]), accepted := s.accepted + [t]) else s' == s
    case Wake(w) => w < |s.workers| && s.workers[w].Idle? && Wakes(s, s', w)
    case Finish(w) => w < |s.workers| && s.workers[w].Running? && s' == s.(workers := s.workers[w := Idle])
    case Shutdown => s' == s.(q := s.q.(down := true))
  }

  ghost predicate StepAt(states: seq<System>, events: seq<Event>, i: nat)
    requires i < |events| < |states|
  {
    Next(states[i], states[i + 1], events[i])
  }

  ghost predicate Run(states: seq<System>, events: seq<Event>) {
    && |states| == |events| + 1
    && Initial(states[0])
    && forall i :: 0 <= i < |events| ==> StepAt(states, events, i)
  }

  ghost predicate Inv(s: System) {
    && |s.q.pending| <= s.q.bound
    && (forall b :: 0 <= b < BANDS ==> OfBand(s.accepted, b) == OfBand(s.popped, b) + OfBand(s.q.pending, b))
    && multiset(s.accepted) == multiset(s.popped) + multiset(s.q.pending)
    && ((exists w :: 0 <= w < |s.workers| && s.workers[w].Exited?) ==> s.q.down && s.q.pending == [])
  }

  lemma WithoutMultiset(ts: seq<Task>, i: nat)
    requires i < |ts|
    ensures multiset(ts) == multiset([ts[i]]) + multiset(Without(ts, i))
  {
    assert ts == ts[..i] + [ts[i]] + ts[i + 1..];
  }

  /** Moving a band's head from the pending list to the end of the taken list
      keeps the band's order. */
  lemma MoveBandHead(accepted: seq<Task>, popped: seq<Task>, ts: seq<Task>, i: nat, b: int)
    requires Foremost(ts, i)
    requires OfBand(accepted, b) == OfBand(popped, b) + OfBand(ts, b)
    ensures OfBand(accepted, b) == OfBand(popped + [ts[i]], b) + OfBand(Without(ts, i), b)
  {
    OfBandWithout(ts, i, b);
    OfBandSnoc(popped, ts[i], b);
    if Band(ts[i]) == b {
      ShiftHead(OfBand(popped, b), OfBand(ts, b));
    }
  }

  lemma ShiftHead(x: seq<Task>, y: seq<Task>)
    requires y != []
    ensures x + y == (x + [y[0]]) + y[1..]
  {
  }

  lemma TakesKeeps(s: System, s': System, t: Task)
    requires Inv(s) && Takes(s.q, s'.q, t)
    requires s'.popped == s.popped + [t] && s'.accepted == s.accepted
    ensures |s'.q.pending| == |s.q.pending| - 1
    ensures forall b :: 0 <= b < BANDS ==> OfBand(s'.accepted, b) == OfBand(s'.popped, b) + OfBand(s'.q.pending, b)
    ensures multiset(s'.accepted) == multiset(s'.popped) + multiset(s'.q.pending)
  {
    var ts := s.q.pending;
    var i: nat :| Best(ts, i) && t == ts[i] && s'.q == s.q.(pending := Without(ts, i));
    BestIsForemost(ts, i);
    forall b | 0 <= b < BANDS
      ensures OfBand(s'.accepted, b) == OfBand(s'.popped, b) + OfBand(s'.q.pending, b)
    {
      MoveBandHead(s.accepted, s.popped, ts, i, b);
    }
    WithoutMultiset(ts, i);
  }

  lemma AddToBand(accepted: seq<Task>, popped: seq<Task>, ts: seq<Task>, t: Task, b: int)
    requires OfBand(accepted, b) == OfBand(popped, b) + OfBand(ts, b)
    ensures OfBand(accepted + [t], b) == OfBand(popped, b) + OfBand(ts + [t], b)
  {
    OfBandSnoc(accepted, t, b);
    OfBandSnoc(ts, t, b);
    Associate(OfBand(popped, b), OfBand(ts, b), [t]);
  }

  lemma SubmitKeeps(s: System, t: Task)
    requires Inv(s)
    ensures var a, p := s.accepted + [t], s.q.pending + [t];
      && (forall b :: 0 <= b < BANDS ==> OfBand(a, b) == OfBand(s.popped, b) + OfBand(p, b))
      && multiset(a) == multiset(s.popped) + multiset(p)
  {
    forall b | 0 <= b < BANDS
      ensures OfBand(s.accepted + [t], b) == OfBand(s.popped, b) + OfBand(s.q.pending + [t], b)
    {
      AddToBand(s.accepted, s.popped, s.q.pending, t, b);
    }
  }

  lemma NextKeeps(s: System, s': System, e: Event)
    requires Inv(s) && Next(s, s', e)
    ensures Inv(s')
  {
    match e
    case Submit(t) =>
      SubmitKeeps(s, t);
    case Wake(w) =>
      if s.q.pending != [] {
        TakesKeeps(s, s', s'.popped[|s'.popped| - 1]);
      }
    case Finish(w) =>
    case Shutdown =>
  }

  lemma RunStep(states: seq<System>, events: seq<Event>, i: nat)
    requires Run(states, events) && i < |events|
    ensures Next(states[i], states[i + 1], events[i])
  {
    assert StepAt(states, events, i);
  }

  lemma {:induction false} RunInv(states: seq<System>, events: seq<Event>, i: nat)
    requires Run(states, events) && i < |states|
    ensures Inv(states[i])
  {
    if i > 0 {
      RunInv(states, events, i - 1);
      RunStep(states, events, i - 1);
      NextKeeps(states[i - 1], states[i], events[i - 1]);
    }
  }

  /** The tasks that are exactly as urgent as `t`, in order. */
  function Level(ts: seq<Task>, t: Task): seq<Task> {
    if ts == [] then []
    else (if !Higher(ts[0], t) && !Higher(t, ts[0]) then [ts[0]] else []) + Level(ts[1..], t)
  }

  lemma {:induction false} LevelIsBand(ts: seq<Task>, t: Task)
    ensures Level(ts, t) == OfBand(ts, Band(t))
  {
    if ts != [] {
      BandOrder(ts[0], t);
      LevelIsBand(ts[1..], t);
    }
  }

  /** In every state of every run the queue keeps its bound, equally urgent tasks
      come out in the order they went in, every accepted task is pending or was
      taken exactly once, and once any worker has exited all of them were
      taken. */
  lemma EveryTaskTakenOnce(states: seq<System>, events: seq<Event>, i: nat)
    requires Run(states, events) && i < |states|
    ensures var s := states[i];
      && |s.q.pending| <= s.q.bound
      && (forall t :: Level(s.accepted, t) == Level(s.popped, t) + Level(s.q.pending, t))
      && multiset(s.accepted) == multiset(s.popped) + multiset(s.q.pending)
      && (forall w :: 0 <= w < |s.workers| && s.workers[w].Exited? ==> multiset(s.accepted) == multiset(s.popped))
  {
    RunInv(states, events, i);
    var s := states[i];
    forall t ensures Level(s.accepted, t) == Level(s.popped, t) + Level(s.q.pending, t) {
      LevelIsBand(s.accepted, t);
      LevelIsBand(s.popped, t);
      LevelIsBand(s.q.pending, t);
    }
  }

  // ---- Draining -----------------------------------------------------------

  function Weight(ws: seq<Worker>): nat {
    if ws == [] then 0
    else (match ws[0] case Idle => 1 case Running(_) => 2 case Exited => 0) + Weight(ws[1..])
  }

  lemma {:induction false} WeightUpdate(ws: seq<Worker>, w: nat, x: Worker)
    requires w < |ws|
    ensures Weight(ws[w := x]) - Weight([x]) == Weight(ws) - Weight([ws[w]])
  {
    if w > 0 {
      WeightUpdate(ws[1..], w - 1, x);
      assert ws[w := x][1..] == ws[1..][w - 1 := x];
    } else {
      assert ws[0 := x][1..] == ws[1..];
    }
  }

  function Left(s: System): nat { 3 * |s.q.pending| + Weight(s.workers) }

  predicate AllExited(s: System) {
    forall w :: 0 <= w < |s.workers| ==> s.workers[w].Exited?
  }

  /** After shutdown every step of a worker is progress and nothing adds work. */
  lemma DrainProgress(s: System, s': System, e: Event)
    requires s.q.down && Next(s, s', e)
    ensures s'.q.down && s'.accepted == s.accepted
    ensures if e.Wake? || e.Finish? then Left(s') < Left(s) else Left(s') == Left(s)
  {
    match e
    case Wake(w) => {
      if s.q.pending != [] {
        var t := s'.popped[|s'.popped| - 1];
        WeightUpdate(s.workers, w, Running(t));
        var i: nat :| Best(s.q.pending, i) && t == s.q.pending[i] && s'.q == s.q.(pending := Without(s.q.pending, i));
      } else {
        WeightUpdate(s.workers, w, Exited);
      }
    }
    case Finish(w) => WeightUpdate(s.workers, w, Idle);
    case Submit(_) =>
    case Shutdown =>
  }

  lemma BestExists(ts: seq<Task>) returns (i: nat)
    requires ts != []
    ensures Best(ts, i)
  {
    i := ForemostExists(ts);
    BestIsForemost(ts, i);
  }

  lemma {:induction false} ForemostExists(ts: seq<Task>) returns (i: nat)
    requires ts != []
    ensures Foremost(ts, i)
  {
    if |ts| == 1 {
      i := 0;
    } else {
      var k := ForemostExists(ts[..|ts| - 1]);
      i := if Band(ts[k]) < Band(ts[|ts| - 1]) then |ts| - 1 else k;
      assert forall j :: 0 <= j < |ts| - 1 ==> ts[j] == ts[..|ts| - 1][j];
    }
  }

  /** No worker is ever stuck after shutdown: until all have exited, one of
      them can take a step. */
  lemma DrainEnabled(s: System) returns (s': System, e: Event)
    requires s.q.down && !AllExited(s)
    ensures (e.Wake? || e.Finish?) && Next(s, s', e)
  {
    var w :| 0 <= w < |s.workers| && !s.workers[w].Exited?;
    if s.workers[w].Running? {
      e, s' := Finish(w), s.(workers := s.workers[w := Idle]);
    } else {
      e := Wake(w);
      if s.q.pending == [] {
        s' := s.(workers := s.workers[w := Exited]);
      } else {
        var i := BestExists(s.q.pending);
        var t := s.q.pending[i];
        var q' := s.q.(pending := Without(s.q.pending, i));
        assert Takes(s.q, q', t);
        s' := System(q', s.workers[w := Running(t)], s.accepted, s.popped + [t]);
      }
    }
  }

  /** The worker steps among the first `n` events. */
  function WorkerSteps(events: seq<Event>, n: nat): nat
    requires n <= |events|
  {
    if n == 0 then 0 else WorkerSteps(events, n - 1) + (if events[n - 1].Wake? || events[n - 1].Finish? then 1 else 0)
  }

  /** Drain on shutdown terminates: from the shutdown at `k` on, the workers
      take at most as many steps as there is work left, and no task is accepted. */
  lemma {:induction false} DrainBounded(states: seq<System>, events: seq<Event>, k: nat, n: nat)
    requires Run(states, events) && k <= n <= |events| && states[k].q.down
    ensures states[n].q.down && states[n].accepted == states[k].accepted
    ensures WorkerSteps(events, n) - WorkerSteps(events, k) + Left(states[n]) <= Left(states[k])
  {
    if n > k {
      DrainBounded(states, events, k, n - 1);
      RunStep(states, events, n - 1);
      DrainProgress(states[n - 1], states[n], events[n - 1]);
    }
  }
}
