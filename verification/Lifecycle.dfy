/** The life of transfers in the runtime: submission, queueing, execution and
    finalization as interleaved atomic steps over shared telemetry counters.
    The transition table is what each state change is held against. */
module Lifecycle {
  import opened Basics

  datatype State =
    | Created | Planned | Reserved | Queued | Active | Verifying | Committing
    | Completed | Cancelled | Failed | RolledBack

  predicate Terminal(s: State) { s == Completed || s == Cancelled || s == Failed || s == RolledBack }

  function Index(s: State): (i: nat)
    ensures i < 11
  {
    match s
    case Created => 0 case Planned => 1 case Reserved => 2 case Queued => 3
    case Active => 4 case Verifying => 5 case Committing => 6
    case Completed => 7 case Cancelled => 8 case Failed => 9 case RolledBack => 10
  }

  // ---- The transition table -----------------------------------------------

  /** Which changes make sense: on to the next stage, from verifying straight to
      completed, and from every live state to an end other than completed, save
      that only what is reserved can be rolled back and a commit is no longer
      cancelled. */
  predicate Edge(a: State, b: State) {
    && !Terminal(a)
    && (|| Index(b) == Index(a) + 1
        || (a == Verifying && b == Completed)
        || b == Failed
        || (b == Cancelled && a != Committing)
        || (b == RolledBack && Index(a) >= Index(Reserved)))
  }

  /** Row `a` of a table says which changes from `a` are allowed. */
  predicate RowRight(row: seq<bool>, a: State) {
    |row| == 11 && forall b: State :: row[Index(b)] <==> Edge(a, b)
  }

  method BuildTable() returns (m: seq<seq<bool>>)
    ensures |m| == 11 && forall a: State :: RowRight(m[Index(a)], a)
  {
    var none := seq(11, j => false);
    m := seq(11, i => none);
    m := m[0 := none[1 := true][9 := true][8 := true]];
    m := m[1 := none[2 := true][9 := true][8 := true]];
    m := m[2 := none[3 := true][10 := true][8 := true][9 := true]];
    m := m[3 := none[4 := true][8 := true][9 := true][10 := true]];
    m := m[4 := none[5 := true][8 := true][9 := true][10 := true]];
    m := m[5 := none[6 := true][7 := true][8 := true][9 := true][10 := true]];
    m := m[6 := none[7 := true][9 := true][10 := true]];
  }

  /** The table has no cycles and its terminal states no way out. */
  lemma EdgeForward(a: State, b: State)
    requires Edge(a, b)
    ensures Index(a) < Index(b) && !Terminal(a)
  {
  }

  // ---- Records ------------------------------------------------------------

  /** What the thread in charge of a transfer does next. */
  datatype Phase =
    // in submit
    | AtPlan | AtReserve | AtMarkReserved | AtMarkQueued | AtPush | AtOffer | AtRetract
    // in the scheduler
    | InQueue
    // in the driver
    | AtActivate | AtStart | AtCountActive | AtPop | Executing
    // in finalize
    | AtTerminal | AtUncount | AtTally | AtMoved | AtPath | AtVerified
    | Done

  /** What is fixed at submission. */
  datatype Order = Order(scheduled: nat, chunks: nat, direct: bool, verify: bool)

  /** What an execution leaves on the record. */
  datatype Report = Report(error: Option<Category>, completed: nat, verified: nat, digestsEqual: bool)

  /** A transfer record. `executed` remembers that the driver took it up. */
  datatype Rec = Rec(
    phase: Phase,
    state: State,
    order: Order,
    report: Report,
    cancel: bool,
    notified: bool,
    started: bool,
    executed: bool)

  const NOTHING := Report(None, 0, 0, false)
  const EXHAUSTED := Report(Some(ResourceExhausted), 0, 0, false)

  /** A change of state, ignored unless the table has it. */
  function SetState(s: State, next: State): State { if Edge(s, next) then next else s }

  /** The end of a transfer, ignored once it has one. */
  function SetTerminal(s: State, end: State): State { if Terminal(s) then s else end }

  function EndOf(error: Option<Category>): State {
    if error.None? then Completed else if error.value == Cancellation then Cancelled else Failed
  }

  /** The status of a record, changed under its lock. */
  class Status {
    var state: State
    var error: Option<Category>
    var notified: bool

    constructor ()
      ensures state == Created && error.None? && !notified
    {
      state, error, notified := Created, None, false;
    }

    /** Only edges of the table are taken. */
    method Change(table: seq<seq<bool>>, next: State)
      requires |table| == 11 && forall a: State :: RowRight(table[Index(a)], a)
      modifies `state
      ensures state == SetState(old(state), next)
      ensures state == old(state) || Edge(old(state), state)
    {
      assert RowRight(table[Index(state)], state);
      if !table[Index(state)][Index(next)] {
        return;
      }
      state := next;
    }

    /** The first end wins. */
    method End(end: State, e: Option<Category>)
      requires Terminal(end)
      modifies this
      ensures state == SetTerminal(old(state), end) && Terminal(state)
      ensures old(Terminal(state)) ==> unchanged(this)
      ensures !old(Terminal(state)) ==> error == e && notified
    {
      if Terminal(state) {
        return;
      }
      state, error := end, e;
      if !notified { notified := true; }
    }
  }

  // ---- Telemetry ----------------------------------------------------------

  /** The telemetry counters. */
  datatype Telemetry = Telemetry(
    created: int, active: int, queueDepth: int,
    completed: int, failed: int, cancelled: int,
    moved: int, direct: int, staged: int, verified: int)

  const ZERO := Telemetry(0, 0, 0, 0, 0, 0, 0, 0, 0, 0)

  // ---- The steps ----------------------------------------------------------

  /** What an execution may return: success means that all bytes are complete,
      that a nonempty transfer reached verifying and that a requested
      verification found equal digests; cancellation is only reported when it
      was requested. */
  predicate Returns(t: Rec, r: Report) {
    && (r.error.None? ==> Satisfies(t.order, r) && (t.order.chunks > 0 ==> t.state == Verifying))
    && (r.error == Some(Cancellation) ==> t.cancel)
  }

  predicate Satisfies(o: Order, r: Report) {
    && r.completed == o.scheduled
    && r.verified == (if o.verify then o.scheduled else 0)
    && (o.verify && o.scheduled > 0 ==> r.digestsEqual)
  }

  /** What a thread may do after `p`. In submit: states first, then the queue
      counter, then the scheduler, which may refuse. In finalize: the
      end is set first, the counters follow one by one. */
  predicate Follows(p: Phase, p': Phase, ok: bool) {
    match p
    case AtPlan => p' == AtReserve
    case AtReserve => p' == AtMarkReserved || p' == AtTerminal
    case AtMarkReserved => p' == AtMarkQueued
    case AtMarkQueued => p' == AtPush
    case AtPush => p' == AtOffer
    case AtOffer => p' == InQueue || p' == AtRetract
    case AtRetract => p' == AtTerminal
    case InQueue => p' == AtActivate
    case AtActivate => p' == AtStart
    case AtStart => p' == AtCountActive
    case AtCountActive => p' == AtPop
    case AtPop => p' == Executing
    case Executing => p' == Executing || p' == AtTerminal
    case AtTerminal => p' == AtUncount
    case AtUncount => p' == AtTally
    case AtTally => p' == if ok then AtMoved else Done
    case AtMoved => p' == AtPath
    case AtPath => p' == AtVerified
    case AtVerified => p' == Done
    case Done => false
  }

  function StateAfter(p: Phase, s: State, error: Option<Category>): State {
    match p
    case AtPlan => SetState(s, Planned)
    case AtMarkReserved => SetState(s, Reserved)
    case AtMarkQueued => SetState(s, Queued)
    case AtActivate => SetState(s, Active)
    case AtTerminal => SetTerminal(s, EndOf(error))
    case _ => s
  }

  /** One atomic action on a record outside its execution. */
  predicate Advances(t: Rec, t': Rec) {
    && t.phase != Executing && Follows(t.phase, t'.phase, t.report.error.None?)
    && t'.order == t.order && t'.cancel == t.cancel
    && t'.report == (if t'.phase == AtTerminal then EXHAUSTED else t.report)
    && t'.state == StateAfter(t.phase, t.state, t.report.error)
    && t'.notified == (t.notified || t.phase == AtTerminal)
    && t'.started == (t.phase == AtStart || (t.started && t.phase != AtUncount))
    && t'.executed == (t.executed || t.phase == AtActivate)
  }

  /** The execution reports progress, reaches verifying or returns. */
  predicate Executes(t: Rec, t': Rec) {
    && t.phase == Executing
    && (|| t' == t.(report := t.report.(completed := t'.report.completed))
        || (t.order.chunks > 0 && t' == t.(state := Verifying))
        || (Returns(t, t'.report) && t' == t.(phase := AtTerminal, report := t'.report)))
  }

  predicate Acts(t: Rec, t': Rec) { Advances(t, t') || Executes(t, t') }

  // What the action at a record's phase adds to each counter.

  function AddsActive(t: Rec): int {
    if t.phase == AtCountActive then 1 else if t.phase == AtUncount && t.started then -1 else 0
  }

  function AddsQueueDepth(t: Rec): int {
    PhaseAddsQueueDepth(t.phase)
  }

  function PhaseAddsQueueDepth(p: Phase): int {
    if p == AtPush then 1 else if p == AtRetract || p == AtPop then -1 else 0
  }

  /** The tally of an end: completed, failed or cancelled. */
  function AddsEnd(t: Rec, end: State): int {
    if t.phase == AtTally && EndOf(t.report.error) == end then 1 else 0
  }

  function AddsMoved(t: Rec): int { if t.phase == AtMoved then t.report.completed else 0 }

  function AddsPath(t: Rec, direct: bool): int {
    if t.phase == AtPath && t.order.direct == direct then t.report.completed else 0
  }

  function AddsVerified(t: Rec): int { if t.phase == AtVerified then t.report.verified else 0 }

  function Counted(n: Telemetry, t: Rec): Telemetry {
    Telemetry(n.created, n.active + AddsActive(t), n.queueDepth + AddsQueueDepth(t),
              n.completed + AddsEnd(t, Completed), n.failed + AddsEnd(t, Failed), n.cancelled + AddsEnd(t, Cancelled),
              n.moved + AddsMoved(t), n.direct + AddsPath(t, true), n.staged + AddsPath(t, false),
              n.verified + AddsVerified(t))
  }

  datatype System = System(ts: seq<Rec>, tel: Telemetry)

  datatype Event = Submit(order: Order) | Act(i: nat) | Cancel(i: nat)

  /** A record as `submit` inserts it. */
  function Submitted(o: Order): Rec { Rec(AtPlan, Created, o, NOTHING, false, false, false, false) }

  predicate Next(s: System, s': System, e: Event) {
    match e
    case Submit(o) =>
      && (o.chunks == 0 <==> o.scheduled == 0)
      && s' == System(s.ts + [Submitted(o)], s.tel.(created := s.tel.created + 1))
    case Act(i) =>
      && i < |s.ts| == |s'.ts|
      && Acts(s.ts[i], s'.ts[i])
      && s' == System(s.ts[i := s'.ts[i]], Counted(s.tel, s.ts[i]))
    case Cancel(i) =>
      && i < |s.ts|
      // The end is tested before the flag is set, so the flag may come late.
      && (|| s' == s.(ts := s.ts[i := s.ts[i].(cancel := true)])
          || (Terminal(s.ts[i].state) && s' == s))
  }

  predicate StepAt(states: seq<System>, events: seq<Event>, i: nat)
    requires i < |events| < |states|
  {
    Next(states[i], states[i + 1], events[i])
  }

  predicate Run(states: seq<System>, events: seq<Event>) {
    && |states| == |events| + 1 && states[0] == System([], ZERO)
    && forall i :: 0 <= i < |events| ==> StepAt(states, events, i)
  }

  // ---- The invariant of a record ------------------------------------------

  predicate Submitting(p: Phase) {
    || p == AtPlan || p == AtReserve || p == AtMarkReserved || p == AtMarkQueued
    || p == AtPush || p == AtOffer || p == AtRetract || p == InQueue || p == AtActivate
  }

  predicate Driving(p: Phase) { p == AtStart || p == AtCountActive || p == AtPop || p == Executing }

  /** The state a record shows while its outcome is open. */
  predicate StateIn(p: Phase, s: State) {
    if p == AtPlan then s == Created
    else if p == AtReserve || p == AtMarkReserved then s == Planned
    else if p == AtMarkQueued then s == Reserved
    else if p == Executing then s == Active || s == Verifying
    else if Submitting(p) then s == Queued
    else s == Active
  }

  predicate OpenInv(t: Rec) {
    && StateIn(t.phase, t.state) && t.report.error.None?
    && (t.executed <==> Driving(t.phase))
    && (t.started <==> Driving(t.phase) && t.phase != AtStart)
  }

  predicate ClosedInv(t: Rec) {
    && (t.report.error.None? ==> t.executed && Satisfies(t.order, t.report))
    && (!t.executed ==> t.report == EXHAUSTED)
    && (t.phase == AtMoved || t.phase == AtPath || t.phase == AtVerified ==> t.report.error.None?)
    && (if t.phase == AtTerminal || t.phase == AtUncount then t.started == t.executed else !t.started)
    && (if t.phase == AtTerminal then EndsLive(t) else t.state == EndOf(t.report.error))
  }

  predicate EndsLive(t: Rec) {
    && (if t.executed then t.state == Active || t.state == Verifying else t.state == Planned || t.state == Queued)
    && (t.report.error.None? && t.order.chunks > 0 ==> t.state == Verifying)
  }

  predicate RecInv(t: Rec) {
    && (t.order.chunks == 0 <==> t.order.scheduled == 0)
    && (t.notified <==> Terminal(t.state))
    && (t.order.chunks == 0 ==> t.state != Verifying)
    && (t.report.error == Some(Cancellation) ==> t.cancel)
    && (if Submitting(t.phase) || Driving(t.phase) then OpenInv(t) else ClosedInv(t))
  }

  /** How a state may change: along the table, but from active to completed
      for a transfer without chunks; an end is final. */
  predicate Lawful(t: Rec, t': Rec) {
    && (|| t'.state == t.state || Edge(t.state, t'.state)
        || (t.order.chunks == 0 && t.state == Active && t'.state == Completed))
    && (Terminal(t.state) ==> t'.state == t.state && t'.report == t.report)
  }

  lemma OpenAdvances(t: Rec, t': Rec)
    requires (Submitting(t.phase) || Driving(t.phase)) && RecInv(t) && Advances(t, t')
    ensures RecInv(t') && Lawful(t, t')
  {
  }

  lemma ClosedAdvances(t: Rec, t': Rec)
    requires !Submitting(t.phase) && !Driving(t.phase) && RecInv(t) && Advances(t, t')
    ensures RecInv(t') && Lawful(t, t')
  {
  }

  lemma ExecutesKeeps(t: Rec, t': Rec)
    requires RecInv(t) && Executes(t, t')
    ensures RecInv(t') && Lawful(t, t')
  {
  }

  /** Every action keeps the record's invariant and changes its state lawfully. */
  lemma ActsKeeps(t: Rec, t': Rec)
    requires RecInv(t) && Acts(t, t')
    ensures RecInv(t') && Lawful(t, t') && t'.order == t.order
  {
    if Executes(t, t') {
      ExecutesKeeps(t, t');
    } else if Submitting(t.phase) || Driving(t.phase) {
      OpenAdvances(t, t');
    } else {
      ClosedAdvances(t, t');
    }
  }

  // ---- What each record adds to the counters ------------------------------

  function When(b: bool, n: nat): nat { if b then n else 0 }

  predicate Waiting(p: Phase) {
    || p == AtOffer || p == InQueue || p == AtRetract || p == AtActivate
    || p == AtStart || p == AtCountActive || p == AtPop
  }

  function Queueing(t: Rec): int {
    When(Waiting(t.phase), 1)
  }

  function Running(t: Rec): int {
    When(t.phase == AtPop || t.phase == Executing || (t.executed && (t.phase == AtTerminal || t.phase == AtUncount)), 1)
  }

  predicate Tallied(p: Phase) { p == AtMoved || p == AtPath || p == AtVerified || p == Done }

  function EndedAs(end: State): Rec -> int {
    (t: Rec) => When(Tallied(t.phase) && EndOf(t.report.error) == end, 1)
  }

  function MovedBy(t: Rec): int {
    When(t.report.error.None? && (t.phase == AtPath || t.phase == AtVerified || t.phase == Done), t.report.completed)
  }

  function PathBy(direct: bool): Rec -> int {
    (t: Rec) => When(t.report.error.None? && t.order.direct == direct && (t.phase == AtVerified || t.phase == Done),
                     t.report.completed)
  }

  function VerifiedBy(t: Rec): int { When(t.report.error.None? && t.phase == Done, t.report.verified) }

  lemma QueueStep(t: Rec, t': Rec)
    requires RecInv(t) && Acts(t, t')
    ensures Queueing(t') == Queueing(t) + AddsQueueDepth(t)
  {
    if Advances(t, t') { QueueAdvance(t.phase, t'.phase, t.report.error.None?); }
  }

  lemma QueueAdvance(p: Phase, p': Phase, ok: bool)
    requires Follows(p, p', ok)
    ensures When(Waiting(p'), 1) == When(Waiting(p), 1) + PhaseAddsQueueDepth(p)
  {
  }

  lemma ActiveStep(t: Rec, t': Rec)
    requires RecInv(t) && Acts(t, t')
    ensures Running(t') == Running(t) + AddsActive(t)
  {
    if Advances(t, t') { ActiveAdvance(t, t'); }
  }

  lemma ActiveAdvance(t: Rec, t': Rec)
    requires RecInv(t) && Advances(t, t')
    ensures Running(t') == Running(t) + AddsActive(t)
  {
  }

  predicate Late(p: Phase) { p == AtTally || p == AtMoved || p == AtPath || p == AtVerified }

  lemma PhaseNotYetTallied(p: Phase, p': Phase, ok: bool)
    requires Follows(p, p', ok) && !Late(p)
    ensures !Tallied(p) && !Tallied(p')
  {
  }

  lemma NotYetTallied(t: Rec, t': Rec)
    requires Acts(t, t') && !Late(t.phase)
    ensures !Tallied(t.phase) && !Tallied(t'.phase)
  {
    if Advances(t, t') { PhaseNotYetTallied(t.phase, t'.phase, t.report.error.None?); }
  }

  lemma LateStep(t: Rec, t': Rec)
    requires RecInv(t) && Acts(t, t') && Late(t.phase)
    ensures LateChange(t, t')
  {
  }

  lemma LateOrNot(t: Rec, t': Rec)
    requires RecInv(t) && Acts(t, t')
    ensures if Late(t.phase) then LateChange(t, t') else !Tallied(t.phase) && !Tallied(t'.phase)
  {
    if Late(t.phase) {
      LateStep(t, t');
    } else {
      NotYetTallied(t, t');
    }
  }

  predicate LateChange(t: Rec, t': Rec) {
    && t'.report == t.report && t'.order == t.order && (t.phase != AtTally ==> t.report.error.None?)
    && t'.phase == (if t.phase == AtTally then (if t.report.error.None? then AtMoved else Done)
                    else if t.phase == AtMoved then AtPath else if t.phase == AtPath then AtVerified else Done)
  }

  lemma EndStep(t: Rec, t': Rec, end: State)
    requires if Late(t.phase) then LateChange(t, t') else !Tallied(t.phase) && !Tallied(t'.phase)
    ensures EndedAs(end)(t') == EndedAs(end)(t) + AddsEnd(t, end)
  {
  }

  lemma MovedStep(t: Rec, t': Rec)
    requires if Late(t.phase) then LateChange(t, t') else !Tallied(t.phase) && !Tallied(t'.phase)
    ensures MovedBy(t') == MovedBy(t) + AddsMoved(t)
  {
  }

  lemma PathStep(t: Rec, t': Rec, direct: bool)
    requires if Late(t.phase) then LateChange(t, t') else !Tallied(t.phase) && !Tallied(t'.phase)
    ensures PathBy(direct)(t') == PathBy(direct)(t) + AddsPath(t, direct)
  {
  }

  lemma VerifiedStep(t: Rec, t': Rec)
    requires if Late(t.phase) then LateChange(t, t') else !Tallied(t.phase) && !Tallied(t'.phase)
    ensures VerifiedBy(t') == VerifiedBy(t) + AddsVerified(t)
  {
  }

  // ---- Whole runs ---------------------------------------------------------

  function SumOf(ts: seq<Rec>, f: Rec -> int): int {
    if ts == [] then 0 else SumOf(ts[..|ts| - 1], f) + f(ts[|ts| - 1])
  }

  lemma {:induction false} SumUpdate(ts: seq<Rec>, i: nat, t: Rec, f: Rec -> int)
    requires i < |ts|
    ensures SumOf(ts[i := t], f) == SumOf(ts, f) - f(ts[i]) + f(t)
  {
    var n := |ts| - 1;
    if i == n {
      assert ts[i := t][..n] == ts[..n];
    } else {
      SumUpdate(ts[..n], i, t, f);
      assert ts[i := t][..n] == ts[..n][i := t];
    }
  }

  lemma SumSnoc(ts: seq<Rec>, t: Rec, f: Rec -> int)
    ensures SumOf(ts + [t], f) == SumOf(ts, f) + f(t)
  {
    assert (ts + [t])[..|ts|] == ts;
  }

  /** Every counter is the sum of what the records stand for. */
  ghost predicate Conserved(s: System) {
    && s.tel.created == |s.ts|
    && s.tel.queueDepth == SumOf(s.ts, Queueing)
    && s.tel.active == SumOf(s.ts, Running)
    && s.tel.completed == SumOf(s.ts, EndedAs(Completed))
    && s.tel.failed == SumOf(s.ts, EndedAs(Failed))
    && s.tel.cancelled == SumOf(s.ts, EndedAs(Cancelled))
    && s.tel.moved == SumOf(s.ts, MovedBy)
    && s.tel.direct == SumOf(s.ts, PathBy(true))
    && s.tel.staged == SumOf(s.ts, PathBy(false))
    && s.tel.verified == SumOf(s.ts, VerifiedBy)
  }

  predicate AllInv(s: System) { forall i :: 0 <= i < |s.ts| ==> RecInv(s.ts[i]) }

  ghost predicate Inv(s: System) { Conserved(s) && AllInv(s) }

  /** One record changes by `d` in the eyes of `f`. */
  lemma SumStep(s: System, s': System, i: nat, f: Rec -> int, d: int)
    requires i < |s.ts| == |s'.ts| && s'.ts == s.ts[i := s'.ts[i]] && f(s'.ts[i]) == f(s.ts[i]) + d
    ensures SumOf(s'.ts, f) == SumOf(s.ts, f) + d
  {
    SumUpdate(s.ts, i, s'.ts[i], f);
  }

  lemma ActConserves(s: System, s': System, i: nat)
    requires Conserved(s) && i < |s.ts| && RecInv(s.ts[i]) && Next(s, s', Act(i))
    ensures Conserved(s')
  {
    var t, t' := s.ts[i], s'.ts[i];
    QueueStep(t, t');
    SumStep(s, s', i, Queueing, AddsQueueDepth(t));
    ActiveStep(t, t');
    SumStep(s, s', i, Running, AddsActive(t));
    LateOrNot(t, t');
    EndStep(t, t', Completed);
    SumStep(s, s', i, EndedAs(Completed), AddsEnd(t, Completed));
    EndStep(t, t', Failed);
    SumStep(s, s', i, EndedAs(Failed), AddsEnd(t, Failed));
    EndStep(t, t', Cancelled);
    SumStep(s, s', i, EndedAs(Cancelled), AddsEnd(t, Cancelled));
    MovedStep(t, t');
    SumStep(s, s', i, MovedBy, AddsMoved(t));
    PathStep(t, t', true);
    SumStep(s, s', i, PathBy(true), AddsPath(t, true));
    PathStep(t, t', false);
    SumStep(s, s', i, PathBy(false), AddsPath(t, false));
    VerifiedStep(t, t');
    SumStep(s, s', i, VerifiedBy, AddsVerified(t));
  }

  lemma SubmitConserves(s: System, s': System, o: Order)
    requires Conserved(s) && Next(s, s', Submit(o))
    ensures Conserved(s')
  {
    var t := Submitted(o);
    SumSnoc(s.ts, t, Queueing);
    SumSnoc(s.ts, t, Running);
    SumSnoc(s.ts, t, EndedAs(Completed));
    SumSnoc(s.ts, t, EndedAs(Failed));
    SumSnoc(s.ts, t, EndedAs(Cancelled));
    SumSnoc(s.ts, t, MovedBy);
    SumSnoc(s.ts, t, PathBy(true));
    SumSnoc(s.ts, t, PathBy(false));
    SumSnoc(s.ts, t, VerifiedBy);
  }

  lemma CancelCountsNothing(t: Rec)
    ensures var t' := t.(cancel := true);
      && Queueing(t') == Queueing(t) && Running(t') == Running(t)
      && (forall end :: EndedAs(end)(t') == EndedAs(end)(t))
      && MovedBy(t') == MovedBy(t) && VerifiedBy(t') == VerifiedBy(t)
      && (forall direct :: PathBy(direct)(t') == PathBy(direct)(t))
  {
  }

  lemma CancelConserves(s: System, s': System, i: nat)
    requires Conserved(s) && Next(s, s', Cancel(i))
    ensures Conserved(s')
  {
    if s' != s {
      CancelCountsNothing(s.ts[i]);
      SumStep(s, s', i, Queueing, 0);
      SumStep(s, s', i, Running, 0);
      SumStep(s, s', i, EndedAs(Completed), 0);
      SumStep(s, s', i, EndedAs(Failed), 0);
      SumStep(s, s', i, EndedAs(Cancelled), 0);
      SumStep(s, s', i, MovedBy, 0);
      SumStep(s, s', i, PathBy(true), 0);
      SumStep(s, s', i, PathBy(false), 0);
      SumStep(s, s', i, VerifiedBy, 0);
    }
  }

  /** What a step does to the records that already exist. */
  predicate StepLawful(s: System, s': System) {
    && |s'.ts| >= |s.ts|
    && forall i :: 0 <= i < |s.ts| ==> s'.ts[i].order == s.ts[i].order && Lawful(s.ts[i], s'.ts[i])
  }

  lemma NextRecords(s: System, s': System, e: Event)
    requires AllInv(s) && Next(s, s', e)
    ensures AllInv(s') && StepLawful(s, s')
  {
    match e
    case Submit(o) => assert RecInv(Submitted(o));
    case Act(i) => ActsKeeps(s.ts[i], s'.ts[i]);
    case Cancel(i) =>
  }

  lemma NextKeeps(s: System, s': System, e: Event)
    requires Inv(s) && Next(s, s', e)
    ensures Inv(s') && StepLawful(s, s')
  {
    NextRecords(s, s', e);
    match e
    case Submit(o) => SubmitConserves(s, s', o);
    case Act(i) => ActConserves(s, s', i);
    case Cancel(i) => CancelConserves(s, s', i);
  }

  lemma EmptyInv()
    ensures Inv(System([], ZERO))
  {
  }

  lemma {:induction false} RunInv(states: seq<System>, events: seq<Event>, n: nat)
    requires Run(states, events) && n < |states|
    ensures Inv(states[n])
  {
    if n == 0 {
      EmptyInv();
    } else {
      RunInv(states, events, n - 1);
      assert StepAt(states, events, n - 1);
      NextKeeps(states[n - 1], states[n], events[n - 1]);
    }
  }

  /** In every run each change of a transfer's state is an edge of the table,
      except that a transfer without chunks goes from active to completed; and
      no end is ever left. */
  lemma RunFollowsTable(states: seq<System>, events: seq<Event>, n: nat, i: nat)
    requires Run(states, events) && n < |events| && i < |states[n].ts|
    ensures i < |states[n + 1].ts|
    ensures var a, b := states[n].ts[i].state, states[n + 1].ts[i].state;
      && (a != b && states[n].ts[i].order.chunks > 0 ==> Edge(a, b))
      && (a != b && !Edge(a, b) ==> a == Active && b == Completed)
      && (Terminal(a) ==> b == a)
  {
    RunInv(states, events, n);
    assert StepAt(states, events, n);
    NextKeeps(states[n], states[n + 1], events[n]);
    assert Lawful(states[n].ts[i], states[n + 1].ts[i]);
  }

  /** The step to completed is in the table exactly for transfers with chunks. */
  lemma CompletionInTableIffNonempty(t: Rec, t': Rec)
    requires RecInv(t) && Acts(t, t') && t.state != t'.state && t'.state == Completed
    ensures Edge(t.state, t'.state) <==> t.order.chunks > 0
  {
    ActsKeeps(t, t');
  }

  // ---- The way on ---------------------------------------------------------

  /** The phase after `p` when nothing goes wrong. */
  function NextPhase(p: Phase, ok: bool): Phase {
    match p
    case AtPlan => AtReserve
    case AtReserve => AtMarkReserved
    case AtMarkReserved => AtMarkQueued
    case AtMarkQueued => AtPush
    case AtPush => AtOffer
    case AtOffer => InQueue
    case InQueue => AtActivate
    case AtActivate => AtStart
    case AtStart => AtCountActive
    case AtCountActive => AtPop
    case AtPop => Executing
    case AtRetract | Executing => AtTerminal
    case AtTerminal => AtUncount
    case AtUncount => AtTally
    case AtTally => if ok then AtMoved else Done
    case AtMoved => AtPath
    case AtPath => AtVerified
    case AtVerified | Done => Done
  }

  /** An action that every record has until it is done. */
  function Onward(t: Rec): Rec {
    if t.phase == Executing then
      if t.order.chunks > 0 && t.state != Verifying then t.(state := Verifying)
      else
        var verified := if t.order.verify then t.order.scheduled else 0;
        t.(phase := AtTerminal, report := Report(None, t.order.scheduled, verified, true))
    else
      var next := NextPhase(t.phase, t.report.error.None?);
      Rec(next, StateAfter(t.phase, t.state, t.report.error), t.order,
          if next == AtTerminal then EXHAUSTED else t.report,
          t.cancel, t.notified || t.phase == AtTerminal,
          t.phase == AtStart || (t.started && t.phase != AtUncount), t.executed || t.phase == AtActivate)
  }

  function PhaseRank(p: Phase): nat {
    match p
    case AtPlan => 20
    case AtReserve => 19
    case AtMarkReserved => 18
    case AtMarkQueued => 17
    case AtPush => 16
    case AtOffer => 15
    case InQueue | AtRetract => 14
    case AtActivate => 13
    case AtStart => 12
    case AtCountActive => 11
    case AtPop => 10
    case Executing => 9
    case AtTerminal => 7
    case AtUncount => 6
    case AtTally => 5
    case AtMoved => 3
    case AtPath => 2
    case AtVerified => 1
    case Done => 0
  }

  const MOST := 20

  /** How many actions a record can still take, apart from progress reports. */
  function Rank(t: Rec): nat { if t.phase == Executing && t.state == Verifying then 8 else PhaseRank(t.phase) }

  predicate ReportsProgress(t: Rec, t': Rec) {
    t.phase == Executing && t' == t.(report := t.report.(completed := t'.report.completed))
  }

  lemma PhaseFalls(p: Phase, p': Phase, ok: bool)
    requires p != Executing && Follows(p, p', ok)
    ensures PhaseRank(p') < PhaseRank(p)
  {
  }

  lemma ExecutesFalls(t: Rec, t': Rec)
    requires Executes(t, t')
    ensures if ReportsProgress(t, t') then Rank(t') == Rank(t) else Rank(t') < Rank(t)
  {
  }

  lemma ActFalls(t: Rec, t': Rec)
    requires Acts(t, t')
    ensures if ReportsProgress(t, t') then Rank(t') == Rank(t) else Rank(t') < Rank(t)
  {
    if Executes(t, t') {
      ExecutesFalls(t, t');
    } else {
      PhaseFalls(t.phase, t'.phase, t.report.error.None?);
    }
  }

  lemma NextPhaseFollows(p: Phase, ok: bool)
    requires p != Executing && p != Done
    ensures Follows(p, NextPhase(p, ok), ok)
  {
  }

  lemma OnwardActs(t: Rec)
    requires t.phase != Done
    ensures Acts(t, Onward(t)) && Rank(Onward(t)) < Rank(t)
  {
    if t.phase != Executing {
      NextPhaseFollows(t.phase, t.report.error.None?);
      PhaseFalls(t.phase, Onward(t).phase, t.report.error.None?);
    }
  }

  function RankAt(s: System, i: nat): nat { if i < |s.ts| then Rank(s.ts[i]) else MOST }

  /** Event `k` of a run is an action of record `i` other than a progress report. */
  predicate Works(states: seq<System>, events: seq<Event>, i: nat, k: nat)
    requires k < |events| < |states|
  {
    && events[k] == Act(i) && i < |states[k].ts| && i < |states[k + 1].ts|
    && !ReportsProgress(states[k].ts[i], states[k + 1].ts[i])
  }

  function Actions(states: seq<System>, events: seq<Event>, i: nat, n: nat): nat
    requires n <= |events| < |states|
  {
    if n == 0 then 0 else Actions(states, events, i, n - 1) + When(Works(states, events, i, n - 1), 1)
  }

  lemma StepFalls(s: System, s': System, e: Event, i: nat)
    requires Next(s, s', e)
    ensures RankAt(s', i) <= RankAt(s, i)
    ensures e == Act(i) && !ReportsProgress(s.ts[i], s'.ts[i]) ==> RankAt(s', i) < RankAt(s, i)
  {
    if e.Act? { ActFalls(s.ts[e.i], s'.ts[e.i]); }
  }

  /** No record takes more than twenty actions apart from its progress reports. */
  lemma {:induction false} ActionsBounded(states: seq<System>, events: seq<Event>, i: nat, n: nat)
    requires Run(states, events) && n <= |events|
    ensures Actions(states, events, i, n) + RankAt(states[n], i) <= MOST
  {
    if n > 0 {
      ActionsBounded(states, events, i, n - 1);
      assert StepAt(states, events, n - 1);
      StepFalls(states[n - 1], states[n], events[n - 1], i);
    }
  }

  /** Record `i` can take an action that is not a progress report. */
  ghost predicate CanAct(s: System, i: nat) {
    exists s' :: Next(s, s', Act(i)) && RankAt(s', i) < RankAt(s, i)
  }

  function ActedOn(s: System, i: nat): System
    requires i < |s.ts|
  {
    System(s.ts[i := Onward(s.ts[i])], Counted(s.tel, s.ts[i]))
  }

  lemma OnwardNext(s: System, i: nat)
    requires i < |s.ts| && s.ts[i].phase != Done
    ensures Next(s, ActedOn(s, i), Act(i)) && RankAt(ActedOn(s, i), i) < RankAt(s, i)
  {
    OnwardActs(s.ts[i]);
  }

  /** In every run a record can act until it is done, and then it has its end
      and whoever waits for it has been told. Together with the bound on its
      actions: once its execution returns, so does every wait for it. */
  lemma ActsUntilDone(states: seq<System>, events: seq<Event>, n: nat, i: nat)
    requires Run(states, events) && n < |states| && i < |states[n].ts|
    ensures var t := states[n].ts[i];
      if t.phase == Done then Terminal(t.state) && t.notified else CanAct(states[n], i)
  {
    RunInv(states, events, n);
    assert RecInv(states[n].ts[i]);
    if states[n].ts[i].phase != Done { OnwardNext(states[n], i); }
  }

  // ---- Transfers without chunks -------------------------------------------

  /** A run with a single record, which is now `t`. */
  predicate Alone(states: seq<System>, events: seq<Event>, t: Rec) {
    Run(states, events) && states[|events|].ts == [t]
  }

  lemma StepStays(states: seq<System>, events: seq<Event>, e: Event, s: System, i: nat)
    requires Run(states, events) && Next(states[|events|], s, e) && i <= |events|
    ensures StepAt(states + [s], events + [e], i)
  {
    assert (states + [s])[i] == states[i];
    if i < |events| {
      assert StepAt(states, events, i);
      assert (states + [s])[i + 1] == states[i + 1] && (events + [e])[i] == events[i];
    }
  }

  lemma RunSnoc(states: seq<System>, events: seq<Event>, e: Event, s: System)
    requires Run(states, events) && Next(states[|events|], s, e)
    ensures Run(states + [s], events + [e])
  {
    forall i | 0 <= i < |events + [e]| ensures StepAt(states + [s], events + [e], i) {
      StepStays(states, events, e, s, i);
    }
  }

  lemma GoOn(states: seq<System>, events: seq<Event>, t: Rec) returns (states': seq<System>, events': seq<Event>)
    requires Alone(states, events, t) && t.phase != Done
    ensures Alone(states', events', Onward(t)) && |events'| == |events| + 1 && states'[|events|].ts == [t]
  {
    var s := states[|events|];
    OnwardNext(s, 0);
    RunSnoc(states, events, Act(0), ActedOn(s, 0));
    states', events' := states + [ActedOn(s, 0)], events + [Act(0)];
    assert s.ts[0 := Onward(t)] == [Onward(t)];
  }

  /** A transfer without chunks that nothing has gone wrong with so far. */
  predicate Hopeful(t: Rec) {
    RecInv(t) && t.order.chunks == 0 && (Submitting(t.phase) || Driving(t.phase)) && t.phase != AtRetract
  }

  predicate Succeeded(t: Rec) { t.phase == AtTerminal && t.state == Active && t.report.error.None? }

  lemma HopefulGoesOn(t: Rec)
    requires Hopeful(t)
    ensures Onward(t).order == t.order && Rank(Onward(t)) < Rank(t)
    ensures Hopeful(Onward(t)) || Succeeded(Onward(t))
  {
    OnwardActs(t);
    ActsKeeps(t, Onward(t));
  }

  lemma {:induction false} HopefulSucceeds(states: seq<System>, events: seq<Event>, t: Rec)
    returns (states': seq<System>, events': seq<Event>, t': Rec)
    requires Alone(states, events, t) && Hopeful(t)
    ensures Alone(states', events', t') && Succeeded(t') && t'.order == t.order
    decreases Rank(t)
  {
    HopefulGoesOn(t);
    states', events' := GoOn(states, events, t);
    t' := Onward(t);
    if Hopeful(t') { states', events', t' := HopefulSucceeds(states', events', t'); }
  }

  /** Step `n` of a run takes a transfer of order `o` off the table. */
  predicate LeavesAt(states: seq<System>, events: seq<Event>, n: nat, i: nat, o: Order) {
    && Run(states, events) && n < |events| && i < |states[n].ts| && i < |states[n + 1].ts|
    && var t, t' := states[n].ts[i], states[n + 1].ts[i];
    t.order == o && t.state != t'.state && !Edge(t.state, t'.state)
  }

  ghost predicate CanLeaveTable(o: Order) {
    exists states, events, n, i :: LeavesAt(states, events, n, i, o)
  }

  /** The run that only submits an order. */
  lemma OneSubmitted(o: Order) returns (states: seq<System>, events: seq<Event>)
    requires o.chunks == 0 <==> o.scheduled == 0
    ensures Alone(states, events, Submitted(o))
  {
    var start, first := System([], ZERO), System([Submitted(o)], ZERO.(created := 1));
    assert start.ts + [Submitted(o)] == [Submitted(o)];
    assert Run([start], []);
    RunSnoc([start], [], Submit(o), first);
    states, events := [start] + [first], [] + [Submit(o)];
  }

  lemma SucceededLeaves(states: seq<System>, events: seq<Event>, t: Rec)
    requires Alone(states, events, t) && Succeeded(t)
    ensures CanLeaveTable(t.order)
  {
    var states', events' := GoOn(states, events, t);
    assert LeavesAt(states', events', |events|, 0, t.order);
  }

  lemma EmptyLeaves(o: Order)
    requires o.chunks == o.scheduled == 0
    ensures CanLeaveTable(o)
  {
    var states, events := OneSubmitted(o);
    var t;
    states, events, t := HopefulSucceeds(states, events, Submitted(o));
    SucceededLeaves(states, events, t);
  }

  /** Some run takes a transfer off the table, from active straight to
      completed, if and only if the transfer has no chunks. */
  lemma LeavesTableIffEmpty(o: Order)
    requires o.chunks == 0 <==> o.scheduled == 0
    ensures CanLeaveTable(o) <==> o.chunks == 0
  {
    if CanLeaveTable(o) {
      var states, events, n, i :| LeavesAt(states, events, n, i, o);
      RunFollowsTable(states, events, n, i);
    } else if o.chunks == 0 {
      EmptyLeaves(o);
    }
  }

  // ---- Ends and totals ----------------------------------------------------

  /** How a transfer ends: completed exactly when its execution was started and
      returned success, cancelled exactly when a cancellation was reported, which
      had then been asked for, and failed on every other error, lack of resources
      if it was never started. A completed transfer has all its bytes, and equal
      digests over all of them if verification was on. */
  lemma EndsAsExecuted(states: seq<System>, events: seq<Event>, n: nat, i: nat)
    requires Run(states, events) && n < |states| && i < |states[n].ts| && Terminal(states[n].ts[i].state)
    ensures var t := states[n].ts[i];
      && (t.state == Completed <==> t.executed && t.report.error.None?)
      && (t.state == Cancelled <==> t.report.error == Some(Cancellation))
      && (t.state == Failed <==> t.report.error.Some? && t.report.error.value != Cancellation)
      && (!t.executed ==> t.state == Failed && t.report.error == Some(ResourceExhausted))
      && (t.state == Completed ==> t.report.completed == t.order.scheduled)
      && (t.state == Completed && t.order.verify && t.order.scheduled > 0 ==>
            t.report.digestsEqual && t.report.verified == t.order.scheduled)
      && (t.state == Cancelled ==> t.cancel)
      && t.notified
  {
    RunInv(states, events, n);
    assert RecInv(states[n].ts[i]);
  }

  lemma {:induction false} SumNonnegative(ts: seq<Rec>, f: Rec -> int)
    requires forall i :: 0 <= i < |ts| ==> f(ts[i]) >= 0
    ensures SumOf(ts, f) >= 0
  {
    if ts != [] { SumNonnegative(ts[..|ts| - 1], f); }
  }

  /** No counter ever underflows. */
  lemma CountersNeverUnderflow(states: seq<System>, events: seq<Event>, n: nat)
    requires Run(states, events) && n < |states|
    ensures var c := states[n].tel;
      && c.active >= 0 && c.queueDepth >= 0
      && c.completed >= 0 && c.failed >= 0 && c.cancelled >= 0
      && c.moved >= 0 && c.direct >= 0 && c.staged >= 0 && c.verified >= 0
  {
    RunInv(states, events, n);
    var ts := states[n].ts;
    SumNonnegative(ts, Queueing);
    SumNonnegative(ts, Running);
    SumNonnegative(ts, EndedAs(Completed));
    SumNonnegative(ts, EndedAs(Failed));
    SumNonnegative(ts, EndedAs(Cancelled));
    SumNonnegative(ts, MovedBy);
    SumNonnegative(ts, PathBy(true));
    SumNonnegative(ts, PathBy(false));
    SumNonnegative(ts, VerifiedBy);
  }

  function Untallied(t: Rec): int { When(!Tallied(t.phase), 1) }

  lemma {:induction false} EveryoneCounted(ts: seq<Rec>)
    ensures |ts| == SumOf(ts, EndedAs(Completed)) + SumOf(ts, EndedAs(Failed)) + SumOf(ts, EndedAs(Cancelled))
      + SumOf(ts, Untallied)
  {
    if ts != [] { EveryoneCounted(ts[..|ts| - 1]); }
  }

  /** Every transfer created is completed, failed, cancelled or not yet tallied. */
  lemma CreatedAccountedFor(states: seq<System>, events: seq<Event>, n: nat)
    requires Run(states, events) && n < |states|
    ensures var c := states[n].tel;
      c.created == c.completed + c.failed + c.cancelled + SumOf(states[n].ts, Untallied)
  {
    RunInv(states, events, n);
    EveryoneCounted(states[n].ts);
  }

  predicate Quiescent(s: System) { forall i :: 0 <= i < |s.ts| ==> s.ts[i].phase == Done }

  /** Counts the transfers in a state. */
  function InState(end: State): Rec -> int { (t: Rec) => When(t.state == end, 1) }

  /** The scheduled bytes of a completed transfer. */
  function CompletedBytes(t: Rec): int { When(t.state == Completed, t.order.scheduled) }

  /** The same, of a transfer over a direct route or of one over any other. */
  function RouteBytes(direct: bool): Rec -> int {
    (t: Rec) => When(t.state == Completed && t.order.direct == direct, t.order.scheduled)
  }

  /** The same, of a transfer to be verified. */
  function CheckedBytes(t: Rec): int { When(t.state == Completed && t.order.verify, t.order.scheduled) }

  lemma DoneIdle(t: Rec)
    requires t.phase == Done
    ensures Queueing(t) == 0 && Running(t) == 0 && Untallied(t) == 0
  {
  }

  /** Once done, a record has its end, and if it succeeded all its bytes. */
  lemma DoneClosed(t: Rec)
    requires t.phase == Done && RecInv(t)
    ensures t.state == EndOf(t.report.error)
    ensures t.report.error.None? ==> Satisfies(t.order, t.report)
  {
  }

  /** Then it stands for that end and for these bytes. */
  lemma DoneCounts(t: Rec)
    requires t.phase == Done && t.state == EndOf(t.report.error)
    requires t.report.error.None? ==> Satisfies(t.order, t.report)
    ensures forall end :: EndedAs(end)(t) == InState(end)(t)
    ensures MovedBy(t) == CompletedBytes(t)
    ensures forall direct :: PathBy(direct)(t) == RouteBytes(direct)(t)
    ensures VerifiedBy(t) == CheckedBytes(t)
  {
  }

  predicate AllDone(ts: seq<Rec>) { forall i :: 0 <= i < |ts| ==> ts[i].phase == Done && RecInv(ts[i]) }

  lemma DoneCountsAt(ts: seq<Rec>, i: nat)
    requires AllDone(ts) && i < |ts|
    ensures forall end :: EndedAs(end)(ts[i]) == InState(end)(ts[i])
    ensures MovedBy(ts[i]) == CompletedBytes(ts[i])
    ensures forall direct :: PathBy(direct)(ts[i]) == RouteBytes(direct)(ts[i])
    ensures VerifiedBy(ts[i]) == CheckedBytes(ts[i])
  {
    DoneClosed(ts[i]);
    DoneCounts(ts[i]);
  }

  lemma {:induction false} DoneIsIdle(ts: seq<Rec>)
    requires AllDone(ts)
    ensures SumOf(ts, Queueing) == SumOf(ts, Running) == SumOf(ts, Untallied) == 0
  {
    if ts != [] {
      DoneIsIdle(ts[..|ts| - 1]);
      DoneIdle(ts[|ts| - 1]);
    }
  }

  lemma {:induction false} SumSame(ts: seq<Rec>, f: Rec -> int, g: Rec -> int)
    requires forall i :: 0 <= i < |ts| ==> f(ts[i]) == g(ts[i])
    ensures SumOf(ts, f) == SumOf(ts, g)
  {
    if ts != [] { SumSame(ts[..|ts| - 1], f, g); }
  }

  lemma {:induction false} BothRoutes(ts: seq<Rec>)
    ensures SumOf(ts, CompletedBytes) == SumOf(ts, RouteBytes(true)) + SumOf(ts, RouteBytes(false))
  {
    if ts != [] { BothRoutes(ts[..|ts| - 1]); }
  }

  lemma DoneEnds(ts: seq<Rec>, end: State)
    requires AllDone(ts)
    ensures SumOf(ts, EndedAs(end)) == SumOf(ts, InState(end))
  {
    forall i | 0 <= i < |ts| ensures EndedAs(end)(ts[i]) == InState(end)(ts[i]) { DoneCountsAt(ts, i); }
    SumSame(ts, EndedAs(end), InState(end));
  }

  lemma DoneRoutes(ts: seq<Rec>, direct: bool)
    requires AllDone(ts)
    ensures SumOf(ts, PathBy(direct)) == SumOf(ts, RouteBytes(direct))
  {
    forall i | 0 <= i < |ts| ensures PathBy(direct)(ts[i]) == RouteBytes(direct)(ts[i]) { DoneCountsAt(ts, i); }
    SumSame(ts, PathBy(direct), RouteBytes(direct));
  }

  lemma DoneBytes(ts: seq<Rec>)
    requires AllDone(ts)
    ensures SumOf(ts, MovedBy) == SumOf(ts, CompletedBytes) && SumOf(ts, VerifiedBy) == SumOf(ts, CheckedBytes)
  {
    forall i | 0 <= i < |ts|
      ensures MovedBy(ts[i]) == CompletedBytes(ts[i]) && VerifiedBy(ts[i]) == CheckedBytes(ts[i])
    {
      DoneCountsAt(ts, i);
    }
    SumSame(ts, MovedBy, CompletedBytes);
    SumSame(ts, VerifiedBy, CheckedBytes);
  }

  /** At rest nothing is active or queued, and every created transfer is tallied
      under the end it has. The bytes moved, by direct and by other routes, and
      verified are the scheduled bytes of the completed transfers that moved
      them, took such a route and were to be verified. */
  lemma QuiescenceBalances(states: seq<System>, events: seq<Event>, n: nat)
    requires Run(states, events) && n < |states| && Quiescent(states[n])
    ensures var ts, c := states[n].ts, states[n].tel;
      && c.active == 0 && c.queueDepth == 0
      && c.created == c.completed + c.failed + c.cancelled
      && c.completed == SumOf(ts, InState(Completed))
      && c.failed == SumOf(ts, InState(Failed))
      && c.cancelled == SumOf(ts, InState(Cancelled))
      && c.moved == c.direct + c.staged == SumOf(ts, CompletedBytes)
      && c.direct == SumOf(ts, RouteBytes(true)) && c.staged == SumOf(ts, RouteBytes(false))
      && c.verified == SumOf(ts, CheckedBytes)
  {
    RunInv(states, events, n);
    var ts := states[n].ts;
    EveryoneCounted(ts);
    DoneIsIdle(ts);
    DoneEnds(ts, Completed);
    DoneEnds(ts, Failed);
    DoneEnds(ts, Cancelled);
    DoneBytes(ts);
    DoneRoutes(ts, true);
    DoneRoutes(ts, false);
    BothRoutes(ts);
  }
}
