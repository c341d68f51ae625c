/** What the cost model says about the domain graph: with nonnegative weights a
    direct edge is never beaten by a way around it, so that the direct-path
    preference decides nothing but ties. */
module RouteCosts {
  import opened Basics
  import opened Domains
  import opened Routes
  import opened RouteSearch
  import opened Planner

  // ---- Lower bounds for walks ---------------------------------------------

  /** The sum of an edge weight over the first `n` legs of a walk. */
  ghost function EdgeSum(i: Input, edges: seq<Edge>, p: Path, n: nat, w: Edge -> real): real
    requires Walk(i, edges, p) && n < |p|
  {
    if n == 0 then 0.0 else EdgeSum(i, edges, p, n - 1, w) + w(EdgeAt(i, edges, p, n - 1))
  }

  /** `far` underestimates the way to a goal: no edge brings the goal nearer by
      more than its weight. */
  ghost predicate Underestimates(edges: seq<Edge>, far: Domain -> real, w: Edge -> real) {
    forall k :: 0 <= k < |edges| ==> SlackAt(edges[k], far, w)
  }

  predicate SlackAt(e: Edge, far: Domain -> real, w: Edge -> real) {
    far(e.a) <= w(e) + far(e.b) && far(e.b) <= w(e) + far(e.a)
  }

  lemma {:induction false} WalkBound(i: Input, edges: seq<Edge>, p: Path, m: nat, n: nat, far: Domain -> real,
                                     w: Edge -> real)
    requires Walk(i, edges, p) && m <= n < |p| && Underestimates(edges, far, w)
    ensures EdgeSum(i, edges, p, n, w) - EdgeSum(i, edges, p, m, w) >= far(p[m]) - far(p[n])
    decreases n
  {
    if m < n {
      WalkBound(i, edges, p, m, n - 1, far, w);
      var e := EdgeAt(i, edges, p, n - 1);
      assert LinkAt(i, edges, p, n - 1);
      var k :| 0 <= k < |edges| && edges[k] == e;
      assert SlackAt(edges[k], far, w);
    }
  }

  function Setup(e: Edge): real { e.setup }

  function Seconds(bytes: U64): Edge -> real {
    (e: Edge) => bytes as real / (if e.bandwidth > 0.0 then e.bandwidth else 1.0)
  }

  lemma {:induction false} SetupIsSum(i: Input, edges: seq<Edge>, p: Path, n: nat)
    requires Walk(i, edges, p) && n < |p|
    ensures SetupTime(Legs(i, edges, p, n)) == EdgeSum(i, edges, p, n, Setup)
  {
    if n > 0 {
      SetupIsSum(i, edges, p, n - 1);
      LegsSnoc(i, edges, p, n);
    }
  }

  lemma LegsSnoc(i: Input, edges: seq<Edge>, p: Path, n: nat)
    requires Walk(i, edges, p) && 0 < n < |p|
    ensures var legs := Legs(i, edges, p, n);
      && |legs| > 0 && legs[..|legs| - 1] == Legs(i, edges, p, n - 1)
      && legs[|legs| - 1] == LegOver(i, p[n - 1], p[n], EdgeAt(i, edges, p, n - 1))
  {
  }

  lemma {:induction false} TimeIsSum(i: Input, edges: seq<Edge>, p: Path, n: nat, bytes: U64)
    requires Walk(i, edges, p) && n < |p|
    ensures MoveTime(Legs(i, edges, p, n), bytes) == EdgeSum(i, edges, p, n, Seconds(bytes))
  {
    if n > 0 {
      TimeIsSum(i, edges, p, n - 1, bytes);
      LegsSnoc(i, edges, p, n);
    }
  }

  // ---- The table ----------------------------------------------------------

  /** The least setup time, in units of ten microseconds, from each domain to a
      goal. */
  function SetupLeft(goal: Domain, d: Domain): real {
    if d == goal then 0.0 else
      match goal
      case HostPageable =>
        (match d
         case HostPinned => 2.0 case Device => 5.0 case Storage => 5.0 case Remote => 15.0
         case Unknown => 0.0 case _ => 3.0)
      case HostPinned =>
        (match d
         case HostPageable => 2.0 case Device => 3.0 case Storage => 5.0 case Remote => 15.0
         case Unknown => 0.0 case _ => 3.0)
      case Device =>
        (match d
         case HostPinned => 3.0 case HostPageable => 5.0 case Storage => 8.0 case Remote => 18.0
         case Unknown => 0.0 case _ => 6.0)
      case _ => LeafLeft(goal, d)
  }

  /** A goal that both kinds of host memory reach equally fast. */
  function LeafLeft(goal: Domain, d: Domain): real {
    var hub := if goal == Storage then 5.0 else if goal == Domain.Remote then 15.0 else 3.0;
    match d
    case HostPageable => hub
    case HostPinned => hub
    case Storage => hub + 5.0
    case Remote => hub + 15.0
    case Unknown => 0.0
    case _ => hub + 3.0
  }

  const TEN_US: real := 0.00001

  lemma SetupSlack(goal: Domain, k: nat)
    requires k < |EDGES| && goal != Unknown
    ensures var e := EDGES[k];
      && TEN_US * SetupLeft(goal, e.a) <= e.setup + TEN_US * SetupLeft(goal, e.b)
      && TEN_US * SetupLeft(goal, e.b) <= e.setup + TEN_US * SetupLeft(goal, e.a)
  {
  }

  /** The least time per byte from each domain to a goal, in units that make the
      table's entries whole numbers. */
  function TimeLeft(goal: Domain, d: Domain): real {
    if d == goal then 0.0 else
      match goal
      case HostPageable =>
        (match d
         case HostPinned => 165.0 case Device => 220.0 case Storage => 660.0 case Shared => 132.0
         case Mmap => 165.0 case Remote => 1320.0 case _ => 0.0)
      case HostPinned =>
        (match d
         case HostPageable => 165.0 case Device => 60.0 case Storage => 660.0 case Shared => 132.0
         case Mmap => 165.0 case Remote => 1320.0 case _ => 0.0)
      case Device =>
        (match d
         case HostPageable => 220.0 case HostPinned => 60.0 case Storage => 720.0 case Shared => 192.0
         case Mmap => 225.0 case Remote => 1380.0 case _ => 0.0)
      case _ => LeafTime(goal, d)
  }

  function LeafTime(goal: Domain, d: Domain): real {
    var hub :=
      match goal
      case Storage => 660.0
      case Remote => 1320.0
      case Shared => 132.0
      case _ => 165.0;
    match d
    case HostPageable => hub
    case HostPinned => hub
    case Device => hub + 60.0
    case Storage => hub + 660.0
    case Shared => hub + 132.0
    case Mmap => hub + 165.0
    case Remote => hub + 1320.0
    case Unknown => 0.0
  }

  const UNIT: real := 1320000000000.0

  /** What each edge takes per byte, in these units. */
  function Units(k: nat): real {
    if k == 0 || k == 2 then 1320.0 / 9.0
    else if k == 3 then 220.0
    else if k == 4 then 60.0
    else if k == 5 then 44.0
    else if 6 <= k <= 8 then 660.0
    else if 9 <= k <= 11 then 132.0
    else if k >= 14 then 1320.0
    else 165.0
  }

  lemma UnitsRight(k: nat)
    requires k < |EDGES|
    ensures EDGES[k].bandwidth > 0.0 && EDGES[k].bandwidth * Units(k) == UNIT
  {
  }

  lemma TimeTable(goal: Domain, k: nat)
    requires k < |EDGES| && goal != Unknown
    ensures var e := EDGES[k];
      && TimeLeft(goal, e.a) <= Units(k) + TimeLeft(goal, e.b)
      && TimeLeft(goal, e.b) <= Units(k) + TimeLeft(goal, e.a)
  {
  }

  /** Seconds for `bytes` at `units` per byte. */
  function Scaled(bytes: U64, units: real): real { bytes as real * units / UNIT }

  lemma SecondsScaled(bytes: U64, bandwidth: real, units: real)
    requires bandwidth > 0.0 && bandwidth * units == UNIT
    ensures bytes as real / bandwidth == Scaled(bytes, units)
  {
    var b := bytes as real;
    var q := b / bandwidth;
    assert q * bandwidth == b;
    assert (q * bandwidth) * units == q * (bandwidth * units);
  }

  lemma ScaledSum(bytes: U64, x: real, u: real, y: real)
    requires x <= u + y
    ensures Scaled(bytes, x) <= Scaled(bytes, u) + Scaled(bytes, y)
    ensures x < u + y && bytes > 0 ==> Scaled(bytes, x) < Scaled(bytes, u) + Scaled(bytes, y)
  {
    var b := bytes as real;
    assert b * (u + y) == b * u + b * y;
    RealMul(x, u + y, b);
  }

  lemma RealMul(x: real, y: real, w: real)
    requires x <= y && w >= 0.0
    ensures x * w <= y * w && w * x <= w * y
    ensures x < y && w > 0.0 ==> x * w < y * w && w * x < w * y
  {
    assert (y - x) * w >= 0.0;
    if x < y && w > 0.0 { assert (y - x) * w > 0.0; }
  }

  /** Seconds for `bytes` from `d` to the goal at best. */
  function TimeFor(goal: Domain, bytes: U64): Domain -> real {
    (d: Domain) => Scaled(bytes, TimeLeft(goal, d))
  }

  lemma TimeSlack(goal: Domain, k: nat, bytes: U64)
    requires k < |EDGES| && goal != Unknown
    ensures Seconds(bytes)(EDGES[k]) == Scaled(bytes, Units(k))
    ensures SlackAt(EDGES[k], TimeFor(goal, bytes), Seconds(bytes))
  {
    var e := EDGES[k];
    UnitsRight(k);
    SecondsScaled(bytes, e.bandwidth, Units(k));
    TimeTable(goal, k);
    ScaledSum(bytes, TimeLeft(goal, e.a), Units(k), TimeLeft(goal, e.b));
    ScaledSum(bytes, TimeLeft(goal, e.b), Units(k), TimeLeft(goal, e.a));
  }

  function SetupFor(goal: Domain): Domain -> real { (d: Domain) => TEN_US * SetupLeft(goal, d) }

  lemma TableUnderestimates(goal: Domain, bytes: U64)
    requires goal != Unknown
    ensures Underestimates(EDGES, SetupFor(goal), Setup)
    ensures Underestimates(EDGES, TimeFor(goal, bytes), Seconds(bytes))
  {
    forall k | 0 <= k < |EDGES| ensures SlackAt(EDGES[k], SetupFor(goal), Setup) { SetupSlack(goal, k); }
    forall k | 0 <= k < |EDGES| ensures SlackAt(EDGES[k], TimeFor(goal, bytes), Seconds(bytes)) {
      TimeSlack(goal, k, bytes);
    }
  }

  /** Between different domains an edge is itself the best way. */
  lemma EdgeIsBest(k: nat)
    requires k < |EDGES|
    ensures var e := EDGES[k];
      && e.a != Unknown && e.b != Unknown && (StagingDomain(e.a) || e.a == e.b)
      && (e.a != e.b ==>
            && Units(k) == TimeLeft(e.b, e.a) == TimeLeft(e.a, e.b)
            && e.setup == TEN_US * SetupLeft(e.b, e.a) == TEN_US * SetupLeft(e.a, e.b))
  {
  }

  /** Where there is a direct edge, to go first anywhere else takes longer. */
  lemma WayAround(goal: Domain, s: Domain, x: Domain, k: nat)
    requires k < |EDGES| && Joins(EDGES[k], s, x) && goal != Unknown && s != goal && x != goal
    requires StagingDomain(s) || StagingDomain(goal)
    ensures TimeLeft(goal, s) < Units(k) + TimeLeft(goal, x)
  {
  }

  // ---- A direct edge against a longer path --------------------------------

  predicate DirectPath(i: Input, q: Path) { q == [i.start, i.goal] }

  /** The index of the edge that a walk takes. */
  lemma EdgeIndex(i: Input, p: Path, k: nat) returns (j: nat)
    requires Walk(i, EDGES, p) && k + 1 < |p|
    ensures j < |EDGES| && EdgeAt(i, EDGES, p, k) == EDGES[j] && Joins(EDGES[j], p[k], p[k + 1])
  {
    assert LinkAt(i, EDGES, p, k);
    var e := EdgeAt(i, EDGES, p, k);
    assert e in EDGES;
    j :| 0 <= j < |EDGES| && EDGES[j] == e;
  }

  /** The direct edge takes exactly the least setup and the least time. */
  lemma DirectSums(i: Input, q: Path)
    requires Complete(i, EDGES, q) && DirectPath(i, q)
    ensures i.goal != Unknown && i.start != i.goal && (StagingDomain(i.start) || StagingDomain(i.goal))
    ensures EdgeSum(i, EDGES, q, 1, Setup) == SetupFor(i.goal)(i.start)
    ensures EdgeSum(i, EDGES, q, 1, Seconds(i.bytes)) == TimeFor(i.goal, i.bytes)(i.start)
  {
    var j := EdgeIndex(i, q, 0);
    EdgeIsBest(j);
    assert q[0] != q[1];
    TimeSlack(i.goal, j, i.bytes);
    assert EdgeSum(i, EDGES, q, 0, Setup) == 0.0 && EdgeSum(i, EDGES, q, 0, Seconds(i.bytes)) == 0.0;
  }

  lemma LongerSums(i: Input, p: Path)
    requires Complete(i, EDGES, p) && |p| > 2 && i.goal != Unknown && i.bytes > 0
    requires StagingDomain(i.start) || StagingDomain(i.goal)
    ensures EdgeSum(i, EDGES, p, |p| - 1, Setup) >= SetupFor(i.goal)(i.start)
    ensures EdgeSum(i, EDGES, p, |p| - 1, Seconds(i.bytes)) > TimeFor(i.goal, i.bytes)(i.start)
  {
    var n, goal := |p| - 1, i.goal;
    TableUnderestimates(goal, i.bytes);
    WalkBound(i, EDGES, p, 0, n, SetupFor(goal), Setup);
    WalkBound(i, EDGES, p, 1, n, TimeFor(goal, i.bytes), Seconds(i.bytes));
    var j := EdgeIndex(i, p, 0);
    assert p[0] != p[n] && p[1] != p[n];
    WayAround(goal, i.start, p[1], j);
    TimeSlack(goal, j, i.bytes);
    ScaledSum(i.bytes, TimeLeft(goal, i.start), Units(j), TimeLeft(goal, p[1]));
    assert EdgeSum(i, EDGES, p, 0, Setup) == 0.0 && EdgeSum(i, EDGES, p, 0, Seconds(i.bytes)) == 0.0;
    assert EdgeSum(i, EDGES, p, 1, Seconds(i.bytes)) == Scaled(i.bytes, Units(j));
    GoalIsZero(goal, i.bytes);
  }

  lemma GoalIsZero(goal: Domain, bytes: U64)
    ensures SetupFor(goal)(goal) == 0.0 && TimeFor(goal, bytes)(goal) == 0.0
  {
  }

  predicate NonNegative(w: Weights) {
    w.setup >= 0.0 && w.bandwidth >= 0.0 && w.staging >= 0.0 && w.hop >= 0.0 && w.retry >= 0.0
  }

  lemma StagingNonNegative(staged: U64, bytes: U64, w: real)
    requires w >= 0.0
    ensures staged as real / (1000000000.0 + bytes as real) * w >= 0.0
  {
    var d := 1000000000.0 + bytes as real;
    var q := staged as real / d;
    assert q * d == staged as real;
    if q < 0.0 { RealMul(q, 0.0, d); }
    RealMul(0.0, q, w);
  }

  /** What more of each quantity adds to a cost: that much times its weight; for
      staged bytes, relative to a gigabyte and the bytes moved. */
  lemma MoreCosts(s: real, t: real, b: U64, h: nat, r: real, bytes: U64, w: Weights, x: real, y: real, c: U64, k: nat,
                  z: real)
    requires b + c < TWO64
    ensures Weighted(s + x, t + y, b + c, h + k, r + z, bytes, w) - Weighted(s, t, b, h, r, bytes, w)
      == x * w.setup + y * w.bandwidth + c as real / (1000000000.0 + bytes as real) * w.staging
         + k as real * w.hop + z * w.retry
    ensures Weighted(0.0, 0.0, 0, 0, 0.0, bytes, w) == 0.0
  {
    StagingAdds(b, c, bytes, w.staging);
    Distributes(s, x, w.setup);
    Distributes(t, y, w.bandwidth);
    Distributes(h as real, k as real, w.hop);
    Distributes(r, z, w.retry);
    NothingStaged(bytes, w.staging);
  }

  lemma Distributes(x: real, y: real, w: real)
    ensures (x + y) * w == x * w + y * w
  {
  }

  lemma StagingAdds(b: U64, c: U64, bytes: U64, w: real)
    requires b + c < TWO64
    ensures var d := 1000000000.0 + bytes as real;
      (b + c) as real / d * w == b as real / d * w + c as real / d * w
  {
    var d := 1000000000.0 + bytes as real;
    var p, q := b as real / d, c as real / d;
    assert p * d == b as real && q * d == c as real;
    Distributes(p, q, d);
    assert (p + q) * d == (b + c) as real;
    assert (b + c) as real / d == p + q;
    Distributes(p, q, w);
  }

  /** Staged bytes make a route dearer whenever staging has a price. */
  lemma StagingCosts(s: real, t: real, b: U64, c: U64, h: nat, r: real, bytes: U64, w: Weights)
    requires b < c && w.staging > 0.0
    ensures Weighted(s, t, b, h, r, bytes, w) < Weighted(s, t, c, h, r, bytes, w)
  {
    var d := 1000000000.0 + bytes as real;
    var q := (c - b) as real / d;
    MoreCosts(s, t, b, h, r, bytes, w, 0.0, 0.0, c - b, 0, 0.0);
    assert q * d == (c - b) as real;
    if q <= 0.0 { RealMul(q, 0.0, d); }
    RealMul(0.0, q, w.staging);
  }

  lemma MoreSetup(s1: real, s2: real, t: real, b: U64, h: nat, r: real, bytes: U64, w: Weights)
    requires NonNegative(w) && s1 <= s2
    ensures Weighted(s1, t, b, h, r, bytes, w) <= Weighted(s2, t, b, h, r, bytes, w)
  {
    RealMul(s1, s2, w.setup);
  }

  lemma MoreTime(s: real, t1: real, t2: real, b: U64, h: nat, r: real, bytes: U64, w: Weights)
    requires NonNegative(w) && t1 <= t2
    ensures Weighted(s, t1, b, h, r, bytes, w) <= Weighted(s, t2, b, h, r, bytes, w)
    ensures t1 < t2 && w.bandwidth > 0.0 ==> Weighted(s, t1, b, h, r, bytes, w) < Weighted(s, t2, b, h, r, bytes, w)
  {
    RealMul(t1, t2, w.bandwidth);
  }

  lemma MoreStaged(s: real, t: real, b: U64, h: nat, r: real, bytes: U64, w: Weights)
    requires NonNegative(w)
    ensures Weighted(s, t, 0, h, r, bytes, w) <= Weighted(s, t, b, h, r, bytes, w)
  {
    StagingNonNegative(b, bytes, w.staging);
    NothingStaged(bytes, w.staging);
  }

  lemma NothingStaged(bytes: U64, w: real)
    ensures (0 as U64) as real / (1000000000.0 + bytes as real) * w == 0.0
  {
    var q := 0.0 / (1000000000.0 + bytes as real);
    assert q * (1000000000.0 + bytes as real) == 0.0;
    assert q == 0.0;
  }

  lemma MoreHops(s: real, t: real, b: U64, h1: nat, h2: nat, r: real, bytes: U64, w: Weights)
    requires NonNegative(w) && h1 <= h2
    ensures Weighted(s, t, b, h1, r, bytes, w) <= Weighted(s, t, b, h2, r, bytes, w)
    ensures h1 < h2 && w.hop > 0.0 ==> Weighted(s, t, b, h1, r, bytes, w) < Weighted(s, t, b, h2, r, bytes, w)
  {
    RealMul(h1 as real, h2 as real, w.hop);
  }

  lemma MoreRisk(s: real, t: real, b: U64, h: nat, r1: real, r2: real, bytes: U64, w: Weights)
    requires NonNegative(w) && r1 <= r2
    ensures Weighted(s, t, b, h, r1, bytes, w) <= Weighted(s, t, b, h, r2, bytes, w)
  {
    RealMul(r1, r2, w.retry);
  }

  lemma WeightedOrder(s1: real, t1: real, h1: nat, r1: real, s2: real, t2: real, b2: U64, h2: nat, r2: real, bytes: U64,
                      w: Weights)
    requires NonNegative(w) && s1 <= s2 && t1 <= t2 && h1 <= h2 && r1 <= r2
    ensures Weighted(s1, t1, 0, h1, r1, bytes, w) <= Weighted(s2, t2, b2, h2, r2, bytes, w)
    ensures (t1 < t2 && w.bandwidth > 0.0) || (h1 < h2 && w.hop > 0.0) ==>
      Weighted(s1, t1, 0, h1, r1, bytes, w) < Weighted(s2, t2, b2, h2, r2, bytes, w)
  {
    MoreSetup(s1, s2, t1, 0, h1, r1, bytes, w);
    MoreTime(s2, t1, t2, 0, h1, r1, bytes, w);
    MoreStaged(s2, t2, b2, h1, r1, bytes, w);
    MoreHops(s2, t2, b2, h1, h2, r1, bytes, w);
    MoreRisk(s2, t2, b2, h2, r1, r2, bytes, w);
  }

  lemma {:induction false} RiskNonNegative(legs: seq<Leg>)
    ensures Risk(legs) >= 0.0
  {
    if legs != [] { RiskNonNegative(legs[..|legs| - 1]); }
  }

  lemma {:induction false} LegsLength(i: Input, edges: seq<Edge>, p: Path, n: nat)
    requires Walk(i, edges, p) && n < |p|
    ensures |Legs(i, edges, p, n)| == n
  {
    if n > 0 { LegsLength(i, edges, p, n - 1); }
  }

  /** The risk of the last leg is that of the destination. */
  lemma LastRisk(i: Input, p: Path)
    requires Complete(i, EDGES, p)
    ensures Risk(Legs(i, EDGES, p, |p| - 1)) >= (if i.destStagedCopy then 0.05 else 0.0)
    ensures |p| == 2 ==> Risk(Legs(i, EDGES, p, |p| - 1)) == (if i.destStagedCopy then 0.05 else 0.0)
  {
    var n := |p| - 1;
    LegsSnoc(i, EDGES, p, n);
    RiskNonNegative(Legs(i, EDGES, p, n - 1));
    assert Legs(i, EDGES, p, 0) == [];
  }

  /** The cost of the direct route, in terms of the table. */
  lemma DirectCost(i: Input, q: Path)
    requires Complete(i, EDGES, q) && DirectPath(i, q)
    ensures RouteOf(i, EDGES, q).cost ==
      Weighted(SetupFor(i.goal)(i.start), TimeFor(i.goal, i.bytes)(i.start), 0, 1,
               if i.destStagedCopy then 0.05 else 0.0, i.bytes, i.weights)
  {
    var legs := Legs(i, EDGES, q, 1);
    LegsLength(i, EDGES, q, 1);
    LegsSnoc(i, EDGES, q, 1);
    DirectSums(i, q);
    SetupIsSum(i, EDGES, q, 1);
    TimeIsSum(i, EDGES, q, 1, i.bytes);
    LastRisk(i, q);
    assert !CountsAsStaged(legs, 0);
    assert StagedLegs(legs, 0) == 0;
    assert StagedLegs(legs, 1) == 0;
  }

  /** With nonnegative weights the direct route costs no more than any other
      way, and less if hops or bytes cost anything. */
  lemma DirectCheapest(i: Input, q: Path, p: Path)
    requires Complete(i, EDGES, q) && DirectPath(i, q) && Complete(i, EDGES, p) && |p| > 2
    requires NonNegative(i.weights) && i.bytes > 0
    ensures RouteOf(i, EDGES, q).cost <= RouteOf(i, EDGES, p).cost
    ensures i.weights.hop > 0.0 || i.weights.bandwidth > 0.0 ==> RouteOf(i, EDGES, q).cost < RouteOf(i, EDGES, p).cost
  {
    var n := |p| - 1;
    var legs := Legs(i, EDGES, p, n);
    DirectCost(i, q);
    DirectSums(i, q);
    LongerSums(i, p);
    LegsLength(i, EDGES, p, n);
    SetupIsSum(i, EDGES, p, n);
    TimeIsSum(i, EDGES, p, n, i.bytes);
    LastRisk(i, p);
    WeightedOrder(SetupFor(i.goal)(i.start), TimeFor(i.goal, i.bytes)(i.start), 1,
                  if i.destStagedCopy then 0.05 else 0.0,
                  SetupTime(legs), MoveTime(legs, i.bytes), Times(StagedLegs(legs, n), i.bytes), n, Risk(legs),
                  i.bytes, i.weights);
  }

  // ---- Which legs count as staged -----------------------------------------

  lemma {:induction false} AllStaged(legs: seq<Leg>, n: nat)
    requires n <= |legs| && forall k :: 0 <= k < n ==> CountsAsStaged(legs, k)
    ensures StagedLegs(legs, n) == n
  {
    if n > 0 { AllStaged(legs, n - 1); }
  }

  lemma {:induction false} LegAt(i: Input, edges: seq<Edge>, p: Path, n: nat, k: nat)
    requires Walk(i, edges, p) && k < n < |p|
    ensures |Legs(i, edges, p, n)| == n
    ensures Legs(i, edges, p, n)[k] == LegOver(i, p[k], p[k + 1], EdgeAt(i, edges, p, k))
  {
    LegsLength(i, edges, p, n);
    LegsLength(i, edges, p, n - 1);
    if k < n - 1 { LegAt(i, edges, p, n - 1, k); }
  }

  /** Every leg of a route over host memory is paid for as staged, and the leg of
      a direct route is not; neither are the two legs of a route over a single
      node that is not host memory. */
  lemma StagedLegsOf(i: Input, edges: seq<Edge>, p: Path)
    requires Complete(i, edges, p)
    ensures |Legs(i, edges, p, |p| - 1)| == |p| - 1
    ensures |p| > 2 && HostStaged(p) ==> StagedLegs(Legs(i, edges, p, |p| - 1), |p| - 1) == |p| - 1
    ensures |p| == 2 || (|p| == 3 && !StagingDomain(p[1])) ==> StagedLegs(Legs(i, edges, p, |p| - 1), |p| - 1) == 0
  {
    var n := |p| - 1;
    var legs := Legs(i, edges, p, n);
    LegsLength(i, edges, p, n);
    if |p| > 2 && HostStaged(p) {
      forall k | 0 <= k < n ensures CountsAsStaged(legs, k) {
        LegAt(i, edges, p, n, k);
        assert k > 0 ==> p[k] != i.start && StagingDomain(p[k]);
        assert k < n - 1 ==> p[k + 1] != i.goal && StagingDomain(p[k + 1]);
      }
      AllStaged(legs, n);
    } else if |p| <= 3 {
      LegAt(i, edges, p, n, 0);
      LegAt(i, edges, p, n, n - 1);
      if |p| == 2 || !StagingDomain(p[1]) {
        assert StagedLegs(legs, 0) == 0;
        assert StagedLegs(legs, 1) == 0;
      }
    }
  }

  // ---- One domain ---------------------------------------------------------

  /** Where the table has an edge from a domain to itself, the leg within that
      domain takes its backend and its bandwidth. It takes its setup time too,
      except for files and shared memory, whose edges take ten microseconds
      longer. */
  lemma OwnLegInTable(i: Input, k: nat)
    requires k < |EDGES| && EDGES[k].a == EDGES[k].b == i.start == i.goal && i.bytes > 0
    ensures var e, l := EDGES[k], OwnLeg(i);
      && l.backend == e.backend && l.bandwidth == e.bandwidth && !l.staged
      && e.setup - l.setup == if i.start == Storage || i.start == Shared then TEN_US else 0.0
  {
  }

  /** What a transfer within one domain costs: twenty microseconds, the bytes at
      the bandwidth of the domain, one hop, and the risk of the source. */
  lemma OwnCostIs(i: Input)
    requires i.bytes > 0 && i.start == i.goal
    ensures var bandwidth :=
      match i.start
      case Device => 30000000000.0
      case Storage => 2000000000.0
      case Shared => 10000000000.0
      case _ => 9000000000.0;
      OwnCost(i) == 0.00002 * i.weights.setup + i.bytes as real / bandwidth * i.weights.bandwidth + i.weights.hop
                    + (if i.sourceStagedCopy then 0.05 * i.weights.retry else 0.0)
  {
    var legs := [OwnLeg(i)];
    assert legs[..0] == [];
    assert SetupTime(legs) == 0.00002 && Risk(legs) == if i.sourceStagedCopy then 0.05 else 0.0;
    assert MoveTime(legs[..0], i.bytes) == 0.0;
    assert StagedLegs(legs, 0) == 0;
    assert StagedLegs(legs, 1) == 0;
    NothingStaged(i.bytes, i.weights.staging);
  }

  // ---- What the ranking chooses -------------------------------------------

  predicate Penalises(i: Input, routes: seq<Route>) { i.preferDirect && HasDirect(routes) }

  /** `ranked` is a ranking the planner can come to for a searched input. */
  ghost predicate Ranking(i: Input, paths: seq<Path>, routes: seq<Route>, ranked: seq<Route>) {
    && !Refused(i) && i.bytes > 0 && i.start != i.goal
    && AllCandidates(i, EDGES, paths) && Collected(i, EDGES, routes, paths)
    && Sorted(ranked) && multiset(ranked) == multiset(AdjustAll(routes, Penalises(i, routes)))
  }

  /** The route `r` is the one that is ranked first. */
  predicate First(r: Route, i: Input, routes: seq<Route>, ranked: seq<Route>) {
    ranked != [] && ranked[0] == Adjust(r, Penalises(i, routes))
  }

  /** A route that is not direct goes first only if it is cheaper by half a
      second than every direct one. */
  predicate Margin(i: Input, routes: seq<Route>, ranked: seq<Route>) {
    forall r, d ::
      r in routes && d in routes && First(r, i, routes, ranked) && r.class_ != Direct && d.class_ == Direct ==>
        r.cost + 0.5 <= d.cost
  }

  lemma PathOf(i: Input, paths: seq<Path>, routes: seq<Route>, r: Route) returns (p: Path)
    requires AllCandidates(i, EDGES, paths) && Collected(i, EDGES, routes, paths) && r in routes
    ensures Candidate(i, EDGES, p) && r == RouteOf(i, EDGES, p)
  {
    var k :| 0 <= k < |routes| && routes[k] == r;
    p := paths[k];
    assert p in paths;
  }

  /** A direct route is the route of the direct path; any other candidate is
      longer. */
  lemma DirectOrLonger(i: Input, p: Path, q: Path)
    requires Complete(i, EDGES, p) && Complete(i, EDGES, q) && RouteOf(i, EDGES, q).class_ == Direct
    ensures DirectPath(i, q)
    ensures |p| == 2 ==> p == q
  {
    assert q == [q[0], q[1]];
    assert |p| == 2 ==> p == [p[0], p[1]];
  }

  /** If hops or bytes cost anything, a direct candidate is always chosen, with
      or without the preference. */
  lemma DirectChosen(i: Input, paths: seq<Path>, routes: seq<Route>, ranked: seq<Route>, r: Route, d: Route)
    requires Ranking(i, paths, routes, ranked) && NonNegative(i.weights)
    requires i.weights.hop > 0.0 || i.weights.bandwidth > 0.0
    requires r in routes && First(r, i, routes, ranked) && d in routes && d.class_ == Direct
    ensures r.class_ == Direct
  {
    var p := PathOf(i, paths, routes, r);
    var q := PathOf(i, paths, routes, d);
    DirectOrLonger(i, p, q);
    var best := FirstIsBest(routes, i.preferDirect, ranked);
    if |p| > 2 { DirectCheapest(i, q, p); }
  }

  /** The margin holds for every input with these weights and this preference. */
  ghost predicate MarginHolds(w: Weights, prefer: bool) {
    forall i: Input, paths: seq<Path>, routes: seq<Route>, ranked: seq<Route> ::
      i.weights == w && i.preferDirect == prefer && Ranking(i, paths, routes, ranked) ==> Margin(i, routes, ranked)
  }

  lemma MarginUnderPreference(i: Input, paths: seq<Path>, routes: seq<Route>, ranked: seq<Route>)
    requires Ranking(i, paths, routes, ranked) && i.preferDirect
    ensures Margin(i, routes, ranked)
  {
    forall r, d | r in routes && d in routes && First(r, i, routes, ranked) && r.class_ != Direct && d.class_ == Direct
      ensures r.cost + 0.5 <= d.cost
    {
      var best := FirstIsBest(routes, i.preferDirect, ranked);
      assert HasDirect(routes);
    }
  }

  lemma MarginWithoutTies(i: Input, paths: seq<Path>, routes: seq<Route>, ranked: seq<Route>)
    requires Ranking(i, paths, routes, ranked) && NonNegative(i.weights)
    requires i.weights.hop > 0.0 || i.weights.bandwidth > 0.0
    ensures Margin(i, routes, ranked)
  {
    forall r, d | r in routes && d in routes && First(r, i, routes, ranked) && d.class_ == Direct
      ensures r.class_ == Direct
    {
      DirectChosen(i, paths, routes, ranked, r, d);
    }
  }

  // ---- A tie --------------------------------------------------------------

  /** From pageable memory to a device, with only the host and device backends
      and at most two hops; the number of bytes, doubled, is 2^64. */
  function TieInput(w: Weights): Input {
    Input(HostPageable, Device, true, true, true, false, false, 0x8000_0000_0000_0000, 2, 0, 0, 0,
          false, true, false, false, {Host, Cuda}, w)
  }

  const STRAIGHT: Path := [HostPageable, Device]
  const AROUND: Path := [HostPageable, HostPinned, Device]

  lemma TieLinks(w: Weights)
    ensures Complete(TieInput(w), EDGES, STRAIGHT) && Complete(TieInput(w), EDGES, AROUND)
  {
    var i := TieInput(w);
    assert Joins(EDGES[3], HostPageable, Device) && Feasible(i, EDGES[3]);
    assert Joins(EDGES[1], HostPageable, HostPinned) && Feasible(i, EDGES[1]);
    assert Joins(EDGES[4], HostPinned, Device) && Feasible(i, EDGES[4]);
    assert LinkAt(i, EDGES, STRAIGHT, 0) && LinkAt(i, EDGES, AROUND, 0) && LinkAt(i, EDGES, AROUND, 1);
  }

  lemma DeviceNeighbours(i: Input, d: Domain)
    requires Linked(i, EDGES, d, Device)
    ensures d == HostPageable || d == HostPinned || d == Device
  {
  }

  lemma TieCandidates(w: Weights)
    ensures AllCandidates(TieInput(w), EDGES, [STRAIGHT, AROUND])
  {
    var i := TieInput(w);
    TieLinks(w);
    assert Times(4, 0) == 0;
    assert Candidate(i, EDGES, STRAIGHT) && Candidate(i, EDGES, AROUND);
    forall p | Candidate(i, EDGES, p) ensures p in [STRAIGHT, AROUND] {
      if |p| == 2 {
        assert p == STRAIGHT;
      } else {
        assert LinkAt(i, EDGES, p, 1);
        DeviceNeighbours(i, p[1]);
        assert p == AROUND;
      }
    }
  }

  lemma EdgeAtIs(i: Input, p: Path, k: nat, j: nat)
    requires Walk(i, EDGES, p) && k + 1 < |p| && j < |EDGES| && Joins(EDGES[j], p[k], p[k + 1])
    ensures EdgeAt(i, EDGES, p, k) == EDGES[j]
  {
    var m := EdgeIndex(i, p, k);
    EdgesWellFormed();
  }

  lemma LocalClass(i: Input, edges: seq<Edge>, p: Path)
    requires Complete(i, edges, p) && forall k :: 0 <= k < |p| - 1 ==> !EdgeAt(i, edges, p, k).remote
    ensures RouteOf(i, edges, p).class_ == if |p| == 2 then Direct else Staged
  {
  }

  lemma StraightClass(w: Weights)
    ensures Complete(TieInput(w), EDGES, STRAIGHT)
    ensures RouteOf(TieInput(w), EDGES, STRAIGHT).class_ == Direct
  {
    TieLinks(w);
    EdgeAtIs(TieInput(w), STRAIGHT, 0, 3);
    LocalClass(TieInput(w), EDGES, STRAIGHT);
  }

  lemma AroundEdges(w: Weights)
    ensures Complete(TieInput(w), EDGES, AROUND)
    ensures EdgeAt(TieInput(w), EDGES, AROUND, 0) == EDGES[1] && EdgeAt(TieInput(w), EDGES, AROUND, 1) == EDGES[4]
  {
    TieLinks(w);
    EdgeAtIs(TieInput(w), AROUND, 0, 1);
    EdgeAtIs(TieInput(w), AROUND, 1, 4);
  }

  lemma AroundClass(w: Weights)
    ensures Complete(TieInput(w), EDGES, AROUND)
    ensures RouteOf(TieInput(w), EDGES, AROUND).class_ == Staged
  {
    AroundEdges(w);
    LocalClass(TieInput(w), EDGES, AROUND);
  }

  /** Both staged legs count the bytes, and the 64-bit counter wraps to zero. */
  lemma TieStaged(legs: seq<Leg>)
    requires |legs| == 2 && legs[0].staged && legs[1].staged
    ensures Times(StagedLegs(legs, 2), 0x8000_0000_0000_0000) == 0
  {
    assert StagedLegs(legs, 0) == 0;
    assert StagedLegs(legs, 1) == 1;
    assert StagedLegs(legs, 2) == 2;
    assert Wrap(2 * 0x8000_0000_0000_0000) == Wrap(0);
  }

  lemma LegsOfThree(i: Input, edges: seq<Edge>, p: Path, e0: Edge, e1: Edge)
    requires Walk(i, edges, p) && |p| == 3 && EdgeAt(i, edges, p, 0) == e0 && EdgeAt(i, edges, p, 1) == e1
    ensures Legs(i, edges, p, 2) == [LegOver(i, p[0], p[1], e0), LegOver(i, p[1], p[2], e1)]
  {
    LegsLength(i, edges, p, 2);
    LegsSnoc(i, edges, p, 2);
    LegsSnoc(i, edges, p, 1);
    assert Legs(i, edges, p, 0) == [];
  }

  /** The cost of two staged legs without risk, when the counter wraps. */
  lemma StagedLegsCost(legs: seq<Leg>, bytes: U64, w: Weights)
    requires |legs| == 2 && legs[0].staged && legs[1].staged && bytes == 0x8000_0000_0000_0000
    requires !legs[0].stagedCopy && !legs[1].stagedCopy
    ensures Cost(legs, bytes, w) ==
      Weighted(legs[0].setup + legs[1].setup, MoveTime(legs, bytes), 0, 2, 0.0, bytes, w)
  {
    TieStaged(legs);
    TwoLegs(legs);
  }

  /** The cost of going round over one staging node, without risk. */
  lemma TwoLegCost(i: Input, edges: seq<Edge>, p: Path, e0: Edge, e1: Edge)
    requires Complete(i, edges, p) && |p| == 3 && EdgeAt(i, edges, p, 0) == e0 && EdgeAt(i, edges, p, 1) == e1
    requires StagingDomain(p[1]) && !i.sourceStagedCopy && !i.destStagedCopy && i.bytes == 0x8000_0000_0000_0000
    ensures RouteOf(i, edges, p).cost ==
      Weighted(e0.setup + e1.setup, MoveTime(Legs(i, edges, p, 2), i.bytes), 0, 2, 0.0, i.bytes, i.weights)
  {
    LegsOfThree(i, edges, p, e0, e1);
    assert p[1] != p[0] && p[1] != p[2];
    StagedLegsCost(Legs(i, edges, p, 2), i.bytes, i.weights);
  }

  lemma AroundSetup()
    ensures EDGES[1].setup + EDGES[4].setup == TEN_US * 5.0
  {
  }

  lemma AroundCost(w: Weights) returns (t: real)
    ensures Complete(TieInput(w), EDGES, AROUND)
    ensures RouteOf(TieInput(w), EDGES, AROUND).cost == Weighted(TEN_US * 5.0, t, 0, 2, 0.0, TieInput(w).bytes, w)
  {
    var i, e0, e1 := TieInput(w), EDGES[1], EDGES[4];
    AroundEdges(w);
    TwoLegCost(i, EDGES, AROUND, e0, e1);
    AroundSetup();
    t := MoveTime(Legs(i, EDGES, AROUND, 2), i.bytes);
  }

  lemma TwoLegs(legs: seq<Leg>)
    requires |legs| == 2
    ensures SetupTime(legs) == legs[0].setup + legs[1].setup
    ensures !legs[0].stagedCopy && !legs[1].stagedCopy ==> Risk(legs) == 0.0
  {
    var one := legs[..1];
    assert legs[..2 - 1] == one && one[..0] == [];
    assert SetupTime(one) == legs[0].setup && SetupTime([]) == 0.0;
    assert Risk([]) == 0.0;
  }

  lemma FreeTimeAndHops(s: real, t1: real, h1: nat, t2: real, h2: nat, r: real, bytes: U64, w: Weights)
    requires w.bandwidth == 0.0 && w.hop == 0.0
    ensures Weighted(s, t1, 0, h1, r, bytes, w) == Weighted(s, t2, 0, h2, r, bytes, w)
  {
  }

  /** If neither hops nor bytes cost anything, going round costs the same. */
  lemma TieCosts(w: Weights)
    requires w.bandwidth == 0.0 && w.hop == 0.0
    ensures Complete(TieInput(w), EDGES, STRAIGHT) && Complete(TieInput(w), EDGES, AROUND)
    ensures RouteOf(TieInput(w), EDGES, STRAIGHT).cost == RouteOf(TieInput(w), EDGES, AROUND).cost
  {
    var i := TieInput(w);
    TieLinks(w);
    DirectCost(i, STRAIGHT);
    var t := AroundCost(w);
    FreeTimeAndHops(TEN_US * 5.0, TimeFor(i.goal, i.bytes)(i.start), 1, t, 2, 0.0, i.bytes, w);
  }

  /** Of two routes of equal cost, either may be ranked first. */
  lemma TieRanking(i: Input, straight: Route, around: Route)
    requires !i.preferDirect && straight.class_ == Direct && around.class_ != Direct && straight.cost == around.cost
    ensures var routes, ranked := [straight, around], [around, straight];
      && Sorted(ranked) && multiset(ranked) == multiset(AdjustAll(routes, Penalises(i, routes)))
      && !Margin(i, routes, ranked)
  {
    var routes, ranked := [straight, around], [around, straight];
    AdjustNothing(routes);
    assert First(around, i, routes, ranked) && around in routes && straight in routes;
  }

  lemma TieCollected(w: Weights)
    ensures Complete(TieInput(w), EDGES, STRAIGHT) && Complete(TieInput(w), EDGES, AROUND)
    ensures var i := TieInput(w);
      Collected(i, EDGES, [RouteOf(i, EDGES, STRAIGHT), RouteOf(i, EDGES, AROUND)], [STRAIGHT, AROUND])
  {
    TieLinks(w);
  }

  lemma TieRanked(w: Weights) returns (straight: Route, around: Route)
    requires w.bandwidth == 0.0 && w.hop == 0.0
    ensures Ranking(TieInput(w), [STRAIGHT, AROUND], [straight, around], [around, straight])
    ensures !Margin(TieInput(w), [straight, around], [around, straight])
  {
    var i := TieInput(w);
    StraightClass(w);
    AroundClass(w);
    TieCosts(w);
    straight, around := RouteOf(i, EDGES, STRAIGHT), RouteOf(i, EDGES, AROUND);
    TieRanking(i, straight, around);
    TieCandidates(w);
    TieCollected(w);
  }

  lemma TieBreaksMargin(w: Weights)
    requires w.bandwidth == 0.0 && w.hop == 0.0
    ensures !MarginHolds(w, false)
  {
    var straight, around := TieRanked(w);
  }

  /** For nonnegative weights the half-second margin holds, for every input and
      every order of equal costs, if and only if direct paths are preferred or
      hops or bytes cost anything. */
  lemma MarginIff(w: Weights, prefer: bool)
    requires NonNegative(w)
    ensures MarginHolds(w, prefer) <==> prefer || w.hop > 0.0 || w.bandwidth > 0.0
  {
    if prefer || w.hop > 0.0 || w.bandwidth > 0.0 {
      forall i: Input, paths: seq<Path>, routes: seq<Route>, ranked: seq<Route>
        | i.weights == w && i.preferDirect == prefer && Ranking(i, paths, routes, ranked)
        ensures Margin(i, routes, ranked)
      {
        if prefer {
          MarginUnderPreference(i, paths, routes, ranked);
        } else {
          MarginWithoutTies(i, paths, routes, ranked);
        }
      }
    } else {
      TieBreaksMargin(w);
    }
  }
}
