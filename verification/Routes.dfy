/** The domain graph of the route planner: edges, legs, routes and the cost
    model, with costs as real numbers. */
module Routes {
  import opened Arith
  import opened Basics
  import opened Domains

  datatype Backend = Host | Cuda | File | Shm | Tcp

  /** An undirected edge of the domain graph. */
  datatype Edge = Edge(a: Domain, b: Domain, backend: Backend, bandwidth: real, setup: real, remote: bool)

  datatype Weights = Weights(setup: real, bandwidth: real, staging: real, hop: real, retry: real)

  /** What the planner is asked. `available` empty means every backend. */
  datatype Input = Input(
    start: Domain,
    goal: Domain,
    sourceReadable: bool,
    destWritable: bool,
    domainsAllowed: bool,
    sourceStagedCopy: bool,
    destStagedCopy: bool,
    bytes: U64,
    maxHops: U64,
    preferredChunk: U64,
    hostCapacity: U64,
    pinnedCapacity: U64,
    preferDirect: bool,
    allowStaging: bool,
    requireStaging: bool,
    remoteAvailable: bool,
    available: set<Backend>,
    weights: Weights)

  datatype Leg = Leg(source: Domain, dest: Domain, backend: Backend, bandwidth: real, setup: real, staged: bool,
                     stagedCopy: bool)

  datatype Class = Direct | Staged | Remote

  datatype Route = Route(legs: seq<Leg>, class_: Class, cost: real)

  const EDGES: seq<Edge> := [
    Edge(HostPageable, HostPageable, Host, 9000000000.0, 0.00002, false),
    Edge(HostPageable, HostPinned, Host, 8000000000.0, 0.00002, false),
    Edge(HostPinned, HostPinned, Host, 9000000000.0, 0.00002, false),
    Edge(HostPageable, Device, Cuda, 6000000000.0, 0.00005, false),
    Edge(HostPinned, Device, Cuda, 22000000000.0, 0.00003, false),
    Edge(Device, Device, Cuda, 30000000000.0, 0.00002, false),
    Edge(HostPageable, Storage, File, 2000000000.0, 0.00005, false),
    Edge(HostPinned, Storage, File, 2000000000.0, 0.00005, false),
    Edge(Storage, Storage, File, 2000000000.0, 0.00003, false),
    Edge(HostPageable, Shared, Shm, 10000000000.0, 0.00003, false),
    Edge(HostPinned, Shared, Shm, 10000000000.0, 0.00003, false),
    Edge(Shared, Shared, Shm, 10000000000.0, 0.00003, false),
    Edge(HostPageable, Mmap, Host, 8000000000.0, 0.00003, false),
    Edge(HostPinned, Mmap, Host, 8000000000.0, 0.00003, false),
    Edge(HostPageable, Domain.Remote, Tcp, 1000000000.0, 0.00015, true),
    Edge(HostPinned, Domain.Remote, Tcp, 1000000000.0, 0.00015, true)
  ]

  predicate Joins(e: Edge, a: Domain, b: Domain) {
    (e.a == a && e.b == b) || (e.a == b && e.b == a)
  }

  /** No two edges join the same pair, and exactly the network edges are remote. */
  predicate WellFormed(edges: seq<Edge>) {
    && (forall i, j, a, b ::
          0 <= i < |edges| && 0 <= j < |edges| && Joins(edges[i], a, b) && Joins(edges[j], a, b) ==> i == j)
    && (forall i :: 0 <= i < |edges| ==> (edges[i].remote <==> edges[i].backend == Tcp))
  }

  /** Where the table lists a pair, in the order it is listed. */
  function Row(a: Domain, b: Domain): int {
    match a
    case HostPageable => (
      match b
      case HostPageable => 0 case HostPinned => 1 case Device => 3 case Storage => 6
      case Shared => 9 case Mmap => 12 case Remote => 14 case Unknown => -1)
    case HostPinned => (
      match b
      case HostPinned => 2 case Device => 4 case Storage => 7
      case Shared => 10 case Mmap => 13 case Remote => 15 case HostPageable => -1 case Unknown => -1)
    case Device => if b == Device then 5 else -1
    case Storage => if b == Storage then 8 else -1
    case Shared => if b == Shared then 11 else -1
    case _ => -1
  }

  lemma RowOf(i: nat)
    requires i < |EDGES|
    ensures Row(EDGES[i].a, EDGES[i].b) == i && (EDGES[i].remote <==> EDGES[i].backend == Tcp)
  {
  }

  lemma OneOrder(a: Domain, b: Domain)
    requires Row(a, b) >= 0 && Row(b, a) >= 0
    ensures a == b
  {
  }

  lemma EdgesWellFormed()
    ensures WellFormed(EDGES)
  {
    forall i, j, a, b | 0 <= i < |EDGES| && 0 <= j < |EDGES| && Joins(EDGES[i], a, b) && Joins(EDGES[j], a, b)
      ensures i == j
    {
      RowOf(i);
      RowOf(j);
      if EDGES[i].a == EDGES[j].b && EDGES[i].b == EDGES[j].a { OneOrder(EDGES[i].a, EDGES[i].b); }
    }
    forall i | 0 <= i < |EDGES| ensures EDGES[i].remote <==> EDGES[i].backend == Tcp { RowOf(i); }
  }

  predicate Known(i: Input, b: Backend) { i.available == {} || b in i.available }

  predicate Feasible(i: Input, e: Edge) { (e.remote ==> i.remoteAvailable) && Known(i, e.backend) }

  predicate StagingDomain(d: Domain) { d == HostPageable || d == HostPinned }

  // ---- Cost ---------------------------------------------------------------

  function SetupTime(legs: seq<Leg>): real {
    if legs == [] then 0.0 else SetupTime(legs[..|legs| - 1]) + legs[|legs| - 1].setup
  }

  /** The seconds of moving `bytes` over every leg in turn. */
  function MoveTime(legs: seq<Leg>, bytes: U64): real {
    if legs == [] then 0.0
    else
      var l := legs[|legs| - 1];
      MoveTime(legs[..|legs| - 1], bytes) + bytes as real / (if l.bandwidth > 0.0 then l.bandwidth else 1.0)
  }

  predicate CountsAsStaged(legs: seq<Leg>, k: nat)
    requires k < |legs|
  {
    legs[k].staged || 0 < k < |legs| - 1
  }

  function StagedLegs(legs: seq<Leg>, n: nat): nat
    requires n <= |legs|
  {
    if n == 0 then 0 else StagedLegs(legs, n - 1) + (if CountsAsStaged(legs, n - 1) then 1 else 0)
  }

  function Risk(legs: seq<Leg>): real {
    if legs == [] then 0.0 else Risk(legs[..|legs| - 1]) + (if legs[|legs| - 1].stagedCopy then 0.05 else 0.0)
  }

  function Weighted(setup: real, time: real, stagedBytes: U64, hops: nat, risk: real, bytes: U64, w: Weights): real {
    setup * w.setup + time * w.bandwidth + stagedBytes as real / (1000000000.0 + bytes as real) * w.staging
    + hops as real * w.hop + risk * w.retry
  }

  function Cost(legs: seq<Leg>, bytes: U64, w: Weights): real {
    if legs == [] then 0.0
    else Weighted(SetupTime(legs), MoveTime(legs, bytes), Times(StagedLegs(legs, |legs|), bytes), |legs|, Risk(legs),
                  bytes, w)
  }

  /** What a 64-bit counter holds of `n` times a byte count. */
  function Times(n: nat, bytes: U64): U64 { Wrap(n * bytes) }

  lemma TimesNext(n: nat, bytes: U64)
    ensures Wrap(Times(n, bytes) + bytes) == Times(n + 1, bytes)
  {
    MulMonotone(0, n, bytes);
    MulSucc(n, bytes);
    WrapAdd(n * bytes, bytes);
  }

  method Evaluate(legs: seq<Leg>, bytes: U64, w: Weights) returns (total: real)
    ensures total == Cost(legs, bytes, w)
  {
    if legs == [] {
      return 0.0;
    }
    var setup, time, retry, hop := 0.0, 0.0, 0.0, 0;
    var stagedBytes: U64 := 0;
    for i := 0 to |legs|
      invariant setup == SetupTime(legs[..i]) && time == MoveTime(legs[..i], bytes)
      invariant hop == i && retry == Risk(legs[..i])
      invariant stagedBytes == Times(StagedLegs(legs, i), bytes)
    {
      assert legs[..i + 1][..i] == legs[..i];
      var l := legs[i];
      setup := setup + l.setup;
      var bw := if l.bandwidth > 0.0 then l.bandwidth else 1.0;
      time := time + bytes as real / bw;
      hop := hop + 1;
      if l.staged || (i > 0 && i + 1 < |legs|) {
        TimesNext(StagedLegs(legs, i), bytes);
        stagedBytes := Wrap(stagedBytes + bytes);
      }
      retry := retry + (if l.stagedCopy then 0.05 else 0.0);
    }
    assert legs[..|legs|] == legs;
    total := Weighted(setup, time, stagedBytes, hop, retry, bytes, w);
  }

  lemma TimesTwice(n: nat, bytes: U64)
    ensures Wrap(Times(n, bytes) * 2) == Times(2 * n, bytes)
  {
    var x := n * bytes;
    MulMonotone(0, n, bytes);
    WrapAdd(x, Wrap(x));
    WrapAdd(x, x);
    assert 2 * n * bytes == x + x;
  }
}
