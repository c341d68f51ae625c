/** The route planner around the search: ranking by adjusted cost, the special
    cases, and what an admitted route means for the staging pools. */
module Planner {
  import opened Arith
  import opened Basics
  import opened Domains
  import opened Routes
  import opened RouteSearch
  import Chunking
  import Reservation
  import Staging

  // ---- Ranking ------------------------------------------------------------

  predicate Sorted(rs: seq<Route>) { forall a, b :: 0 <= a < b < |rs| ==> rs[a].cost <= rs[b].cost }

  /** The direct-path preference: half a second on every other route. */
  function Adjust(r: Route, penalise: bool): Route {
    if penalise && r.class_ != Direct then r.(cost := r.cost + 0.5) else r
  }

  function AdjustAll(rs: seq<Route>, penalise: bool): seq<Route> {
    seq(|rs|, k requires 0 <= k < |rs| => Adjust(rs[k], penalise))
  }

  predicate HasDirect(rs: seq<Route>) { exists r :: r in rs && r.class_ == Direct }

  lemma AdjustSnoc(rs: seq<Route>, r: Route, penalise: bool)
    ensures AdjustAll(rs + [r], penalise) == AdjustAll(rs, penalise) + [Adjust(r, penalise)]
  {
  }

  lemma AdjustAppend(a: seq<Route>, b: seq<Route>, penalise: bool)
    ensures AdjustAll(a + b, penalise) == AdjustAll(a, penalise) + AdjustAll(b, penalise)
  {
  }

  lemma Without(rs: seq<Route>, k: nat, penalise: bool)
    requires k < |rs|
    ensures var rest := rs[..k] + rs[k + 1..];
      && multiset(rs) == multiset(rest) + multiset{rs[k]}
      && multiset(AdjustAll(rs, penalise)) == multiset(AdjustAll(rest, penalise)) + multiset{Adjust(rs[k], penalise)}
  {
    assert rs == (rs[..k] + [rs[k]]) + rs[k + 1..];
    AdjustAppend(rs[..k] + [rs[k]], rs[k + 1..], penalise);
    AdjustSnoc(rs[..k], rs[k], penalise);
    AdjustAppend(rs[..k], rs[k + 1..], penalise);
  }

  lemma CancelOne(a: multiset<Route>, b: multiset<Route>, r: Route)
    requires a + multiset{r} == b + multiset{r}
    ensures a == b
  {
    forall x ensures a[x] == b[x] {
      assert (a + multiset{r})[x] == (b + multiset{r})[x];
    }
  }

  /** Adjusting commutes with reordering. */
  lemma {:induction false} AdjustPermutation(a: seq<Route>, b: seq<Route>, penalise: bool)
    requires multiset(a) == multiset(b)
    ensures multiset(AdjustAll(a, penalise)) == multiset(AdjustAll(b, penalise))
  {
    if a == [] {
      assert |b| == |multiset(b)| == |multiset(a)| == 0;
    } else {
      var n := |a| - 1;
      var r := a[n];
      assert r in multiset(b);
      var k :| 0 <= k < |b| && b[k] == r;
      var rest := b[..k] + b[k + 1..];
      Without(b, k, penalise);
      assert a == a[..n] + [r];
      AdjustSnoc(a[..n], r, penalise);
      CancelOne(multiset(a[..n]), multiset(rest), r);
      AdjustPermutation(a[..n], rest, penalise);
    }
  }

  /** Inserts `r` into a sorted list. */
  method Insert(rs: seq<Route>, r: Route) returns (out: seq<Route>)
    requires Sorted(rs)
    ensures Sorted(out) && multiset(out) == multiset(rs) + multiset{r}
  {
    var k := |rs|;
    while k > 0 && r.cost < rs[k - 1].cost
      invariant 0 <= k <= |rs|
      invariant forall j :: k <= j < |rs| ==> r.cost < rs[j].cost
    {
      k := k - 1;
    }
    out := rs[..k] + [r] + rs[k..];
    InsertSorted(rs, r, k);
    InsertContents(rs, r, k);
  }

  lemma InsertSorted(rs: seq<Route>, r: Route, k: nat)
    requires Sorted(rs) && k <= |rs| && (k > 0 ==> rs[k - 1].cost <= r.cost)
    requires forall j :: k <= j < |rs| ==> r.cost < rs[j].cost
    ensures Sorted(rs[..k] + [r] + rs[k..])
  {
    var out := rs[..k] + [r] + rs[k..];
    forall a, b | 0 <= a < b < |out| ensures out[a].cost <= out[b].cost {
      assert out[a] == if a < k then rs[a] else if a == k then r else rs[a - 1];
      assert out[b] == if b < k then rs[b] else if b == k then r else rs[b - 1];
    }
  }

  lemma InsertContents(rs: seq<Route>, r: Route, k: nat)
    requires k <= |rs|
    ensures multiset(rs[..k] + [r] + rs[k..]) == multiset(rs) + multiset{r}
  {
    assert rs == rs[..k] + rs[k..];
  }

  method SortByCost(rs: seq<Route>) returns (out: seq<Route>)
    ensures Sorted(out) && multiset(out) == multiset(rs)
  {
    out := [];
    for k := 0 to |rs|
      invariant Sorted(out) && multiset(out) == multiset(rs[..k])
    {
      assert rs[..k + 1] == rs[..k] + [rs[k]];
      out := Insert(out, rs[k]);
    }
    assert rs[..|rs|] == rs;
  }

  method Rank(rs: seq<Route>, preferDirect: bool) returns (ranked: seq<Route>)
    ensures Sorted(ranked)
    ensures multiset(ranked) == multiset(AdjustAll(rs, preferDirect && HasDirect(rs)))
  {
    ranked := SortByCost(rs);
    SameMembers(ranked, rs);
    if preferDirect {
      var hasDirect := AnyDirect(ranked);
      if hasDirect {
        var adjusted := [];
        for k := 0 to |ranked|
          invariant adjusted == AdjustAll(ranked[..k], true)
        {
          assert ranked[..k + 1] == ranked[..k] + [ranked[k]];
          AdjustSnoc(ranked[..k], ranked[k], true);
          var c := ranked[k];
          if c.class_ != Direct { c := c.(cost := c.cost + 0.5); }
          adjusted := adjusted + [c];
        }
        assert ranked[..|ranked|] == ranked;
        AdjustPermutation(ranked, rs, true);
        ranked := SortByCost(adjusted);
        return;
      }
    }
    AdjustNothing(rs);
  }

  method AnyDirect(rs: seq<Route>) returns (b: bool)
    ensures b <==> HasDirect(rs)
  {
    for k := 0 to |rs|
      invariant forall j :: 0 <= j < k ==> rs[j].class_ != Direct
    {
      if rs[k].class_ == Direct { return true; }
    }
    return false;
  }

  lemma SameMembers(a: seq<Route>, b: seq<Route>)
    requires multiset(a) == multiset(b)
    ensures forall r :: r in a <==> r in b
  {
    forall r ensures r in a <==> r in b {
      assert r in a <==> r in multiset(a);
      assert r in b <==> r in multiset(b);
    }
  }

  lemma AdjustNothing(rs: seq<Route>)
    ensures AdjustAll(rs, false) == rs
  {
  }

  /** The first ranked route has minimal adjusted cost among all candidates. A
      route that is not direct comes first although a direct one exists only
      if, under the preference, it is cheaper by at least half a second. */
  lemma FirstIsBest(rs: seq<Route>, preferDirect: bool, ranked: seq<Route>) returns (best: Route)
    requires rs != [] && Sorted(ranked)
    requires multiset(ranked) == multiset(AdjustAll(rs, preferDirect && HasDirect(rs)))
    ensures ranked != [] && best in rs && ranked[0] == Adjust(best, preferDirect && HasDirect(rs))
    ensures forall r :: r in rs ==> ranked[0].cost <= Adjust(r, preferDirect && HasDirect(rs)).cost
    ensures preferDirect && best.class_ != Direct ==>
      forall d :: d in rs && d.class_ == Direct ==> best.cost + 0.5 <= d.cost
    ensures !preferDirect ==> forall r :: r in rs ==> best.cost <= r.cost
  {
    var penalise := preferDirect && HasDirect(rs);
    var adjusted := AdjustAll(rs, penalise);
    SameMembers(ranked, adjusted);
    assert |ranked| == |multiset(ranked)| == |adjusted|;
    assert ranked[0] in adjusted;
    var k :| 0 <= k < |adjusted| && adjusted[k] == ranked[0];
    best := rs[k];
    forall r | r in rs ensures ranked[0].cost <= Adjust(r, penalise).cost {
      var j :| 0 <= j < |rs| && rs[j] == r;
      assert adjusted[j] in ranked;
    }
  }

  // ---- Planning -----------------------------------------------------------

  datatype PlanResult = PlanResult(best: Option<Route>, candidates: seq<Route>)

  const NO_ROUTE := PlanResult(None, [])

  predicate Refused(i: Input) { !i.sourceReadable || !i.destWritable || !i.domainsAllowed }

  /** The backend of a transfer within one domain. */
  function OwnBackend(d: Domain): Backend {
    match d
    case Device => Cuda
    case Storage => File
    case Shared => Shm
    case _ => Host
  }

  function OwnBandwidth(b: Backend): real {
    match b
    case Cuda => 30000000000.0
    case File => 2000000000.0
    case Shm => 10000000000.0
    case _ => 9000000000.0
  }

  /** The single leg of a transfer of no bytes or within one domain. */
  function OwnLeg(i: Input): Leg {
    if i.bytes == 0 then Leg(i.start, i.goal, Host, 1.0, 0.0, false, i.sourceStagedCopy)
    else Leg(i.start, i.goal, OwnBackend(i.start), OwnBandwidth(OwnBackend(i.start)), 0.00002, false,
             i.sourceStagedCopy)
  }

  function OwnCost(i: Input): real { if i.bytes == 0 then 0.0 else Cost([OwnLeg(i)], i.bytes, i.weights) }

  /** `paths` are all the candidate paths, each once. */
  ghost predicate AllCandidates(i: Input, edges: seq<Edge>, paths: seq<Path>) {
    NoRepeats(paths) && forall p :: p in paths <==> Candidate(i, edges, p)
  }

  /** The searched case: distinct domains and at least one byte. */
  method PlanSearch(i: Input, edges: seq<Edge>)
    returns (res: PlanResult, ghost paths: seq<Path>, ghost routes: seq<Route>)
    requires WellFormed(edges) && !Refused(i) && i.start != i.goal
    ensures AllCandidates(i, edges, paths) && Collected(i, edges, routes, paths)
    ensures Sorted(res.candidates)
    ensures multiset(res.candidates) == multiset(AdjustAll(routes, i.preferDirect && HasDirect(routes)))
    ensures res.best == if paths == [] then None else Some(res.candidates[0])
    ensures forall r :: r in routes ==>
      res.best.Some? && res.best.value.cost <= Adjust(r, i.preferDirect && HasDirect(routes)).cost
  {
    var search := new Search(i, edges);
    search.Dfs(i.start);
    paths, routes := search.found, search.candidates;
    assert search.found[0..] == paths;
    FromStart(i, edges, paths);
    var ranked := Rank(search.candidates, i.preferDirect);
    RankedLength(ranked, routes, i.preferDirect && HasDirect(routes));
    if ranked == [] {
      return NO_ROUTE, paths, routes;
    }
    res := PlanResult(Some(ranked[0]), ranked);
    ghost var best := FirstIsBest(routes, i.preferDirect, ranked);
  }

  lemma FromStart(i: Input, edges: seq<Edge>, paths: seq<Path>)
    requires Enumerates(i, edges, paths, [i.start])
    ensures AllCandidates(i, edges, paths)
  {
    forall p | Candidate(i, edges, p) ensures [i.start] <= p {
      assert p[0] == i.start;
    }
  }

  lemma RankedLength(ranked: seq<Route>, rs: seq<Route>, penalise: bool)
    requires multiset(ranked) == multiset(AdjustAll(rs, penalise))
    ensures |ranked| == |rs|
  {
    assert |ranked| == |multiset(ranked)| == |AdjustAll(rs, penalise)|;
  }

  method Plan(i: Input) returns (res: PlanResult, ghost paths: seq<Path>, ghost routes: seq<Route>)
    ensures Refused(i) ==> res == NO_ROUTE
    ensures !Refused(i) && (i.bytes == 0 || i.start == i.goal) ==>
      && |res.candidates| <= 1
      && (res.best.Some? <==> i.bytes == 0 || Known(i, OwnBackend(i.start)))
      && (res.best.Some? ==>
            && res.candidates == [res.best.value] && res.best.value.class_ == Direct
            && res.best.value.legs == [OwnLeg(i)] && res.best.value.cost == OwnCost(i))
    ensures !Refused(i) && i.bytes != 0 && i.start != i.goal ==>
      && AllCandidates(i, EDGES, paths) && Collected(i, EDGES, routes, paths)
      && Sorted(res.candidates)
      && multiset(res.candidates) == multiset(AdjustAll(routes, i.preferDirect && HasDirect(routes)))
      && (forall r :: r in routes ==>
            res.best.Some? && res.best.value.cost <= Adjust(r, i.preferDirect && HasDirect(routes)).cost)
      && res.best == if paths == [] then None else Some(res.candidates[0])
  {
    paths, routes := [], [];
    if Refused(i) {
      return NO_ROUTE, paths, routes;
    }
    if i.bytes == 0 {
      var leg := Leg(i.start, i.goal, Host, 1.0, 0.0, false, i.sourceStagedCopy);
      var route := Route([leg], Direct, 0.0);
      return PlanResult(Some(route), [route]), paths, routes;
    }
    if i.start == i.goal {
      var backend := OwnBackend(i.start);
      if !Known(i, backend) {
        return NO_ROUTE, paths, routes;
      }
      var leg := Leg(i.start, i.goal, backend, OwnBandwidth(backend), 0.00002, false, i.sourceStagedCopy);
      var cost := Evaluate([leg], i.bytes, i.weights);
      var route := Route([leg], Direct, cost);
      return PlanResult(Some(route), [route]), paths, routes;
    }
    EdgesWellFormed();
    res, paths, routes := PlanSearch(i, EDGES);
  }

  // ---- From an admitted route to its staging buffers ----------------------

  const LEG_PREFERRED: U64 := 0x10000
  const LEG_MAX: U64 := 0x1000_0000
  const ALIGNMENT: U64 := 16
  const MIN_CHUNK: U64 := 4096

  /** The chunk plan of a transfer over `legs` legs, each with the limits that
      the planner leaves on it. */
  method PlanChunks(bytes: U64, sourceOffset: U64, destOffset: U64, preferredChunk: U64, maxChunk: U64, legs: nat)
    returns (r: Result<Chunking.Plan>)
    ensures r.Ok? <==> (if legs == 0 then maxChunk else Min(maxChunk, LEG_MAX)) >= MIN_CHUNK
    ensures r.Ok? ==> Chunking.Exact(r.value) && r.value.total == bytes
    ensures r.Ok? && bytes > 0 ==> r.value.chunkSize >= MIN_CHUNK
    ensures r.Ok? && bytes > 0 && preferredChunk >= MIN_CHUNK ==> r.value.chunkSize <= preferredChunk
    ensures r.Ok? && bytes > 0 ==> Chunking.Aligned(r.value.chunkSize, ALIGNMENT)
  {
    var preferred, maxc, align := preferredChunk, maxChunk, ALIGNMENT;
    for k := 0 to legs
      invariant preferred == if k == 0 then preferredChunk else Min(preferredChunk, LEG_PREFERRED)
      invariant maxc == if k == 0 then maxChunk else Min(maxChunk, LEG_MAX)
      invariant align == ALIGNMENT
    {
      if LEG_PREFERRED < preferred { preferred := LEG_PREFERRED; }
      if LEG_MAX < maxc { maxc := LEG_MAX; }
      if ALIGNMENT > align { align := ALIGNMENT; }
    }
    var input := Chunking.PlanInput(bytes, sourceOffset, destOffset, MIN_CHUNK, maxc, preferred, align);
    r := Chunking.Build(input);
    if r.Ok? && bytes > 0 {
      Chunking.AlignedMinimum(input, r.value.chunkSize);
    }
  }

  /** Every intermediate node is host memory. */
  predicate HostStaged(p: Path) { forall k :: 0 < k < |p| - 1 ==> StagingDomain(p[k]) }

  /** In a simple path over host memory a pool serves at most one node, and
      only if the planner charged the pool for it. */
  lemma {:induction false} OneNodePerPool(p: Path, pinned: bool, j: nat)
    requires Simple(p) && HostStaged(p) && j < |p|
    ensures Reservation.Nodes(p, pinned, j) <= 1
    ensures Reservation.Nodes(p, pinned, j) == 1 ==>
      exists k :: 0 < k < j && p[k] == if pinned then HostPinned else HostPageable
  {
    if j > 1 {
      OneNodePerPool(p, pinned, j - 1);
      if Reservation.UsesPinned(p[j - 1]) == pinned {
        assert p[j - 1] == if pinned then HostPinned else HostPageable;
      }
    }
  }

  /** The planner's fourfold charge covers the rings of an admitted route. */
  lemma AdmittedFits(i: Input, edges: seq<Edge>, p: Path, chunk: U64, depth: nat)
    requires Candidate(i, edges, p) && HostStaged(p)
    requires chunk <= i.preferredChunk && 4 * i.preferredChunk < TWO64 && depth <= 4
    ensures Reservation.Fits(p, depth, chunk, i.hostCapacity, i.pinnedCapacity)
  {
    PoolFits(i, p, chunk, depth, false, i.hostCapacity);
    PoolFits(i, p, chunk, depth, true, i.pinnedCapacity);
  }

  lemma PoolFits(i: Input, p: Path, chunk: U64, depth: nat, pinned: bool, capacity: U64)
    requires |p| >= 2 && Simple(p) && HostStaged(p)
    requires Charge(i, p, if pinned then HostPinned else HostPageable) <= capacity
    requires chunk <= i.preferredChunk && 4 * i.preferredChunk < TWO64 && depth <= 4
    ensures Reservation.Need(p, pinned, Reservation.RingBytes(depth, chunk)) <= capacity
  {
    OneNodePerPool(p, pinned, |p| - 1);
    MulMonotone(depth, 4, chunk);
    if Reservation.Nodes(p, pinned, |p| - 1) == 1 {
      assert Interior(p, if pinned then HostPinned else HostPageable);
      assert Reservation.RingBytes(depth, chunk) <= 4 * i.preferredChunk;
    }
  }

  /** An admitted route over host memory always gets its staging buffers from
      fresh pools, with a chunk of at least a page and depth at most four. */
  method ReserveAdmitted(i: Input, edges: seq<Edge>, p: Path, maxChunk: U64, pipelineDepth: nat) returns (ok: bool)
    requires Candidate(i, edges, p) && HostStaged(p) && i.bytes > 0
    requires MIN_CHUNK <= i.preferredChunk && 4 * i.preferredChunk < TWO64 && pipelineDepth <= 4
    requires maxChunk >= MIN_CHUNK
    ensures ok
  {
    var chunks := PlanChunks(i.bytes, 0, 0, i.preferredChunk, maxChunk, |p| - 1);
    var host := new Staging.StagingPool(i.hostCapacity);
    var pinned := new Staging.StagingPool(i.pinnedCapacity);
    AdmittedFits(i, edges, p, chunks.value.chunkSize, Reservation.Depth(pipelineDepth));
    var rings;
    rings, ok := Reservation.ReserveStaging(p, chunks.value.chunkSize, pipelineDepth, host, pinned, true);
  }

  /** A device as intermediate node takes its ring from the host pool without
      a charge: this admitted route can never be reserved. */
  lemma DeviceNodeUncharged() returns (i: Input, p: Path)
    ensures Candidate(i, EDGES, p) && MIN_CHUNK <= i.preferredChunk && 4 * i.preferredChunk < TWO64
    ensures forall chunk: U64, depth: nat :: chunk > 0 && depth > 0 ==>
      !Reservation.Fits(p, depth, chunk, i.hostCapacity, i.pinnedCapacity)
  {
    i := Input(HostPageable, HostPinned, true, true, true, false, false, 1, 8, 4096, 0, 0,
               true, true, true, false, {}, Weights(1.0, 1.0, 1.0, 1.0, 1.0));
    p := [HostPageable, Device, HostPinned];
    assert Joins(EDGES[3], HostPageable, Device) && Feasible(i, EDGES[3]);
    assert Joins(EDGES[4], Device, HostPinned) && Feasible(i, EDGES[4]);
    assert LinkAt(i, EDGES, p, 0) && LinkAt(i, EDGES, p, 1);
    assert !Interior(p, HostPinned) && !Interior(p, HostPageable);
    assert Reservation.Nodes(p, false, 1) == 0;
    assert Reservation.Nodes(p, false, 2) == 1;
    forall chunk: U64, depth: nat | chunk > 0 && depth > 0
      ensures !Reservation.Fits(p, depth, chunk, i.hostCapacity, i.pinnedCapacity)
    {
      MulAtLeast(chunk, depth);
    }
  }
}
