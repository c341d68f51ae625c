/** The planner's depth-first search over the domain graph: a method that
    extends and restores one path, against a description of the paths it must
    collect. */
module RouteSearch {
  import opened Basics
  import opened Domains
  import opened Routes

  type Path = seq<Domain>

  // ---- Which paths are candidates -----------------------------------------

  predicate Linked(i: Input, edges: seq<Edge>, a: Domain, b: Domain) {
    exists k :: 0 <= k < |edges| && Joins(edges[k], a, b) && Feasible(i, edges[k])
  }

  predicate Simple(p: Path) { forall i, j :: 0 <= i < j < |p| ==> p[i] != p[j] }

  predicate LinkAt(i: Input, edges: seq<Edge>, p: Path, k: nat)
    requires k + 1 < |p|
  {
    Linked(i, edges, p[k], p[k + 1])
  }

  /** A simple path of feasible edges from the start. */
  predicate Walk(i: Input, edges: seq<Edge>, p: Path) {
    && |p| > 0 && p[0] == i.start && Simple(p)
    && forall k :: 0 <= k < |p| - 1 ==> LinkAt(i, edges, p, k)
  }

  predicate Interior(p: Path, d: Domain) { exists k :: 0 < k < |p| - 1 && p[k] == d }

  /** What the planner charges a pool for a staging node of domain `d`: four
      chunks, in 64-bit arithmetic. */
  function Charge(i: Input, p: Path, d: Domain): U64 {
    if Interior(p, d) then Times(4, i.preferredChunk) else 0
  }

  /** The capacity and staging-policy filters. */
  predicate Admitted(i: Input, p: Path) {
    && Charge(i, p, HostPinned) <= i.pinnedCapacity
    && Charge(i, p, HostPageable) <= i.hostCapacity
    && (i.requireStaging ==> |p| > 2)
    && (!i.allowStaging ==> |p| <= 2)
  }

  predicate Complete(i: Input, edges: seq<Edge>, p: Path) {
    |p| >= 2 && Walk(i, edges, p) && p[|p| - 1] == i.goal
  }

  predicate Candidate(i: Input, edges: seq<Edge>, p: Path) {
    Complete(i, edges, p) && |p| - 1 <= i.maxHops && Admitted(i, p)
  }

  predicate NoRepeats(paths: seq<Path>) { forall a, b :: 0 <= a < b < |paths| ==> paths[a] != paths[b] }

  /** `paths` are exactly the candidates that begin with `pre`, each once. */
  ghost predicate Enumerates(i: Input, edges: seq<Edge>, paths: seq<Path>, pre: Path) {
    && NoRepeats(paths)
    && forall p :: p in paths <==> Candidate(i, edges, p) && pre <= p
  }

  // ---- The search, path by path -------------------------------------------

  lemma PastHopLimit(i: Input, edges: seq<Edge>, pre: Path)
    requires |pre| - 1 > i.maxHops
    ensures Enumerates(i, edges, [], pre)
  {
  }

  lemma AtGoal(i: Input, edges: seq<Edge>, pre: Path)
    requires Complete(i, edges, pre) && |pre| - 1 <= i.maxHops
    ensures Enumerates(i, edges, if Admitted(i, pre) then [pre] else [], pre)
  {
    forall p | Candidate(i, edges, p) && pre <= p
      ensures p == pre
    {
      assert p[|pre| - 1] == pre[|pre| - 1] == p[|p| - 1];
    }
  }

  /** The path leaves `pre` over one of the first `n` edges. */
  predicate LeavesBy(edges: seq<Edge>, pre: Path, p: Path, n: nat)
    requires |pre| > 0
  {
    && |p| > |pre| && pre <= p
    && exists k :: 0 <= k < n && k < |edges| && Joins(edges[k], pre[|pre| - 1], p[|pre|])
  }

  ghost predicate EnumeratesBy(i: Input, edges: seq<Edge>, paths: seq<Path>, pre: Path, n: nat)
    requires |pre| > 0
  {
    && NoRepeats(paths)
    && forall p :: p in paths <==> Candidate(i, edges, p) && LeavesBy(edges, pre, p, n)
  }

  /** An edge that leads nowhere new: it does not touch the end of `pre`, leads
      back into `pre` or is infeasible. */
  lemma SkipEdge(i: Input, edges: seq<Edge>, paths: seq<Path>, pre: Path, n: nat)
    requires WellFormed(edges) && |pre| > 0 && n < |edges| && EnumeratesBy(i, edges, paths, pre, n)
    requires forall d :: Joins(edges[n], pre[|pre| - 1], d) ==> d in pre || !Feasible(i, edges[n])
    ensures EnumeratesBy(i, edges, paths, pre, n + 1)
  {
    forall p | Candidate(i, edges, p) && LeavesBy(edges, pre, p, n + 1)
      ensures LeavesBy(edges, pre, p, n)
    {
      var k :| 0 <= k < n + 1 && k < |edges| && Joins(edges[k], pre[|pre| - 1], p[|pre|]);
      if k == n {
        LinkUses(i, edges, p, |pre| - 1, n);
        NotBack(p, pre);
      }
    }
  }

  lemma NotBack(p: Path, pre: Path)
    requires Simple(p) && pre <= p && |p| > |pre|
    ensures p[|pre|] !in pre
  {
    forall j | 0 <= j < |pre| ensures pre[j] != p[|pre|] {
      assert pre[j] == p[j];
    }
  }

  /** The edge between two neighbours of a walk is the feasible one. */
  lemma LinkUses(i: Input, edges: seq<Edge>, p: Path, k: nat, n: nat)
    requires WellFormed(edges) && Walk(i, edges, p) && k + 1 < |p| && n < |edges| && Joins(edges[n], p[k], p[k + 1])
    ensures Feasible(i, edges[n])
  {
    assert LinkAt(i, edges, p, k);
    var m :| 0 <= m < |edges| && Joins(edges[m], p[k], p[k + 1]) && Feasible(i, edges[m]);
    assert m == n;
  }

  /** An edge to a new domain `next` adds the candidates through it. */
  lemma TakeEdge(i: Input, edges: seq<Edge>, paths: seq<Path>, more: seq<Path>, pre: Path, n: nat, next: Domain)
    requires WellFormed(edges) && |pre| > 0 && n < |edges| && EnumeratesBy(i, edges, paths, pre, n)
    requires Joins(edges[n], pre[|pre| - 1], next) && next !in pre
    requires Enumerates(i, edges, more, pre + [next])
    ensures EnumeratesBy(i, edges, paths + more, pre, n + 1)
  {
    forall p | Candidate(i, edges, p) && LeavesBy(edges, pre, p, n + 1)
      ensures p in paths + more
    {
      var k :| 0 <= k < n + 1 && k < |edges| && Joins(edges[k], pre[|pre| - 1], p[|pre|]);
      if k == n {
        OtherEnd(edges[n], pre[|pre| - 1], next, p[|pre|]);
        Extends(p, pre, next);
        assert p in more;
      } else {
        assert LeavesBy(edges, pre, p, n);
        assert p in paths;
      }
    }
    forall p | p in more
      ensures LeavesBy(edges, pre, p, n + 1) && !LeavesBy(edges, pre, p, n) && Candidate(i, edges, p)
    {
      Extends(p, pre, next);
      OnlyEdge(edges, pre[|pre| - 1], next, n);
    }
    forall p | p in paths
      ensures LeavesBy(edges, pre, p, n + 1) && p !in more
    {
      assert LeavesBy(edges, pre, p, n);
    }
    JoinDisjoint(paths, more);
  }

  lemma OtherEnd(e: Edge, a: Domain, b: Domain, c: Domain)
    requires Joins(e, a, b) && Joins(e, a, c)
    ensures b == c
  {
  }

  lemma OnlyEdge(edges: seq<Edge>, a: Domain, b: Domain, n: nat)
    requires WellFormed(edges) && n < |edges| && Joins(edges[n], a, b)
    ensures forall k :: 0 <= k < n ==> !Joins(edges[k], a, b)
  {
  }

  lemma Extends(p: Path, pre: Path, next: Domain)
    ensures pre + [next] <= p <==> pre <= p && |p| > |pre| && p[|pre|] == next
  {
    if pre + [next] <= p {
      assert p[..|pre|] == (pre + [next])[..|pre|] == pre;
      assert p[|pre|] == (pre + [next])[|pre|];
    }
  }

  lemma JoinDisjoint(a: seq<Path>, b: seq<Path>)
    requires NoRepeats(a) && NoRepeats(b) && forall p :: p in a ==> p !in b
    ensures NoRepeats(a + b)
  {
    forall x, y | 0 <= x < y < |a + b|
      ensures (a + b)[x] != (a + b)[y]
    {
      if x < |a| <= y { assert a[x] in a && b[y - |a|] in b; }
    }
  }

  /** After all edges, every candidate below `pre` has been seen. */
  lemma AllEdges(i: Input, edges: seq<Edge>, paths: seq<Path>, pre: Path)
    requires |pre| > 0 && EnumeratesBy(i, edges, paths, pre, |edges|)
    requires |pre| == 1 || pre[|pre| - 1] != i.goal
    ensures Enumerates(i, edges, paths, pre)
  {
    forall p | Candidate(i, edges, p) && pre <= p
      ensures LeavesBy(edges, pre, p, |edges|)
    {
      assert |p| == |pre| ==> p == pre;
      assert LinkAt(i, edges, p, |pre| - 1);
    }
  }

  // ---- The route of a path ------------------------------------------------

  ghost function EdgeBetween(i: Input, edges: seq<Edge>, a: Domain, b: Domain): (e: Edge)
    requires Linked(i, edges, a, b)
    ensures e in edges && Joins(e, a, b) && Feasible(i, e)
  {
    var k :| 0 <= k < |edges| && Joins(edges[k], a, b) && Feasible(i, edges[k]);
    edges[k]
  }

  function LegOver(i: Input, a: Domain, b: Domain, e: Edge): Leg {
    Leg(a, b, e.backend, e.bandwidth, e.setup,
        (StagingDomain(a) && a != i.start) || (StagingDomain(b) && b != i.goal),
        if b == i.goal then i.destStagedCopy else if a == i.start then i.sourceStagedCopy else false)
  }

  ghost function EdgeAt(i: Input, edges: seq<Edge>, p: Path, k: nat): Edge
    requires Walk(i, edges, p) && k + 1 < |p|
  {
    assert LinkAt(i, edges, p, k);
    EdgeBetween(i, edges, p[k], p[k + 1])
  }

  ghost function Legs(i: Input, edges: seq<Edge>, p: Path, n: nat): seq<Leg>
    requires Walk(i, edges, p) && n < |p|
  {
    if n == 0 then [] else Legs(i, edges, p, n - 1) + [LegOver(i, p[n - 1], p[n], EdgeAt(i, edges, p, n - 1))]
  }

  ghost predicate CrossesNetwork(i: Input, edges: seq<Edge>, p: Path, n: nat)
    requires Walk(i, edges, p) && n < |p|
  {
    exists k :: 0 <= k < n && EdgeAt(i, edges, p, k).remote
  }

  ghost function RouteOf(i: Input, edges: seq<Edge>, p: Path): Route
    requires Complete(i, edges, p)
  {
    var legs := Legs(i, edges, p, |p| - 1);
    var class_ :=
      if CrossesNetwork(i, edges, p, |p| - 1) then Class.Remote else if |p| == 2 then Direct else Staged;
    Route(legs, class_, Cost(legs, i.bytes, i.weights))
  }

  /** The first edge that joins two domains, by linear search. */
  method FindEdge(i: Input, edges: seq<Edge>, p: Path, k: nat) returns (e: Option<Edge>)
    requires WellFormed(edges) && Walk(i, edges, p) && k + 1 < |p|
    ensures e == Some(EdgeAt(i, edges, p, k))
  {
    ghost var want := EdgeAt(i, edges, p, k);
    ghost var m :| 0 <= m < |edges| && edges[m] == want;
    for j := 0 to |edges|
      invariant j <= m
    {
      if Joins(edges[j], p[k], p[k + 1]) {
        assert j == m;
        return Some(edges[j]);
      }
    }
    assert false;
    return None;
  }

  /** Builds the legs of a complete path; none of its checks can fail there. */
  method BuildLegs(i: Input, edges: seq<Edge>, p: Path) returns (legs: seq<Leg>, remote: bool, feasible: bool)
    requires WellFormed(edges) && Complete(i, edges, p) && i.sourceReadable && i.destWritable
    ensures feasible
    ensures legs == Legs(i, edges, p, |p| - 1)
    ensures remote <==> CrossesNetwork(i, edges, p, |p| - 1)
  {
    legs, remote, feasible := [], false, true;
    for k := 0 to |p| - 1
      invariant feasible && legs == Legs(i, edges, p, k)
      invariant remote <==> CrossesNetwork(i, edges, p, k)
    {
      var a, b := p[k], p[k + 1];
      var found := FindEdge(i, edges, p, k);
      EdgeAtFeasible(i, edges, p, k);
      if found.None? { return legs, remote, false; }
      var e := found.value;
      if !Known(i, e.backend) { return legs, remote, false; }
      if e.backend == Tcp && !i.remoteAvailable { return legs, remote, false; }
      if e.remote { remote := true; }
      if a == i.start && !i.sourceReadable { return legs, remote, false; }
      if b == i.goal && !i.destWritable { return legs, remote, false; }
      legs := legs + [LegOver(i, a, b, e)];
    }
  }

  lemma EdgeAtFeasible(i: Input, edges: seq<Edge>, p: Path, k: nat)
    requires WellFormed(edges) && Walk(i, edges, p) && k + 1 < |p|
    ensures var e := EdgeAt(i, edges, p, k);
      Known(i, e.backend) && (e.backend == Tcp ==> i.remoteAvailable)
  {
    var e := EdgeAt(i, edges, p, k);
    assert LinkAt(i, edges, p, k);
    assert e in edges && Feasible(i, e);
  }

  // ---- The capacity charge ------------------------------------------------

  /** How often the first `n` legs charge a pool for domain `d`. */
  function Charges(i: Input, p: Path, d: Domain, n: nat): nat
    requires n < |p|
  {
    if n == 0 then 0 else
      Charges(i, p, d, n - 1)
      + (if p[n] != i.goal && p[n] == d then 1 else 0)
      + (if p[n - 1] != i.start && p[n - 1] == d then 1 else 0)
  }

  /** An intermediate node is charged as the end of one leg and the start of
      the next, every other node not at all. */
  lemma ChargesTwice(i: Input, edges: seq<Edge>, p: Path, d: Domain)
    requires Complete(i, edges, p)
    ensures Charges(i, p, d, |p| - 1) == if Interior(p, d) then 2 else 0
  {
    if Interior(p, d) {
      var m :| 0 < m < |p| - 1 && p[m] == d;
      ChargesAround(i, p, d, m, |p| - 1);
    } else {
      ChargesNever(i, p, d, |p| - 1);
    }
  }

  lemma {:induction false} ChargesAround(i: Input, p: Path, d: Domain, m: nat, n: nat)
    requires Simple(p) && 0 < m < |p| - 1 && p[m] == d && p[0] == i.start && p[|p| - 1] == i.goal && n < |p|
    ensures Charges(i, p, d, n) == (if m <= n then 1 else 0) + (if m < n then 1 else 0)
  {
    if n > 0 {
      ChargesAround(i, p, d, m, n - 1);
    }
  }

  lemma {:induction false} ChargesNever(i: Input, p: Path, d: Domain, n: nat)
    requires n < |p| && Simple(p) && !Interior(p, d) && p[0] == i.start && p[|p| - 1] == i.goal
    ensures Charges(i, p, d, n) == 0
  {
    if n > 0 {
      ChargesNever(i, p, d, n - 1);
    }
  }

  /** The staging bytes that a complete path would need of each pool. */
  method StagingNeeds(i: Input, edges: seq<Edge>, p: Path) returns (pageable: U64, pinned: U64)
    requires Complete(i, edges, p)
    ensures pageable == Charge(i, p, HostPageable) && pinned == Charge(i, p, HostPinned)
  {
    pageable, pinned := 0, 0;
    var est := i.preferredChunk;
    for k := 0 to |p| - 1
      invariant pageable == Times(Charges(i, p, HostPageable, k), est)
      invariant pinned == Times(Charges(i, p, HostPinned, k), est)
    {
      pinned := AddTwice(i, p, HostPinned, k, pinned, est);
      pageable := AddTwice(i, p, HostPageable, k, pageable, est);
    }
    ChargesTwice(i, edges, p, HostPageable);
    ChargesTwice(i, edges, p, HostPinned);
    TimesTwice(Charges(i, p, HostPageable, |p| - 1), est);
    TimesTwice(Charges(i, p, HostPinned, |p| - 1), est);
    pageable, pinned := Wrap(pageable * 2), Wrap(pinned * 2);
  }

  /** The two additions that leg `k` may make to the need of one pool. */
  method AddTwice(i: Input, p: Path, d: Domain, k: nat, need: U64, est: U64) returns (need': U64)
    requires k + 1 < |p| && need == Times(Charges(i, p, d, k), est)
    ensures need' == Times(Charges(i, p, d, k + 1), est)
  {
    need' := need;
    var n := Charges(i, p, d, k);
    TimesNext(n, est);
    TimesNext(n + 1, est);
    if p[k + 1] != i.goal && p[k + 1] == d { need' := Wrap(need' + est); }
    if p[k] != i.start && p[k] == d { need' := Wrap(need' + est); }
  }

  /** The candidate of a complete path, if the filters admit it. */
  method BuildRoute(i: Input, edges: seq<Edge>, p: Path) returns (r: Option<Route>)
    requires WellFormed(edges) && Complete(i, edges, p) && i.sourceReadable && i.destWritable
    ensures r.Some? <==> Admitted(i, p)
    ensures r.Some? ==> r.value == RouteOf(i, edges, p)
  {
    var legs, remote, feasible := BuildLegs(i, edges, p);
    if !feasible { return None; }
    var class_ := if |p| == 2 then Direct else Staged;
    var pageable, pinned := StagingNeeds(i, edges, p);
    if pinned > i.pinnedCapacity || pageable > i.hostCapacity { return None; }
    if i.requireStaging && class_ != Staged { return None; }
    if !i.allowStaging && class_ == Staged { return None; }
    var cost := Evaluate(legs, i.bytes, i.weights);
    if remote { class_ := Class.Remote; }
    return Some(Route(legs, class_, cost));
  }

  // ---- The search ---------------------------------------------------------

  const ALL: set<Domain> := {Unknown, HostPageable, HostPinned, Device, Shared, Storage, Domain.Remote, Mmap}

  /** Where an edge leads from `cur`. */
  function Other(e: Edge, cur: Domain): Option<Domain> {
    if e.a == cur then Some(e.b) else if e.b == cur then Some(e.a) else None
  }

  lemma OtherJoins(e: Edge, cur: Domain, d: Domain)
    ensures Joins(e, cur, d) <==> Other(e, cur) == Some(d)
  {
  }

  /** The routes of the paths, one by one. */
  ghost predicate Collected(i: Input, edges: seq<Edge>, routes: seq<Route>, paths: seq<Path>) {
    && |routes| == |paths|
    && forall k :: 0 <= k < |paths| ==> Complete(i, edges, paths[k]) && routes[k] == RouteOf(i, edges, paths[k])
  }

  class Search {
    const input: Input
    const edges: seq<Edge>
    var path: Path
    var visited: set<Domain>
    var candidates: seq<Route>
    /** The path of each candidate. */
    ghost var found: seq<Path>

    ghost predicate Valid()
      reads this
    {
      && WellFormed(edges) && input.start != input.goal && input.sourceReadable && input.destWritable
      && Walk(input, edges, path)
      && (forall d :: d in visited <==> d in path)
      && Collected(input, edges, candidates, found)
    }

    constructor (i: Input, es: seq<Edge>)
      requires WellFormed(es) && i.start != i.goal && i.sourceReadable && i.destWritable
      ensures Valid() && input == i && edges == es && path == [i.start] && found == []
    {
      input, edges := i, es;
      path, visited, candidates, found := [i.start], {i.start}, [], [];
    }

    /** Adds exactly the candidates below the current path, each once, and
        leaves the path and the visited set as they were. */
    method Dfs(cur: Domain)
      requires Valid() && path[|path| - 1] == cur
      modifies this
      ensures Valid() && path == old(path) && visited == old(visited)
      ensures |found| >= |old(found)| && found[..|old(found)|] == old(found)
      ensures Enumerates(input, edges, found[|old(found)|..], path)
      decreases ALL - visited, 1
    {
      ghost var n0 := |found|;
      assert found[n0..] == [];
      if |path| - 1 > input.maxHops {
        PastHopLimit(input, edges, path);
        return;
      }
      if cur == input.goal && |path| > 1 {
        Arrive();
        return;
      }
      for k := 0 to |edges|
        invariant Valid() && path == old(path) && visited == old(visited)
        invariant |found| >= n0 && found[..n0] == old(found)
        invariant EnumeratesBy(input, edges, found[n0..], path, k)
      {
        Explore(cur, k, n0);
      }
      AllEdges(input, edges, found[n0..], path);
    }

    /** The path has reached the goal. */
    method Arrive()
      requires Valid() && Complete(input, edges, path) && |path| - 1 <= input.maxHops
      modifies `candidates, `found
      ensures Valid()
      ensures |found| >= |old(found)| && found[..|old(found)|] == old(found)
      ensures Enumerates(input, edges, found[|old(found)|..], path)
    {
      ghost var n0 := |found|;
      AtGoal(input, edges, path);
      var r := BuildRoute(input, edges, path);
      if r.Some? {
        candidates := candidates + [r.value];
        found := found + [path];
        assert found[n0..] == [path];
      } else {
        assert found[n0..] == [];
      }
    }

    /** One round of the loop over the edges. */
    method Explore(cur: Domain, k: nat, ghost n0: nat)
      requires Valid() && path[|path| - 1] == cur && k < |edges| && n0 <= |found|
      requires EnumeratesBy(input, edges, found[n0..], path, k)
      modifies this
      ensures Valid() && path == old(path) && visited == old(visited)
      ensures |found| >= |old(found)| && found[..|old(found)|] == old(found)
      ensures EnumeratesBy(input, edges, found[n0..], path, k + 1)
      decreases ALL - visited, 0, 1
    {
      var e := edges[k];
      var next := Other(e, cur);
      forall d ensures Joins(e, cur, d) <==> next == Some(d) { OtherJoins(e, cur, d); }
      if next.None? || next.value in visited || !Feasible(input, e) {
        SkipEdge(input, edges, found[n0..], path, k);
        return;
      }
      ghost var n1 := |found|;
      WalkOn(input, edges, path, k, next.value);
      Descend(next.value);
      TakeEdge(input, edges, old(found)[n0..], found[n1..], path, k, next.value);
      Regroup(found, old(found), n0);
    }

    /** Searches below one more domain and steps back. */
    method Descend(next: Domain)
      requires Valid() && Walk(input, edges, path + [next]) && next !in path
      modifies this
      ensures Valid() && path == old(path) && visited == old(visited)
      ensures |found| >= |old(found)| && found[..|old(found)|] == old(found)
      ensures Enumerates(input, edges, found[|old(found)|..], path + [next])
      decreases ALL - visited, 0, 0
    {
      visited := visited + {next};
      path := path + [next];
      Dfs(next);
      assert path == old(path) + [next];
      path := path[..|path| - 1];
      visited := visited - {next};
      assert path == old(path) && visited == old(visited);
    }
  }

  lemma Regroup(now: seq<Path>, before: seq<Path>, n0: nat)
    requires n0 <= |before| <= |now| && now[..|before|] == before
    ensures now[n0..] == before[n0..] + now[|before|..]
  {
    assert forall k :: n0 <= k < |before| ==> now[k] == now[..|before|][k];
  }

  lemma WalkOn(i: Input, edges: seq<Edge>, p: Path, k: nat, next: Domain)
    requires Walk(i, edges, p) && k < |edges| && Joins(edges[k], p[|p| - 1], next) && Feasible(i, edges[k])
    requires next !in p
    ensures Walk(i, edges, p + [next])
  {
    var p' := p + [next];
    forall j | 0 <= j < |p'| - 1 ensures LinkAt(i, edges, p', j) {
      if j < |p| - 1 { assert LinkAt(i, edges, p, j); }
    }
  }
}
