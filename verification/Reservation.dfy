/** Reserving the staging rings of a route from the two pools, all or nothing,
    and returning them. */
module Reservation {
  import opened Arith
  import opened Basics
  import opened Domains
  import opened Staging

  /** Buffers of one size: memory, or null buffers when the size is zero. */
  predicate Uniform(ring: seq<Buffer>, chunk: U64) {
    forall i :: 0 <= i < |ring| ==> ring[i].size == chunk && (Real(ring[i]) <==> chunk != 0)
  }

  /** What a ring holds of its pool. */
  function Owned(ring: seq<Buffer>, chunk: U64): seq<Buffer> { if chunk == 0 then [] else ring }

  /** All of the pool's buffers, held or free. */
  function Stock(v: View): multiset<Buffer> { multiset(v.held) + multiset(v.free) }

  // ---- One ring -----------------------------------------------------------

  /** `ring` was taken from `v0`, which is now `v`. */
  ghost predicate Acquired(v0: View, v: View, ring: seq<Buffer>, chunk: U64, willing: bool) {
    && Balanced(v) && Uniform(ring, chunk) && v.capacity == v0.capacity
    && v.held == v0.held + Owned(ring, chunk)
    && Stock(v0) <= Stock(v)
    && (willing && v0.free == [] ==> v.free == [] && v.total == v0.total + Sum(ring))
  }

  lemma AllocateStock(v: View, v': View, bytes: U64, willing: bool, r: Option<Buffer>)
    requires Balanced(v) && Allocates(v, v', bytes, willing, r)
    ensures Stock(v) <= Stock(v')
    ensures v'.capacity == v.capacity
  {
    if bytes != 0 && r.Some? && Reusable(v, bytes) {
      ReusesKeeps(v, v', r.value);
    }
  }

  /** With no free buffer to reuse, a willing allocation succeeds exactly when
      the capacity allows it. */
  lemma AllocateFresh(v: View, v': View, bytes: U64, r: Option<Buffer>)
    requires Balanced(v) && Allocates(v, v', bytes, true, r) && v.free == []
    ensures v'.free == []
    ensures r.Some? <==> bytes == 0 || v.total + bytes <= v.capacity
    ensures r.Some? ==> v'.total == v.total + bytes
  {
    if bytes != 0 && r.Some? { GrowsKeeps(v, v', r.value); }
  }

  /** What an allocation from `v` means for a ring under construction. */
  lemma AllocateFacts(v: View, v': View, chunk: U64, willing: bool, r: Option<Buffer>)
    requires Balanced(v) && Allocates(v, v', chunk, willing, r)
    ensures Balanced(v') && v'.capacity == v.capacity && Stock(v) <= Stock(v')
    ensures r.Some? ==> r.value.size == chunk && (Real(r.value) <==> chunk != 0)
    ensures r.Some? ==> v'.held == v.held + (if Real(r.value) then [r.value] else [])
    ensures r.None? ==> v' == v
    ensures willing && v.free == [] ==> v'.free == [] && (r.Some? ==> v'.total == v.total + chunk)
    ensures willing && v.free == [] && r.None? ==> chunk > 0 && v.total + chunk > v.capacity
  {
    AllocatesKeeps(v, v', chunk, willing, r);
    AllocateStock(v, v', chunk, willing, r);
    if willing && v.free == [] { AllocateFresh(v, v', chunk, r); }
  }

  lemma AcquireOne(v0: View, v: View, v': View, ring: seq<Buffer>, chunk: U64, willing: bool, b: Buffer)
    requires Acquired(v0, v, ring, chunk, willing)
    requires Balanced(v') && v'.capacity == v.capacity && Stock(v) <= Stock(v')
    requires b.size == chunk && (Real(b) <==> chunk != 0) && v'.held == v.held + (if Real(b) then [b] else [])
    requires willing && v0.free == [] ==> v'.free == [] && v'.total == v.total + chunk
    ensures Acquired(v0, v', ring + [b], chunk, willing)
  {
    Snoc(ring, b, 0);
    UniformSnoc(ring, b, chunk);
    HeldSnoc(v0.held, ring, b, chunk);
    StockTransitive(Stock(v0), Stock(v), Stock(v'));
  }

  lemma UniformSnoc(ring: seq<Buffer>, b: Buffer, chunk: U64)
    requires Uniform(ring, chunk) && b.size == chunk && (Real(b) <==> chunk != 0)
    ensures Uniform(ring + [b], chunk)
  {
  }

  lemma {:induction false} UniformSum(ring: seq<Buffer>, chunk: U64)
    requires Uniform(ring, chunk)
    ensures Sum(ring) == |ring| * chunk
  {
    if ring != [] {
      UniformSum(ring[..|ring| - 1], chunk);
      MulSucc(|ring| - 1, chunk);
    }
  }

  lemma StockTransitive(a: multiset<Buffer>, b: multiset<Buffer>, c: multiset<Buffer>)
    requires a <= b <= c
    ensures a <= c
  {
  }

  lemma HeldSnoc(held: seq<Buffer>, ring: seq<Buffer>, b: Buffer, chunk: U64)
    requires Real(b) <==> chunk != 0
    ensures (held + Owned(ring, chunk)) + (if Real(b) then [b] else []) == held + Owned(ring + [b], chunk)
  {
  }

  /** Takes up to `depth` buffers; stops at the first refusal. */
  method AcquireRing(pool: StagingPool, chunk: U64, depth: nat, willing: bool) returns (ring: seq<Buffer>, ok: bool)
    requires Balanced(pool.Fields())
    modifies pool
    ensures Acquired(old(pool.Fields()), pool.Fields(), ring, chunk, willing)
    ensures if ok then |ring| == depth else |ring| < depth
    ensures !ok && willing && old(pool.freeList) == [] ==> pool.allocatedBytes + chunk > pool.capacity
  {
    ring, ok := [], true;
    NothingAcquired(pool.Fields(), chunk, willing);
    for k := 0 to depth
      invariant ok && |ring| == k && Acquired(old(pool.Fields()), pool.Fields(), ring, chunk, willing)
    {
      ring, ok := AcquireNext(pool, ring, chunk, willing, old(pool.Fields()));
      if !ok {
        return;
      }
    }
  }

  lemma NothingAcquired(v: View, chunk: U64, willing: bool)
    requires Balanced(v)
    ensures Acquired(v, v, [], chunk, willing)
  {
    assert v.held + [] == v.held;
  }

  method AcquireNext(pool: StagingPool, ring: seq<Buffer>, chunk: U64, willing: bool, ghost v0: View)
    returns (ring': seq<Buffer>, ok: bool)
    requires Acquired(v0, pool.Fields(), ring, chunk, willing)
    modifies pool
    ensures Acquired(v0, pool.Fields(), ring', chunk, willing)
    ensures |ring'| == if ok then |ring| + 1 else |ring|
    ensures !ok && willing && v0.free == [] ==> pool.allocatedBytes + chunk > pool.capacity
  {
    ghost var v := pool.Fields();
    var b := pool.Allocate(chunk, willing);
    AllocateFacts(v, pool.Fields(), chunk, willing, b);
    if b.None? {
      return ring, false;
    }
    AcquireOne(v0, v, pool.Fields(), ring, chunk, willing, b.value);
    return ring + [b.value], true;
  }

  /** `ring` went back from `v0`, which is now `v`. */
  ghost predicate Returned(v0: View, v: View, ring: seq<Buffer>) {
    && Balanced(v) && v.capacity == v0.capacity
    && multiset(v0.held) == multiset(v.held) + multiset(ring)
    && v.free == v0.free + ring
  }

  lemma ReturnOne(v0: View, v: View, ring: seq<Buffer>, k: nat)
    requires k < |ring| && Real(ring[k]) && multiset(ring) <= multiset(v0.held)
    requires Returned(v0, v, ring[..k])
    ensures Returned(v0, Released(v, ring[k]), ring[..k + 1])
  {
    var b := ring[k];
    PrefixWithin(ring, k);
    StillThere(multiset(v0.held), multiset(v.held), multiset(ring[..k]), multiset(ring), b);
    ReleaseKeepsIffHeld(v, b);
    assert multiset(v0.held) == multiset(Released(v, b).held) + (multiset(ring[..k]) + multiset{b});
  }

  lemma PrefixWithin(ring: seq<Buffer>, k: nat)
    requires k < |ring|
    ensures ring[..k + 1] == ring[..k] + [ring[k]]
    ensures multiset(ring[..k + 1]) == multiset(ring[..k]) + multiset{ring[k]} <= multiset(ring)
  {
    assert ring[..k + 1] == ring[..k] + [ring[k]];
    assert ring == ring[..k + 1] + ring[k + 1..];
  }

  lemma StillThere(before: multiset<Buffer>, now: multiset<Buffer>, gone: multiset<Buffer>, all: multiset<Buffer>,
                   b: Buffer)
    requires before == now + gone && gone + multiset{b} <= all <= before
    ensures b in now
  {
    assert (gone + multiset{b})[b] <= all[b] <= before[b];
  }

  lemma ReturnNext(v0: View, v: View, ring: seq<Buffer>, chunk: U64, k: nat)
    requires k < |ring| && Uniform(ring, chunk) && multiset(Owned(ring, chunk)) <= multiset(v0.held)
    requires Returned(v0, v, Owned(ring[..k], chunk))
    ensures Returned(v0, Released(v, ring[k]), Owned(ring[..k + 1], chunk))
  {
    if chunk != 0 { ReturnOne(v0, v, ring, k); }
  }

  /** Returns every buffer of a ring to its pool. */
  method GiveBack(pool: StagingPool, ring: seq<Buffer>, ghost chunk: U64)
    requires Balanced(pool.Fields()) && Uniform(ring, chunk)
    requires multiset(Owned(ring, chunk)) <= multiset(pool.held)
    modifies pool
    ensures Returned(old(pool.Fields()), pool.Fields(), Owned(ring, chunk))
  {
    ReturnedNothing(pool.Fields());
    for k := 0 to |ring|
      invariant Returned(old(pool.Fields()), pool.Fields(), Owned(ring[..k], chunk))
    {
      ReturnNext(old(pool.Fields()), pool.Fields(), ring, chunk, k);
      pool.Release(ring[k]);
    }
    assert ring[..|ring|] == ring;
  }

  // ---- All rings of a route -----------------------------------------------

  /** The pool of an intermediate node. */
  predicate UsesPinned(d: Domain) { d == HostPinned }

  /** What the rings of the nodes from `lo` up to `hi` hold of one pool. */
  function Taken(nodes: seq<Domain>, rings: seq<seq<Buffer>>, chunk: U64, pinned: bool, lo: nat, hi: nat): seq<Buffer>
    requires lo <= hi <= |nodes| == |rings|
    decreases hi
  {
    if lo == hi then [] else
      Taken(nodes, rings, chunk, pinned, lo, hi - 1) + Share(nodes, rings, chunk, pinned, hi - 1)
  }

  function Share(nodes: seq<Domain>, rings: seq<seq<Buffer>>, chunk: U64, pinned: bool, j: nat): seq<Buffer>
    requires j < |nodes| == |rings|
  {
    if UsesPinned(nodes[j]) == pinned then Owned(rings[j], chunk) else []
  }

  lemma {:induction false} TakenSame(nodes: seq<Domain>, rings: seq<seq<Buffer>>, rings': seq<seq<Buffer>>, chunk: U64,
                                     pinned: bool, lo: nat, hi: nat)
    requires lo <= hi <= |nodes| == |rings| == |rings'| && rings'[..hi] == rings[..hi]
    ensures Taken(nodes, rings', chunk, pinned, lo, hi) == Taken(nodes, rings, chunk, pinned, lo, hi)
    decreases hi
  {
    if lo < hi {
      assert rings'[..hi][hi - 1] == rings[..hi][hi - 1];
      assert rings'[..hi - 1] == rings'[..hi][..hi - 1] && rings[..hi - 1] == rings[..hi][..hi - 1];
      TakenSame(nodes, rings, rings', chunk, pinned, lo, hi - 1);
    }
  }

  lemma {:induction false} TakenFront(nodes: seq<Domain>, rings: seq<seq<Buffer>>, chunk: U64, pinned: bool, lo: nat,
                                      hi: nat)
    requires lo < hi <= |nodes| == |rings|
    ensures Taken(nodes, rings, chunk, pinned, lo, hi)
      == Share(nodes, rings, chunk, pinned, lo) + Taken(nodes, rings, chunk, pinned, lo + 1, hi)
    decreases hi
  {
    if lo + 1 < hi {
      TakenFront(nodes, rings, chunk, pinned, lo, hi - 1);
      Associate(Share(nodes, rings, chunk, pinned, lo), Taken(nodes, rings, chunk, pinned, lo + 1, hi - 1),
                Share(nodes, rings, chunk, pinned, hi - 1));
    } else {
      assert Taken(nodes, rings, chunk, pinned, lo, lo) == [];
      assert Taken(nodes, rings, chunk, pinned, hi, hi) == [];
    }
  }

  /** The rings of the nodes before `j` are in place and the others empty. */
  predicate Filled(nodes: seq<Domain>, rings: seq<seq<Buffer>>, chunk: U64, depth: nat, j: nat) {
    && |rings| == |nodes|
    && (forall i :: 0 <= i < |rings| ==> Uniform(rings[i], chunk))
    && (forall i :: 0 <= i < |rings| ==> |rings[i]| == if 1 <= i < j then depth else 0)
  }

  /** A pool that was `v0` after the rings of the nodes before `j`. */
  ghost predicate Reserved(v0: View, v: View, nodes: seq<Domain>, rings: seq<seq<Buffer>>, chunk: U64, pinned: bool,
                           willing: bool, j: nat)
    requires 1 <= j <= |nodes| == |rings|
  {
    && Balanced(v) && v.capacity == v0.capacity
    && v.held == v0.held + Taken(nodes, rings, chunk, pinned, 1, j)
    && Stock(v0) <= Stock(v)
    && (willing && v0.free == [] ==>
          v.free == [] && v.total == v0.total + Sum(Taken(nodes, rings, chunk, pinned, 1, j)))
  }

  /** The pool that served node `j`. */
  lemma ReservedBy(v0: View, v: View, v': View, nodes: seq<Domain>, rings: seq<seq<Buffer>>, ring: seq<Buffer>,
                   chunk: U64, pinned: bool, willing: bool, j: nat)
    requires 1 <= j < |nodes| == |rings| && UsesPinned(nodes[j]) == pinned
    requires Reserved(v0, v, nodes, rings, chunk, pinned, willing, j) && Acquired(v, v', ring, chunk, willing)
    ensures Reserved(v0, v', nodes, rings[j := ring], chunk, pinned, willing, j + 1)
  {
    var rings' := rings[j := ring];
    var t := Taken(nodes, rings, chunk, pinned, 1, j);
    TakenSame(nodes, rings, rings', chunk, pinned, 1, j);
    assert Taken(nodes, rings', chunk, pinned, 1, j + 1) == t + Owned(ring, chunk);
    Associate(v0.held, t, Owned(ring, chunk));
    StockTransitive(Stock(v0), Stock(v), Stock(v'));
    Append(t, Owned(ring, chunk), 0);
    OwnedSum(ring, chunk);
  }

  lemma OwnedSum(ring: seq<Buffer>, chunk: U64)
    requires Uniform(ring, chunk)
    ensures Sum(Owned(ring, chunk)) == Sum(ring) == |ring| * chunk
  {
    UniformSum(ring, chunk);
  }

  /** The other pool. */
  lemma ReservedBeside(v0: View, v: View, nodes: seq<Domain>, rings: seq<seq<Buffer>>, ring: seq<Buffer>, chunk: U64,
                       pinned: bool, willing: bool, j: nat)
    requires 1 <= j < |nodes| == |rings| && UsesPinned(nodes[j]) != pinned
    requires Reserved(v0, v, nodes, rings, chunk, pinned, willing, j)
    ensures Reserved(v0, v, nodes, rings[j := ring], chunk, pinned, willing, j + 1)
  {
    var rings' := rings[j := ring];
    TakenSame(nodes, rings, rings', chunk, pinned, 1, j);
    assert Taken(nodes, rings', chunk, pinned, 1, j + 1) == Taken(nodes, rings, chunk, pinned, 1, j);
  }

  /** Part of the way through a rollback: the rings from `m` on are still held. */
  ghost predicate RollingBack(v0: View, v: View, nodes: seq<Domain>, rings: seq<seq<Buffer>>, chunk: U64, pinned: bool,
                              m: nat, j: nat)
    requires m <= j <= |nodes| == |rings|
  {
    && Balanced(v) && Stock(v0) <= Stock(v)
    && multiset(v.held) == multiset(v0.held) + multiset(Taken(nodes, rings, chunk, pinned, m, j))
  }

  lemma ReturnedKeepsStock(v0: View, v: View, ring: seq<Buffer>)
    requires Returned(v0, v, ring)
    ensures Stock(v) == Stock(v0)
  {
    assert multiset(v0.free + ring) == multiset(v0.free) + multiset(ring);
  }

  /** Returning the ring of node `m`. */
  lemma RollBackOne(v0: View, v: View, v': View, nodes: seq<Domain>, rings: seq<seq<Buffer>>, chunk: U64, pinned: bool,
                    m: nat, j: nat)
    requires m < j <= |nodes| == |rings| && UsesPinned(nodes[m]) == pinned
    requires RollingBack(v0, v, nodes, rings, chunk, pinned, m, j) && Returned(v, v', Owned(rings[m], chunk))
    ensures RollingBack(v0, v', nodes, rings, chunk, pinned, m + 1, j)
  {
    TakenFront(nodes, rings, chunk, pinned, m, j);
    ReturnedKeepsStock(v, v', Owned(rings[m], chunk));
    CancelPart(multiset(v0.held), multiset(v.held), multiset(v'.held), multiset(Owned(rings[m], chunk)),
               multiset(Taken(nodes, rings, chunk, pinned, m + 1, j)));
  }

  lemma CancelPart(base: multiset<Buffer>, now: multiset<Buffer>, then': multiset<Buffer>, part: multiset<Buffer>,
                   rest: multiset<Buffer>)
    requires now == base + (part + rest) && now == then' + part
    ensures then' == base + rest
  {
    forall b: Buffer ensures then'[b] == (base + rest)[b] {
      assert now[b] == base[b] + part[b] + rest[b] && now[b] == then'[b] + part[b];
    }
  }

  /** The pool that did not serve node `m`. */
  lemma RollBackBeside(v0: View, v: View, nodes: seq<Domain>, rings: seq<seq<Buffer>>, chunk: U64, pinned: bool, m: nat,
                       j: nat)
    requires m < j <= |nodes| == |rings| && UsesPinned(nodes[m]) != pinned
    requires RollingBack(v0, v, nodes, rings, chunk, pinned, m, j)
    ensures RollingBack(v0, v, nodes, rings, chunk, pinned, m + 1, j)
  {
    TakenFront(nodes, rings, chunk, pinned, m, j);
    assert Taken(nodes, rings, chunk, pinned, m, j) == Taken(nodes, rings, chunk, pinned, m + 1, j);
  }

  lemma RollBackHolds(v0: View, v: View, nodes: seq<Domain>, rings: seq<seq<Buffer>>, chunk: U64, pinned: bool, m: nat,
                      j: nat)
    requires m < j <= |nodes| == |rings| && UsesPinned(nodes[m]) == pinned
    requires RollingBack(v0, v, nodes, rings, chunk, pinned, m, j)
    ensures multiset(Owned(rings[m], chunk)) <= multiset(v.held)
  {
    TakenFront(nodes, rings, chunk, pinned, m, j);
  }

  method RollBackNode(pool: StagingPool, nodes: seq<Domain>, rings: seq<seq<Buffer>>, ghost chunk: U64,
                      ghost pinned: bool, m: nat, ghost j: nat, ghost v0: View)
    requires m < j <= |nodes| == |rings| && UsesPinned(nodes[m]) == pinned && Uniform(rings[m], chunk)
    requires RollingBack(v0, pool.Fields(), nodes, rings, chunk, pinned, m, j)
    modifies pool
    ensures RollingBack(v0, pool.Fields(), nodes, rings, chunk, pinned, m + 1, j)
  {
    ghost var v := pool.Fields();
    RollBackHolds(v0, v, nodes, rings, chunk, pinned, m, j);
    GiveBack(pool, rings[m], chunk);
    RollBackOne(v0, v, pool.Fields(), nodes, rings, chunk, pinned, m, j);
  }

  /** Returns the rings of the nodes before `j`. */
  method RollBack(nodes: seq<Domain>, rings: seq<seq<Buffer>>, ghost chunk: U64, j: nat, host: StagingPool,
                  pinned: StagingPool, ghost h0: View, ghost p0: View)
    requires host != pinned && 1 <= j <= |nodes| == |rings|
    requires forall i :: 0 <= i < |rings| ==> Uniform(rings[i], chunk)
    requires RollingBack(h0, host.Fields(), nodes, rings, chunk, false, 1, j)
    requires RollingBack(p0, pinned.Fields(), nodes, rings, chunk, true, 1, j)
    requires Balanced(h0) && Balanced(p0)
    modifies host, pinned
    ensures Restored(h0, host.Fields()) && Restored(p0, pinned.Fields())
  {
    for m := 1 to j
      invariant RollingBack(h0, host.Fields(), nodes, rings, chunk, false, m, j)
      invariant RollingBack(p0, pinned.Fields(), nodes, rings, chunk, true, m, j)
    {
      if UsesPinned(nodes[m]) {
        RollBackNode(pinned, nodes, rings, chunk, true, m, j, p0);
        RollBackBeside(h0, host.Fields(), nodes, rings, chunk, false, m, j);
      } else {
        RollBackNode(host, nodes, rings, chunk, false, m, j, h0);
        RollBackBeside(p0, pinned.Fields(), nodes, rings, chunk, true, m, j);
      }
    }
    RollBackRestores(h0, host.Fields(), nodes, rings, chunk, false, j);
    RollBackRestores(p0, pinned.Fields(), nodes, rings, chunk, true, j);
  }

  // ---- How much a route needs ---------------------------------------------

  /** The intermediate nodes before `j` that one pool serves. */
  function Nodes(nodes: seq<Domain>, pinned: bool, j: nat): nat
    requires j <= |nodes|
  {
    if j <= 1 then 0 else Nodes(nodes, pinned, j - 1) + (if UsesPinned(nodes[j - 1]) == pinned then 1 else 0)
  }

  function RingBytes(depth: nat, chunk: U64): nat {
    MulMonotone(0, depth, chunk);
    depth * chunk
  }

  function Need(nodes: seq<Domain>, pinned: bool, ringBytes: nat): nat {
    if |nodes| < 2 then 0 else Nodes(nodes, pinned, |nodes| - 1) * ringBytes
  }

  lemma {:induction false} TakenSum(nodes: seq<Domain>, rings: seq<seq<Buffer>>, chunk: U64, pinned: bool, depth: nat,
                                    j: nat, n: nat)
    requires 1 <= j <= n <= |nodes| && Filled(nodes, rings, chunk, depth, n)
    ensures Sum(Taken(nodes, rings, chunk, pinned, 1, j)) == Nodes(nodes, pinned, j) * (RingBytes(depth, chunk))
    decreases j
  {
    if j > 1 {
      TakenSum(nodes, rings, chunk, pinned, depth, j - 1, n);
      Append(Taken(nodes, rings, chunk, pinned, 1, j - 1), Share(nodes, rings, chunk, pinned, j - 1), 0);
      OwnedSum(rings[j - 1], chunk);
      MulSucc(Nodes(nodes, pinned, j - 1), RingBytes(depth, chunk));
    }
  }

  lemma {:induction false} NodesGrow(nodes: seq<Domain>, pinned: bool, j: nat, n: nat)
    requires j <= n <= |nodes|
    ensures Nodes(nodes, pinned, j) <= Nodes(nodes, pinned, n)
    decreases n
  {
    if j < n { NodesGrow(nodes, pinned, j, n - 1); }
  }

  /** Failing at node `j` of the pool means that the route does not fit. */
  lemma NeedExceeds(nodes: seq<Domain>, rings: seq<seq<Buffer>>, chunk: U64, pinned: bool, depth: nat, j: nat,
                    capacity: U64)
    requires 1 <= j && j + 1 < |nodes| && Filled(nodes, rings, chunk, depth, j) && UsesPinned(nodes[j]) == pinned
    requires Sum(Taken(nodes, rings, chunk, pinned, 1, j)) + RingBytes(depth, chunk) > capacity
    ensures Need(nodes, pinned, RingBytes(depth, chunk)) > capacity
  {
    TakenSum(nodes, rings, chunk, pinned, depth, j, j);
    NodesGrow(nodes, pinned, j + 1, |nodes| - 1);
    MulSucc(Nodes(nodes, pinned, j), RingBytes(depth, chunk));
    MulMonotone(Nodes(nodes, pinned, j + 1), Nodes(nodes, pinned, |nodes| - 1), RingBytes(depth, chunk));
  }

  // ---- The reservation ----------------------------------------------------

  /** The pool that was `v0` is back where it was, up to the order of buffers
      and to memory that is now free. */
  ghost predicate Restored(v0: View, v: View) {
    && Balanced(v)
    && multiset(v.held) == multiset(v0.held) && v.inUse == v0.inUse
    && multiset(v0.free) <= multiset(v.free)
  }

  lemma {:induction false} SumPermutation(a: seq<Buffer>, b: seq<Buffer>)
    requires multiset(a) == multiset(b)
    ensures Sum(a) == Sum(b)
  {
    if a == [] {
      assert |b| == |multiset(b)| == |multiset(a)| == 0;
    } else {
      var n := |a| - 1;
      assert a[n] in multiset(b);
      var i := IndexOf(b, a[n]);
      assert a == a[..n] + [a[n]];
      TakeMultiset(b, i);
      Take(b, i, 0);
      CancelPart(multiset(a[..n]), multiset(b), multiset(Without(b, i)), multiset{a[n]}, multiset{});
      SumPermutation(a[..n], Without(b, i));
    }
  }

  lemma RollBackRestores(v0: View, v: View, nodes: seq<Domain>, rings: seq<seq<Buffer>>, chunk: U64, pinned: bool,
                         j: nat)
    requires j <= |nodes| == |rings| && Balanced(v0)
    requires RollingBack(v0, v, nodes, rings, chunk, pinned, j, j)
    ensures Restored(v0, v)
  {
    assert Taken(nodes, rings, chunk, pinned, j, j) == [];
    assert multiset(v.held) == multiset(v0.held);
    SumPermutation(v.held, v0.held);
    forall b: Buffer ensures multiset(v0.free)[b] <= multiset(v.free)[b] {
      assert Stock(v0)[b] <= Stock(v)[b];
    }
  }

  /** A failed node gives its part of a ring back. */
  lemma PartReturned(v0: View, v: View, v1: View, v2: View, nodes: seq<Domain>, rings: seq<seq<Buffer>>,
                     ring: seq<Buffer>, chunk: U64, pinned: bool, willing: bool, j: nat)
    requires 1 <= j <= |nodes| == |rings|
    requires Reserved(v0, v, nodes, rings, chunk, pinned, willing, j) && Acquired(v, v1, ring, chunk, willing)
    requires Returned(v1, v2, Owned(ring, chunk))
    ensures RollingBack(v0, v2, nodes, rings, chunk, pinned, 1, j)
  {
    ReturnedKeepsStock(v1, v2, Owned(ring, chunk));
    StockTransitive(Stock(v0), Stock(v), Stock(v1));
    assert multiset(v1.held) == multiset(v.held) + multiset(Owned(ring, chunk));
    CancelPart(multiset(v.held), multiset(v1.held), multiset(v2.held), multiset(Owned(ring, chunk)), multiset{});
    assert multiset(v2.held) == multiset(v.held);
  }

  lemma ReservedRollsBack(v0: View, v: View, nodes: seq<Domain>, rings: seq<seq<Buffer>>, chunk: U64, pinned: bool,
                          willing: bool, j: nat)
    requires 1 <= j <= |nodes| == |rings| && Reserved(v0, v, nodes, rings, chunk, pinned, willing, j)
    ensures RollingBack(v0, v, nodes, rings, chunk, pinned, 1, j)
  {
  }

  /** What a part of a ring that is refused its next buffer says about the
      room for a whole one. */
  lemma PartExceeds(ring: seq<Buffer>, chunk: U64, depth: nat, before: nat, total: nat, capacity: nat)
    requires Uniform(ring, chunk) && |ring| < depth
    requires total == before + Sum(ring) && total + chunk > capacity
    ensures before + RingBytes(depth, chunk) > capacity
  {
    UniformSum(ring, chunk);
    MulSucc(|ring|, chunk);
    MulMonotone(|ring| + 1, depth, chunk);
  }

  /** What the pool that was `v0` would hold with a whole ring for node `j`. */
  ghost function WithRing(v0: View, nodes: seq<Domain>, rings: seq<seq<Buffer>>, chunk: U64, pinned: bool,
                          depth: nat, j: nat): int
    requires 1 <= j <= |nodes| == |rings|
  {
    v0.total + Sum(Taken(nodes, rings, chunk, pinned, 1, j)) + RingBytes(depth, chunk)
  }

  lemma NodeExceeds(v0: View, v: View, v1: View, nodes: seq<Domain>, rings: seq<seq<Buffer>>, ring: seq<Buffer>,
                    chunk: U64, pinned: bool, depth: nat, j: nat)
    requires 1 <= j <= |nodes| == |rings| && v0.free == []
    requires Reserved(v0, v, nodes, rings, chunk, pinned, true, j) && Acquired(v, v1, ring, chunk, true)
    requires |ring| < depth && v1.total + chunk > v1.capacity
    ensures WithRing(v0, nodes, rings, chunk, pinned, depth, j) > v0.capacity
  {
    PartExceeds(ring, chunk, depth, v.total, v1.total, v0.capacity);
  }

  /** One node of the route: its whole ring, or nothing. */
  method ReserveNode(pool: StagingPool, nodes: seq<Domain>, rings: seq<seq<Buffer>>, chunk: U64, pinned: bool,
                     depth: nat, willing: bool, j: nat, ghost v0: View)
    returns (ring: seq<Buffer>, ok: bool)
    requires 1 <= j && j + 1 < |nodes| == |rings| && UsesPinned(nodes[j]) == pinned
    requires Reserved(v0, pool.Fields(), nodes, rings, chunk, pinned, willing, j)
    modifies pool
    ensures ok ==> |ring| == depth && Uniform(ring, chunk)
    ensures ok ==> Reserved(v0, pool.Fields(), nodes, rings[j := ring], chunk, pinned, willing, j + 1)
    ensures !ok ==> RollingBack(v0, pool.Fields(), nodes, rings, chunk, pinned, 1, j)
    ensures !ok && willing && v0.free == [] ==> WithRing(v0, nodes, rings, chunk, pinned, depth, j) > v0.capacity
  {
    ghost var v := pool.Fields();
    ring, ok := AcquireRing(pool, chunk, depth, willing);
    ghost var v1 := pool.Fields();
    if ok {
      ReservedBy(v0, v, v1, nodes, rings, ring, chunk, pinned, willing, j);
    } else {
      if willing && v0.free == [] { NodeExceeds(v0, v, v1, nodes, rings, ring, chunk, pinned, depth, j); }
      GiveBack(pool, ring, chunk);
      PartReturned(v0, v, v1, pool.Fields(), nodes, rings, ring, chunk, pinned, willing, j);
    }
  }

  function Depth(pipelineDepth: nat): nat { if pipelineDepth > 0 then pipelineDepth else 2 }

  /** Both pools have room for all rings of the route. */
  predicate Fits(nodes: seq<Domain>, depth: nat, chunk: U64, hostCapacity: nat, pinnedCapacity: nat) {
    && Need(nodes, false, RingBytes(depth, chunk)) <= hostCapacity
    && Need(nodes, true, RingBytes(depth, chunk)) <= pinnedCapacity
  }

  /** Both pools, once `h0` and `p0`, after the rings of the nodes before `j`. */
  ghost predicate BothReserved(h0: View, p0: View, h: View, p: View, nodes: seq<Domain>, rings: seq<seq<Buffer>>,
                               chunk: U64, depth: nat, willing: bool, j: nat) {
    && 1 <= j <= |nodes| && Filled(nodes, rings, chunk, depth, j)
    && Reserved(h0, h, nodes, rings, chunk, false, willing, j)
    && Reserved(p0, p, nodes, rings, chunk, true, willing, j)
  }

  /** If the pools were empty and the allocator willing, they are too small. */
  ghost predicate NoRoom(h0: View, p0: View, nodes: seq<Domain>, chunk: U64, depth: nat, willing: bool) {
    willing && Empty(h0) && Empty(p0) ==> !Fits(nodes, depth, chunk, h0.capacity, p0.capacity)
  }

  /** A failed reservation leaves no trace, and its failure has a reason. */
  ghost predicate Undone(h0: View, p0: View, h: View, p: View, nodes: seq<Domain>, chunk: U64, depth: nat,
                         willing: bool) {
    Restored(h0, h) && Restored(p0, p) && NoRoom(h0, p0, nodes, chunk, depth, willing)
  }

  method EmptyRings(nodes: seq<Domain>, ghost chunk: U64, ghost depth: nat) returns (rings: seq<seq<Buffer>>)
    ensures Filled(nodes, rings, chunk, depth, 1)
  {
    rings := seq(|nodes|, i => []);
  }

  method ReserveRings(nodes: seq<Domain>, chunk: U64, depth: nat, host: StagingPool, pinned: StagingPool, willing: bool)
    returns (rings: seq<seq<Buffer>>, ok: bool)
    requires |nodes| >= 2 && host != pinned && Balanced(host.Fields()) && Balanced(pinned.Fields())
    modifies host, pinned
    ensures ok ==> BothReserved(old(host.Fields()), old(pinned.Fields()), host.Fields(), pinned.Fields(),
                                nodes, rings, chunk, depth, willing, |nodes| - 1)
    ensures !ok ==> rings == [] && Undone(old(host.Fields()), old(pinned.Fields()), host.Fields(), pinned.Fields(),
                                          nodes, chunk, depth, willing)
  {
    ghost var h0, p0 := host.Fields(), pinned.Fields();
    ok := true;
    rings := EmptyRings(nodes, chunk, depth);
    StartReserved(h0, nodes, rings, chunk, false, willing);
    StartReserved(p0, nodes, rings, chunk, true, willing);
    var j := 1;
    while j + 1 < |nodes|
      invariant ok && j < |nodes|
      invariant BothReserved(h0, p0, host.Fields(), pinned.Fields(), nodes, rings, chunk, depth, willing, j)
    {
      rings, ok := ReserveNext(nodes, rings, chunk, depth, host, pinned, willing, j, h0, p0);
      if !ok {
        return;
      }
      j := j + 1;
    }
  }

  /** Extends the reservation by node `j`, or undoes all of it. */
  method ReserveNext(nodes: seq<Domain>, rings: seq<seq<Buffer>>, chunk: U64, depth: nat, host: StagingPool,
                     pinned: StagingPool, willing: bool, j: nat, ghost h0: View, ghost p0: View)
    returns (rings': seq<seq<Buffer>>, ok: bool)
    requires host != pinned && Balanced(h0) && Balanced(p0) && j + 1 < |nodes|
    requires BothReserved(h0, p0, host.Fields(), pinned.Fields(), nodes, rings, chunk, depth, willing, j)
    modifies host, pinned
    ensures ok ==> BothReserved(h0, p0, host.Fields(), pinned.Fields(), nodes, rings', chunk, depth, willing, j + 1)
    ensures !ok ==> rings' == [] && Undone(h0, p0, host.Fields(), pinned.Fields(), nodes, chunk, depth, willing)
  {
    var ring;
    ring, ok := ReserveAt(nodes, rings, chunk, depth, host, pinned, willing, j, h0, p0);
    if ok {
      rings' := rings[j := ring];
    } else {
      RollBack(nodes, rings, chunk, j, host, pinned, h0, p0);
      rings' := [];
    }
  }

  lemma StartReserved(v: View, nodes: seq<Domain>, rings: seq<seq<Buffer>>, chunk: U64, pinned: bool, willing: bool)
    requires Balanced(v) && 1 <= |nodes| == |rings|
    ensures Reserved(v, v, nodes, rings, chunk, pinned, willing, 1)
  {
    assert Taken(nodes, rings, chunk, pinned, 1, 1) == [];
  }

  predicate Empty(v: View) { v.held + v.free == [] }

  lemma EmptyTotal(v: View)
    requires Balanced(v) && Empty(v)
    ensures v.held == [] && v.free == [] && v.total == 0
  {
    assert |v.held| == 0 && |v.free| == 0;
  }

  lemma ReservedFits(v0: View, v: View, nodes: seq<Domain>, rings: seq<seq<Buffer>>, chunk: U64, pinned: bool,
                     depth: nat, willing: bool)
    requires |nodes| >= 2 && Filled(nodes, rings, chunk, depth, |nodes| - 1) && Balanced(v0)
    requires Reserved(v0, v, nodes, rings, chunk, pinned, willing, |nodes| - 1)
    ensures willing && Empty(v0) ==> Need(nodes, pinned, RingBytes(depth, chunk)) <= v.capacity
  {
    if willing && Empty(v0) {
      EmptyTotal(v0);
      TakenSum(nodes, rings, chunk, pinned, depth, |nodes| - 1, |nodes| - 1);
    }
  }

  lemma FilledStep(nodes: seq<Domain>, rings: seq<seq<Buffer>>, ring: seq<Buffer>, chunk: U64, depth: nat, j: nat)
    requires 1 <= j < |nodes| && Filled(nodes, rings, chunk, depth, j) && |ring| == depth && Uniform(ring, chunk)
    ensures Filled(nodes, rings[j := ring], chunk, depth, j + 1)
  {
    var rings' := rings[j := ring];
    forall i | 0 <= i < |rings'| ensures |rings'[i]| == if 1 <= i < j + 1 then depth else 0 {
      assert i != j ==> rings'[i] == rings[i];
    }
  }

  /** A pool that cannot serve node `j` is too small for the route. */
  lemma RefusedNoRoom(h0: View, p0: View, nodes: seq<Domain>, rings: seq<seq<Buffer>>, chunk: U64, pinned: bool,
                      depth: nat, willing: bool, j: nat)
    requires Balanced(h0) && Balanced(p0) && 1 <= j && j + 1 < |nodes| && Filled(nodes, rings, chunk, depth, j)
    requires UsesPinned(nodes[j]) == pinned
    requires var v0 := if pinned then p0 else h0;
      willing && v0.free == [] ==> WithRing(v0, nodes, rings, chunk, pinned, depth, j) > v0.capacity
    ensures NoRoom(h0, p0, nodes, chunk, depth, willing)
  {
    if willing && Empty(h0) && Empty(p0) {
      var v0 := if pinned then p0 else h0;
      EmptyTotal(v0);
      NeedExceeds(nodes, rings, chunk, pinned, depth, j, v0.capacity);
    }
  }

  /** Node `j` from whichever pool serves it. */
  method ReserveAt(nodes: seq<Domain>, rings: seq<seq<Buffer>>, chunk: U64, depth: nat, host: StagingPool,
                   pinned: StagingPool, willing: bool, j: nat, ghost h0: View, ghost p0: View)
    returns (ring: seq<Buffer>, ok: bool)
    requires host != pinned && Balanced(h0) && Balanced(p0) && j + 1 < |nodes|
    requires BothReserved(h0, p0, host.Fields(), pinned.Fields(), nodes, rings, chunk, depth, willing, j)
    modifies host, pinned
    ensures ok ==>
      BothReserved(h0, p0, host.Fields(), pinned.Fields(), nodes, rings[j := ring], chunk, depth, willing, j + 1)
    ensures !ok ==> RollingBack(h0, host.Fields(), nodes, rings, chunk, false, 1, j)
    ensures !ok ==> RollingBack(p0, pinned.Fields(), nodes, rings, chunk, true, 1, j)
    ensures !ok ==> NoRoom(h0, p0, nodes, chunk, depth, willing)
  {
    if UsesPinned(nodes[j]) {
      ring, ok := ReserveNode(pinned, nodes, rings, chunk, true, depth, willing, j, p0);
      if ok {
        FilledStep(nodes, rings, ring, chunk, depth, j);
        ReservedBeside(h0, host.Fields(), nodes, rings, ring, chunk, false, willing, j);
      } else {
        ReservedRollsBack(h0, host.Fields(), nodes, rings, chunk, false, willing, j);
        RefusedNoRoom(h0, p0, nodes, rings, chunk, true, depth, willing, j);
      }
    } else {
      ring, ok := ReserveNode(host, nodes, rings, chunk, false, depth, willing, j, h0);
      if ok {
        FilledStep(nodes, rings, ring, chunk, depth, j);
        ReservedBeside(p0, pinned.Fields(), nodes, rings, ring, chunk, true, willing, j);
      } else {
        ReservedRollsBack(p0, pinned.Fields(), nodes, rings, chunk, true, willing, j);
        RefusedNoRoom(h0, p0, nodes, rings, chunk, false, depth, willing, j);
      }
    }
  }

  /** A reservation that succeeds with a willing allocator fits empty pools. */
  lemma BothFit(h0: View, p0: View, h: View, p: View, nodes: seq<Domain>, rings: seq<seq<Buffer>>, chunk: U64,
                depth: nat, willing: bool)
    requires Balanced(h0) && Balanced(p0) && |nodes| >= 2
    requires BothReserved(h0, p0, h, p, nodes, rings, chunk, depth, willing, |nodes| - 1)
    ensures willing && Empty(h0) && Empty(p0) ==> Fits(nodes, depth, chunk, h.capacity, p.capacity)
  {
    ReservedFits(h0, h, nodes, rings, chunk, false, depth, willing);
    ReservedFits(p0, p, nodes, rings, chunk, true, depth, willing);
  }

  /** Reserves a ring for every intermediate node of a route, or nothing. From
      fresh pools and with a willing allocator it succeeds exactly when both
      pools have room for all their rings. */
  method ReserveStaging(nodes: seq<Domain>, chunk: U64, pipelineDepth: nat, host: StagingPool, pinned: StagingPool,
                        willing: bool)
    returns (rings: seq<seq<Buffer>>, ok: bool)
    requires host != pinned && Balanced(host.Fields()) && Balanced(pinned.Fields())
    modifies host, pinned
    ensures Balanced(host.Fields()) && Balanced(pinned.Fields())
    ensures |nodes| < 2 ==> ok && rings == [] && unchanged(host) && unchanged(pinned)
    ensures |nodes| >= 2 && ok ==>
      && Filled(nodes, rings, chunk, Depth(pipelineDepth), |nodes| - 1)
      && host.held == old(host.held) + Taken(nodes, rings, chunk, false, 1, |nodes| - 1)
      && pinned.held == old(pinned.held) + Taken(nodes, rings, chunk, true, 1, |nodes| - 1)
    ensures !ok ==>
      rings == [] && Restored(old(host.Fields()), host.Fields()) && Restored(old(pinned.Fields()), pinned.Fields())
    ensures willing && Empty(old(host.Fields())) && Empty(old(pinned.Fields())) ==>
      (ok <==> Fits(nodes, Depth(pipelineDepth), chunk, host.capacity, pinned.capacity))
  {
    if |nodes| < 2 {
      return [], true;
    }
    rings, ok := ReserveRings(nodes, chunk, Depth(pipelineDepth), host, pinned, willing);
    if ok {
      BothFit(old(host.Fields()), old(pinned.Fields()), host.Fields(), pinned.Fields(), nodes, rings, chunk,
              Depth(pipelineDepth), willing);
    }
  }

  // ---- Returning a reservation --------------------------------------------

  /** The pool after releasing each buffer of a list in turn. */
  function ReleasedAll(v: View, bs: seq<Buffer>): View {
    if bs == [] then v else Released(ReleasedAll(v, bs[..|bs| - 1]), bs[|bs| - 1])
  }

  lemma ReleasedSnoc(v: View, bs: seq<Buffer>, b: Buffer)
    ensures ReleasedAll(v, bs + [b]) == Released(ReleasedAll(v, bs), b)
  {
    assert (bs + [b])[..|bs|] == bs;
  }

  lemma {:induction false} ReleasedAppend(v: View, a: seq<Buffer>, b: seq<Buffer>)
    ensures ReleasedAll(v, a + b) == ReleasedAll(ReleasedAll(v, a), b)
  {
    if b == [] {
      assert a + b == a;
    } else {
      var b' := b[..|b| - 1];
      ReleasedAppend(v, a, b');
      assert a + b == (a + b') + [b[|b| - 1]];
      ReleasedSnoc(v, a + b', b[|b| - 1]);
    }
  }

  lemma {:induction false} ReleasedFree(v: View, bs: seq<Buffer>)
    requires AllReal(bs)
    ensures ReleasedAll(v, bs).free == v.free + bs
  {
    if bs != [] {
      ReleasedFree(v, bs[..|bs| - 1]);
      Associate(v.free, bs[..|bs| - 1], [bs[|bs| - 1]]);
      assert bs == bs[..|bs| - 1] + [bs[|bs| - 1]];
    } else {
      assert v.free + bs == v.free;
    }
  }

  lemma {:induction false} ReleasedReturns(v: View, bs: seq<Buffer>, k: nat)
    requires Balanced(v) && AllReal(bs) && multiset(bs) <= multiset(v.held) && k <= |bs|
    ensures Returned(v, ReleasedAll(v, bs[..k]), bs[..k])
  {
    if k == 0 {
      assert bs[..0] == [];
      ReturnedNothing(v);
    } else {
      ReleasedReturns(v, bs, k - 1);
      ReleasedReturnsNext(v, bs, k - 1, ReleasedAll(v, bs[..k - 1]));
    }
  }

  lemma ReturnedNothing(v: View)
    requires Balanced(v)
    ensures Returned(v, v, [])
  {
    assert v.free + [] == v.free;
  }

  lemma ReleasedReturnsNext(v: View, bs: seq<Buffer>, k: nat, w: View)
    requires AllReal(bs) && multiset(bs) <= multiset(v.held) && k < |bs|
    requires w == ReleasedAll(v, bs[..k]) && Returned(v, w, bs[..k])
    ensures Returned(v, ReleasedAll(v, bs[..k + 1]), bs[..k + 1])
  {
    ReturnOne(v, w, bs, k);
    PrefixWithin(bs, k);
    ReleasedSnoc(v, bs[..k], bs[k]);
  }

  /** Held buffers released once keep the balance. The executor and `finalize`
      each release a transfer's staging buffers: the second release keeps the
      balance exactly when the transfer has none. */
  lemma SecondReleaseKeepsIffNone(v: View, bs: seq<Buffer>)
    requires Balanced(v) && AllReal(bs) && multiset(bs) <= multiset(v.held)
    ensures Balanced(ReleasedAll(v, bs))
    ensures Balanced(ReleasedAll(ReleasedAll(v, bs), bs)) <==> bs == []
  {
    assert bs[..|bs|] == bs;
    ReleasedReturns(v, bs, |bs|);
    if bs != [] {
      var v2 := ReleasedAll(ReleasedAll(v, bs), bs);
      ReleasedFree(v, bs);
      ReleasedFree(ReleasedAll(v, bs), bs);
      Append(v.free + bs, bs, bs[0].data);
      Append(v.free, bs, bs[0].data);
      UsesAt(bs, 0);
      assert Uses(v2.free, bs[0].data) >= 2;
    }
  }

  lemma ReleasedTwice(v: View, b: Buffer)
    requires v.held == [b] && v.free == [] && Real(b)
    ensures ReleasedAll(v, [b, b]).free == [b, b] && ReleasedAll(v, [b, b]).held == []
  {
    var w := Released(v, b);
    assert w.held == [] && w.free == [b];
    assert Released(w, b).held == [];
    ReleasedSnoc(v, [], b);
    ReleasedSnoc(v, [b], b);
    assert [] + [b] == [b] && [b] + [b] == [b, b];
  }

  /** A request for the size of the first free buffer gets that buffer. */
  lemma ReuseFirst(v: View, b: Buffer, rest: seq<Buffer>) returns (v': View)
    requires v.free == [b] + rest && b.size != 0
    ensures Allocates(v, v', b.size, true, Some(b)) && v'.free == rest && v'.held == v.held + [b]
  {
    v' := v.(free := Without(v.free, 0), held := v.held + [b], inUse := Wrap(v.inUse + b.size), reuses := v.reuses + 1);
    assert v.free[0].size == b.size && Reusable(v, b.size);
    assert Reuses(v, v', b);
  }

  /** After a double release two later requests get the same memory. */
  lemma DoubleReleaseSharesMemory(v: View, b: Buffer) returns (v1: View, v2: View)
    requires Balanced(v) && v.held == [b] && v.free == []
    ensures Allocates(ReleasedAll(v, [b, b]), v1, b.size, true, Some(b))
    ensures Allocates(v1, v2, b.size, true, Some(b))
    ensures v2.held == [b, b]
  {
    ReleasedTwice(v, b);
    assert [b, b] == [b] + [b];
    v1 := ReuseFirst(ReleasedAll(v, [b, b]), b, [b]);
    v2 := ReuseFirst(v1, b, []);
  }

  /** Releases one ring of any buffers, whether held or not. */
  method ReleaseRing(pool: StagingPool, ring: seq<Buffer>)
    modifies pool
    ensures pool.Fields() == ReleasedAll(old(pool.Fields()), ring)
  {
    for k := 0 to |ring|
      invariant pool.Fields() == ReleasedAll(old(pool.Fields()), ring[..k])
    {
      assert ring[..k + 1] == ring[..k] + [ring[k]];
      ReleasedSnoc(old(pool.Fields()), ring[..k], ring[k]);
      pool.Release(ring[k]);
    }
    assert ring[..|ring|] == ring;
  }

  lemma {:induction false} NullRing(v: View, ring: seq<Buffer>, chunk: U64)
    requires Uniform(ring, chunk)
    ensures ReleasedAll(v, ring) == ReleasedAll(v, Owned(ring, chunk))
  {
    if chunk == 0 && ring != [] {
      NullRing(v, ring[..|ring| - 1], chunk);
    }
  }

  lemma ReleaseShare(v: View, nodes: seq<Domain>, rings: seq<seq<Buffer>>, chunk: U64, pinned: bool, j: nat)
    requires 1 <= j < |nodes| == |rings| && Uniform(rings[j], chunk)
    ensures var w := ReleasedAll(v, Taken(nodes, rings, chunk, pinned, 1, j));
      ReleasedAll(v, Taken(nodes, rings, chunk, pinned, 1, j + 1))
        == if UsesPinned(nodes[j]) == pinned then ReleasedAll(w, rings[j]) else w
  {
    var t := Taken(nodes, rings, chunk, pinned, 1, j);
    NullRing(ReleasedAll(v, t), rings[j], chunk);
    ReleasedAppend(v, t, Share(nodes, rings, chunk, pinned, j));
  }

  /** A pool after the release of a transfer's rings before node `j`. */
  function ReleasedTo(v: View, nodes: seq<Domain>, rings: seq<seq<Buffer>>, chunk: U64, pinned: bool, j: nat): View
    requires 1 <= j <= |nodes| == |rings|
  {
    ReleasedAll(v, Taken(nodes, rings, chunk, pinned, 1, j))
  }

  method ReleaseNode(nodes: seq<Domain>, rings: seq<seq<Buffer>>, ghost chunk: U64, j: nat, host: StagingPool,
                     pinned: StagingPool, ghost h0: View, ghost p0: View)
    requires host != pinned && 1 <= j < |nodes| == |rings| && Uniform(rings[j], chunk)
    requires host.Fields() == ReleasedTo(h0, nodes, rings, chunk, false, j)
    requires pinned.Fields() == ReleasedTo(p0, nodes, rings, chunk, true, j)
    modifies host, pinned
    ensures host.Fields() == ReleasedTo(h0, nodes, rings, chunk, false, j + 1)
    ensures pinned.Fields() == ReleasedTo(p0, nodes, rings, chunk, true, j + 1)
  {
    ReleaseShare(h0, nodes, rings, chunk, false, j);
    ReleaseShare(p0, nodes, rings, chunk, true, j);
    if UsesPinned(nodes[j]) {
      ReleaseRing(pinned, rings[j]);
    } else {
      ReleaseRing(host, rings[j]);
    }
  }

  /** Releases a transfer's rings, each to the pool of its node. */
  method ReleaseStaging(nodes: seq<Domain>, rings: seq<seq<Buffer>>, ghost chunk: U64, host: StagingPool,
                        pinned: StagingPool)
    requires host != pinned && |nodes| == |rings| >= 2
    requires forall i :: 0 <= i < |rings| ==> Uniform(rings[i], chunk)
    modifies host, pinned
    ensures host.Fields() == ReleasedTo(old(host.Fields()), nodes, rings, chunk, false, |nodes| - 1)
    ensures pinned.Fields() == ReleasedTo(old(pinned.Fields()), nodes, rings, chunk, true, |nodes| - 1)
  {
    var j := 1;
    while j + 1 < |nodes|
      invariant 1 <= j < |nodes|
      invariant host.Fields() == ReleasedTo(old(host.Fields()), nodes, rings, chunk, false, j)
      invariant pinned.Fields() == ReleasedTo(old(pinned.Fields()), nodes, rings, chunk, true, j)
    {
      ReleaseNode(nodes, rings, chunk, j, host, pinned, old(host.Fields()), old(pinned.Fields()));
      j := j + 1;
    }
  }

  lemma RealSum(bs: seq<Buffer>)
    requires AllReal(bs)
    ensures Sum(bs) == 0 <==> bs == []
  {
    if bs != [] {
      assert bs[|bs| - 1].size > 0;
    }
  }

  lemma ProductZero(n: nat, depth: nat, chunk: U64)
    requires depth > 0
    ensures n * RingBytes(depth, chunk) == 0 <==> n == 0 || chunk == 0
  {
    if n > 0 && chunk > 0 {
      MulAtLeast(chunk, depth);
      MulAtLeast(RingBytes(depth, chunk), n);
    }
  }

  /** A transfer that holds its rings: releasing them once keeps each pool
      balanced, releasing them again keeps it exactly when the route has no
      intermediate node in that pool or the chunk size is zero. */
  lemma ReleaseOnceOrTwice(v: View, others: seq<Buffer>, nodes: seq<Domain>, rings: seq<seq<Buffer>>, chunk: U64,
                           depth: nat, pinned: bool)
    requires |nodes| >= 2 && depth > 0 && Filled(nodes, rings, chunk, depth, |nodes| - 1)
    requires Balanced(v) && v.held == others + Taken(nodes, rings, chunk, pinned, 1, |nodes| - 1)
    ensures var once := ReleasedTo(v, nodes, rings, chunk, pinned, |nodes| - 1);
      && Balanced(once)
      && (Balanced(ReleasedTo(once, nodes, rings, chunk, pinned, |nodes| - 1))
          <==> chunk == 0 || Nodes(nodes, pinned, |nodes| - 1) == 0)
  {
    var t := Taken(nodes, rings, chunk, pinned, 1, |nodes| - 1);
    assert AllReal(t) by { forall i | 0 <= i < |t| ensures Real(t[i]) { assert t[i] == v.held[|others| + i]; } }
    TakenSum(nodes, rings, chunk, pinned, depth, |nodes| - 1, |nodes| - 1);
    RealSum(t);
    ProductZero(Nodes(nodes, pinned, |nodes| - 1), depth, chunk);
    assert multiset(v.held) == multiset(others) + multiset(t);
    SecondReleaseKeepsIffNone(v, t);
  }
}
