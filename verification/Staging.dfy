/** The staging pool: buffers handed out, returned to a free list and reused by
    exact size, with the pool's byte accounting. */
module Staging {
  import opened Basics

  /** A staging buffer; data zero stands for the null pointer. */
  datatype Buffer = Buffer(data: nat, size: U64)

  const NULL := Buffer(0, 0)

  predicate Real(b: Buffer) { b.data != 0 && b.size != 0 }

  function Sum(bs: seq<Buffer>): nat {
    if bs == [] then 0 else Sum(bs[..|bs| - 1]) + bs[|bs| - 1].size
  }

  /** How many buffers of a list have pointer `p`. */
  function Uses(bs: seq<Buffer>, p: nat): nat {
    if bs == [] then 0 else Uses(bs[..|bs| - 1], p) + (if bs[|bs| - 1].data == p then 1 else 0)
  }

  function Without(bs: seq<Buffer>, i: nat): seq<Buffer>
    requires i < |bs|
  {
    bs[..i] + bs[i + 1..]
  }

  lemma Snoc(bs: seq<Buffer>, b: Buffer, p: nat)
    ensures Sum(bs + [b]) == Sum(bs) + b.size
    ensures Uses(bs + [b], p) == Uses(bs, p) + (if b.data == p then 1 else 0)
  {
    assert (bs + [b])[..|bs|] == bs;
  }

  lemma {:induction false} Append(a: seq<Buffer>, b: seq<Buffer>, p: nat)
    ensures Sum(a + b) == Sum(a) + Sum(b)
    ensures Uses(a + b, p) == Uses(a, p) + Uses(b, p)
  {
    if b == [] {
      assert a + b == a;
    } else {
      var b' := b[..|b| - 1];
      Append(a, b', p);
      assert a + b == (a + b') + [b[|b| - 1]];
      Snoc(a + b', b[|b| - 1], p);
    }
  }

  lemma Take(bs: seq<Buffer>, i: nat, p: nat)
    requires i < |bs|
    ensures Sum(bs) == Sum(Without(bs, i)) + bs[i].size
    ensures Uses(bs, p) == Uses(Without(bs, i), p) + (if bs[i].data == p then 1 else 0)
  {
    assert bs == (bs[..i] + [bs[i]]) + bs[i + 1..];
    Append(bs[..i] + [bs[i]], bs[i + 1..], p);
    Snoc(bs[..i], bs[i], p);
    Append(bs[..i], bs[i + 1..], p);
  }

  lemma TakeMultiset(bs: seq<Buffer>, i: nat)
    requires i < |bs|
    ensures multiset(bs) == multiset(Without(bs, i)) + multiset{bs[i]}
  {
    assert bs == (bs[..i] + [bs[i]]) + bs[i + 1..];
  }

  lemma {:induction false} UsesAt(bs: seq<Buffer>, i: nat)
    requires i < |bs|
    ensures Uses(bs, bs[i].data) > 0
  {
    if i < |bs| - 1 { UsesAt(bs[..|bs| - 1], i); }
  }

  // ---- The accounting -----------------------------------------------------

  /** The pool's fields, with the buffers its callers hold. */
  datatype View = View(
    capacity: U64,
    free: seq<Buffer>,
    held: seq<Buffer>,
    total: U64,
    inUse: U64,
    highWater: U64,
    reuses: nat,
    allocs: nat)

  predicate AllReal(bs: seq<Buffer>) { forall i :: 0 <= i < |bs| ==> Real(bs[i]) }

  /** No pointer occurs twice in the two lists together. */
  ghost predicate Distinct(a: seq<Buffer>, b: seq<Buffer>) { forall p: nat :: Uses(a, p) + Uses(b, p) <= 1 }

  /** The conservation law of the pool. */
  ghost predicate Balanced(v: View) {
    && v.inUse == Sum(v.held)
    && v.total == v.inUse + Sum(v.free) <= v.capacity
    && v.total <= v.highWater <= v.capacity
    && AllReal(v.held) && AllReal(v.free)
    && Distinct(v.held, v.free)
  }

  function Fresh(capacity: U64): View { View(capacity, [], [], 0, 0, 0, 0, 0) }

  /** Whether some free buffer has exactly this size. */
  predicate Reusable(v: View, bytes: U64) {
    exists i :: 0 <= i < |v.free| && v.free[i].size == bytes
  }

  /** `b` was the first free buffer of its size and is now held. */
  predicate Reuses(v: View, v': View, b: Buffer) {
    exists i :: 0 <= i < |v.free| && b == v.free[i]
      && (forall j :: 0 <= j < i ==> v.free[j].size != b.size)
      && v' == v.(free := Without(v.free, i), held := v.held + [b], inUse := Wrap(v.inUse + b.size),
                  reuses := v.reuses + 1)
  }

  function Max(a: U64, b: U64): U64 { if a < b then b else a }

  /** `b` is new memory. */
  predicate Grows(v: View, v': View, b: Buffer) {
    var sum := Wrap(v.total + b.size);
    v' == v.(held := v.held + [b], total := sum, inUse := Wrap(v.inUse + b.size),
             highWater := Max(v.highWater, sum), allocs := v.allocs + 1)
  }

  /** What one allocation may do. `willing` says that the system allocator
      grants every request that fits the address space. */
  predicate Allocates(v: View, v': View, bytes: U64, willing: bool, r: Option<Buffer>) {
    if bytes == 0 then r == Some(NULL) && v' == v
    else if Reusable(v, bytes) then r.Some? && r.value.size == bytes && Reuses(v, v', r.value)
    else if r.Some? then
      && v.total + bytes <= v.capacity
      && r.value.size == bytes && r.value.data != 0
      && Uses(v.held, r.value.data) == Uses(v.free, r.value.data) == 0
      && Grows(v, v', r.value)
    else v' == v && (willing ==> v.total + bytes > v.capacity)
  }

  function IndexOf(bs: seq<Buffer>, b: Buffer): (i: nat)
    ensures i <= |bs|
    ensures i < |bs| <==> b in bs
    ensures i < |bs| ==> bs[i] == b
  {
    if bs == [] then 0 else if bs[0] == b then 0 else IndexOf(bs[1..], b) + 1
  }

  /** The pool after `release(b)`, whoever calls it and with whatever buffer. */
  function Released(v: View, b: Buffer): View {
    if !Real(b) then v
    else
      var i := IndexOf(v.held, b);
      v.(inUse := Wrap(v.inUse - b.size), free := v.free + [b],
         held := if i < |v.held| then Without(v.held, i) else v.held)
  }

  function Drained(v: View): View { v.(free := [], total := 0, inUse := 0) }

  lemma ReusesKeeps(v: View, v': View, b: Buffer)
    requires Balanced(v) && Reuses(v, v', b)
    ensures Balanced(v') && Real(b) && v'.total == v.total && v'.inUse == v.inUse + b.size
    ensures multiset(v.free) == multiset(v'.free) + multiset{b}
  {
    var i :| 0 <= i < |v.free| && b == v.free[i]
      && (forall j :: 0 <= j < i ==> v.free[j].size != b.size)
      && v' == v.(free := Without(v.free, i), held := v.held + [b], inUse := Wrap(v.inUse + b.size),
                  reuses := v.reuses + 1);
    TakeMultiset(v.free, i);
    Take(v.free, i, 0);
    Snoc(v.held, b, 0);
    assert Wrap(v.inUse + b.size) == v.inUse + b.size;
    ReuseDistinct(v, b, i);
    StillReal(v.free, v.held, i);
  }

  lemma ReuseDistinct(v: View, b: Buffer, i: nat)
    requires i < |v.free| && v.free[i] == b && Distinct(v.held, v.free)
    ensures Distinct(v.held + [b], Without(v.free, i))
  {
    forall p: nat ensures Uses(v.held + [b], p) + Uses(Without(v.free, i), p) <= 1 {
      Take(v.free, i, p);
      Snoc(v.held, b, p);
    }
  }

  lemma GrowsKeeps(v: View, v': View, b: Buffer)
    requires Balanced(v) && Grows(v, v', b) && Real(b)
    requires v.total + b.size <= v.capacity && Uses(v.held, b.data) == Uses(v.free, b.data) == 0
    ensures Balanced(v') && v'.total == v.total + b.size && v'.inUse == v.inUse + b.size
  {
    forall p: nat ensures Uses(v'.held, p) == Uses(v.held, p) + (if b.data == p then 1 else 0) {
      Snoc(v.held, b, p);
    }
    Snoc(v.held, b, 0);
  }

  /** An allocation keeps the balance and hands out a buffer nobody holds. */
  lemma AllocatesKeeps(v: View, v': View, bytes: U64, willing: bool, r: Option<Buffer>)
    requires Balanced(v) && Allocates(v, v', bytes, willing, r)
    ensures Balanced(v') && v'.highWater >= v.highWater
    ensures r.Some? ==> v'.held == v.held + (if Real(r.value) then [r.value] else [])
    ensures r.Some? ==> r.value.size == bytes && (Real(r.value) <==> bytes != 0)
    ensures r.None? ==> v' == v
    ensures r.Some? ==> v'.inUse == v.inUse + bytes
  {
    if bytes != 0 && r.Some? {
      if Reusable(v, bytes) {
        ReusesKeeps(v, v', r.value);
      } else {
        GrowsKeeps(v, v', r.value);
      }
    }
  }

  /** Returning a buffer keeps the balance exactly when it is held (or is the
      null buffer, which is ignored). */
  lemma ReleaseKeepsIffHeld(v: View, b: Buffer)
    requires Balanced(v)
    ensures Balanced(Released(v, b)) <==> !Real(b) || b in v.held
    ensures Real(b) && b in v.held ==> Released(v, b).inUse == v.inUse - b.size
    ensures Real(b) && b in v.held ==> multiset(v.held) == multiset(Released(v, b).held) + multiset{b}
  {
    if Real(b) {
      if b in v.held {
        ReleaseHeld(v, b, IndexOf(v.held, b));
      } else {
        WrapMoves(v.inUse, b.size);
      }
    }
  }

  lemma ReleaseHeld(v: View, b: Buffer, i: nat)
    requires Balanced(v) && Real(b) && i < |v.held| && i == IndexOf(v.held, b)
    ensures Balanced(Released(v, b)) && Released(v, b).inUse == v.inUse - b.size
    ensures multiset(v.held) == multiset(Released(v, b).held) + multiset{b}
  {
    TakeMultiset(v.held, i);
    Take(v.held, i, 0);
    Snoc(v.free, b, 0);
    assert Wrap(v.inUse - b.size) == v.inUse - b.size;
    ReleaseDistinct(v, b, i);
    StillReal(v.held, v.free, i);
  }

  /** Moving a buffer from one list to the end of another. */
  lemma StillReal(from: seq<Buffer>, to: seq<Buffer>, i: nat)
    requires AllReal(from) && AllReal(to) && i < |from|
    ensures AllReal(Without(from, i)) && AllReal(to + [from[i]])
  {
  }

  lemma ReleaseDistinct(v: View, b: Buffer, i: nat)
    requires i < |v.held| && v.held[i] == b && Distinct(v.held, v.free)
    ensures Distinct(Without(v.held, i), v.free + [b])
  {
    forall p: nat ensures Uses(Without(v.held, i), p) + Uses(v.free + [b], p) <= 1 {
      Take(v.held, i, p);
      Snoc(v.free, b, p);
    }
  }

  /** Taking a nonzero amount from a 64-bit counter changes it. */
  lemma WrapMoves(x: U64, n: U64)
    requires n > 0
    ensures Wrap(x - n) != x
  {
    if x < n {
      assert Wrap(x - n) == Wrap(x - n + TWO64);
    }
  }

  /** Draining keeps the balance exactly when nothing is held. */
  lemma DrainKeepsIffIdle(v: View)
    requires Balanced(v)
    ensures Balanced(Drained(v)) <==> v.held == []
  {
    if v.held != [] {
      var n := |v.held| - 1;
      assert Sum(v.held) >= v.held[n].size > 0;
    }
  }

  // ---- Runs ---------------------------------------------------------------

  datatype Op = Allocate(bytes: U64, willing: bool, r: Option<Buffer>) | Release(b: Buffer) | Drain

  predicate Step(v: View, v': View, op: Op) {
    match op
    case Allocate(bytes, willing, r) => Allocates(v, v', bytes, willing, r)
    case Release(b) => v' == Released(v, b)
    case Drain => v' == Drained(v)
  }

  /** Exactly-once release, and drain only when idle. */
  predicate Disciplined(v: View, op: Op) {
    && (op.Release? && Real(op.b) ==> op.b in v.held)
    && (op.Drain? ==> v.held == [])
  }

  predicate StepAt(vs: seq<View>, ops: seq<Op>, i: nat)
    requires i < |ops| < |vs|
  {
    Step(vs[i], vs[i + 1], ops[i])
  }

  predicate Run(vs: seq<View>, ops: seq<Op>, capacity: U64) {
    && |vs| == |ops| + 1 && vs[0] == Fresh(capacity)
    && forall i :: 0 <= i < |ops| ==> StepAt(vs, ops, i)
  }

  predicate DisciplinedTo(vs: seq<View>, ops: seq<Op>, n: nat)
    requires n <= |ops| <= |vs|
  {
    forall i :: 0 <= i < n ==> Disciplined(vs[i], ops[i])
  }

  /** The whole-run law: a run from a fresh pool is balanced in every state up
      to `n` if and only if it was disciplined up to there. */
  lemma {:induction false} BalancedIffDisciplined(vs: seq<View>, ops: seq<Op>, capacity: U64, n: nat)
    requires Run(vs, ops, capacity) && n <= |ops|
    ensures (forall i :: 0 <= i <= n ==> Balanced(vs[i])) <==> DisciplinedTo(vs, ops, n)
  {
    if n == 0 {
      FreshBalanced(capacity);
    } else {
      BalancedIffDisciplined(vs, ops, capacity, n - 1);
      if DisciplinedTo(vs, ops, n - 1) {
        assert StepAt(vs, ops, n - 1);
        StepBalance(vs[n - 1], vs[n], ops[n - 1]);
      }
      assert (forall i :: 0 <= i <= n ==> Balanced(vs[i])) <==>
        (forall i :: 0 <= i <= n - 1 ==> Balanced(vs[i])) && Balanced(vs[n]);
    }
  }

  lemma FreshBalanced(capacity: U64)
    ensures Balanced(Fresh(capacity))
  {
  }

  lemma StepBalance(v: View, v': View, op: Op)
    requires Balanced(v) && Step(v, v', op)
    ensures Balanced(v') <==> Disciplined(v, op)
    ensures v'.highWater >= v.highWater
  {
    match op
    case Allocate(bytes, willing, r) => AllocatesKeeps(v, v', bytes, willing, r);
    case Release(b) => ReleaseKeepsIffHeld(v, b);
    case Drain => DrainKeepsIffIdle(v);
  }

  /** The high-water mark is at or above every allocated total so far and within
      capacity, in every run: not even a repeated release or a drain of a busy
      pool changes that. */
  lemma {:induction false} HighWaterCovers(vs: seq<View>, ops: seq<Op>, capacity: U64, i: nat, n: nat)
    requires Run(vs, ops, capacity) && i <= n <= |ops|
    ensures vs[i].total <= vs[n].highWater <= capacity
    ensures vs[n].total <= vs[n].highWater && vs[n].capacity == capacity
    decreases n
  {
    if n > 0 {
      assert StepAt(vs, ops, n - 1);
      HighWaterCovers(vs, ops, capacity, if i == n then n - 1 else i, n - 1);
      HighWaterStep(vs[n - 1], vs[n], ops[n - 1]);
    }
  }

  lemma HighWaterStep(v: View, v': View, op: Op)
    requires Step(v, v', op) && v.total <= v.highWater <= v.capacity
    ensures v'.total <= v'.highWater && v.highWater <= v'.highWater <= v'.capacity == v.capacity
  {
  }

  // ---- The object ---------------------------------------------------------

  function Highest(bs: seq<Buffer>): nat {
    if bs == [] then 0 else
      var m := Highest(bs[..|bs| - 1]);
      if m < bs[|bs| - 1].data then bs[|bs| - 1].data else m
  }

  lemma {:induction false} AboveHighest(bs: seq<Buffer>, p: nat)
    requires p > Highest(bs)
    ensures Uses(bs, p) == 0
  {
    if bs != [] { AboveHighest(bs[..|bs| - 1], p); }
  }

  class StagingPool {
    const capacity: U64
    var freeList: seq<Buffer>
    var allocatedBytes: U64
    var inUse: U64
    var highWater: U64
    var reuseCount: nat
    var totalAllocs: nat
    /** The buffers that callers hold; known to the model, not to the pool. */
    var held: seq<Buffer>

    function Fields(): View
      reads this
    {
      View(capacity, freeList, held, allocatedBytes, inUse, highWater, reuseCount, totalAllocs)
    }

    constructor (capacityBytes: U64)
      ensures Fields() == Fresh(capacityBytes) && Balanced(Fields())
    {
      capacity := capacityBytes;
      freeList, held, allocatedBytes, inUse, highWater, reuseCount, totalAllocs := [], [], 0, 0, 0, 0, 0;
      new;
      FreshBalanced(capacityBytes);
    }

    /** The system allocator: fails with the null pointer, or returns memory
        that overlaps no live block of the address space. */
    method DoAllocate(bytes: U64, willing: bool) returns (p: nat)
      ensures p != 0 ==> Uses(held, p) == Uses(freeList, p) == 0 && allocatedBytes + bytes < TWO64
      ensures willing && allocatedBytes + bytes < TWO64 ==> p != 0
    {
      var succeeds: bool := *;
      if (succeeds || willing) && allocatedBytes + bytes < TWO64 {
        ghost var top := Highest(held) + Highest(freeList) + 1;
        AboveHighest(held, top);
        AboveHighest(freeList, top);
        p :| p != 0 && Uses(held, p) == 0 && Uses(freeList, p) == 0;
      } else {
        p := 0;
      }
    }

    method Allocate(bytes: U64, willing: bool) returns (r: Option<Buffer>)
      modifies this
      ensures Allocates(old(Fields()), Fields(), bytes, willing, r)
      ensures old(Balanced(Fields())) ==> Balanced(Fields())
    {
      if bytes == 0 {
        return Some(NULL);
      }
      for i := 0 to |freeList|
        invariant forall j :: 0 <= j < i ==> freeList[j].size != bytes
        invariant unchanged(this)
      {
        if freeList[i].size == bytes {
          r := Some(freeList[i]);
          Reuse(i);
          return;
        }
      }
      if Wrap(allocatedBytes + bytes) > capacity {
        return None;
      }
      var p := DoAllocate(bytes, willing);
      if p == 0 {
        return None;
      }
      r := Some(Buffer(p, bytes));
      Grow(Buffer(p, bytes));
    }

    /** Hands out the free buffer at `i`. */
    method Reuse(i: nat)
      requires i < |freeList|
      requires forall j :: 0 <= j < i ==> freeList[j].size != freeList[i].size
      modifies this
      ensures Reuses(old(Fields()), Fields(), old(freeList[i]))
      ensures old(Balanced(Fields())) ==> Balanced(Fields())
    {
      var b := freeList[i];
      held := held + [b];
      freeList := Without(freeList, i);
      inUse := Wrap(inUse + b.size);
      reuseCount := reuseCount + 1;
      if old(Balanced(Fields())) { ReusesKeeps(old(Fields()), Fields(), b); }
    }

    /** Hands out new memory. */
    method Grow(b: Buffer)
      requires Real(b) && Wrap(allocatedBytes + b.size) <= capacity
      requires Uses(held, b.data) == Uses(freeList, b.data) == 0 && allocatedBytes + b.size < TWO64
      modifies this
      ensures Grows(old(Fields()), Fields(), b)
      ensures old(Balanced(Fields())) ==> Balanced(Fields())
      ensures old(allocatedBytes) + b.size <= capacity
    {
      allocatedBytes := Wrap(allocatedBytes + b.size);
      if allocatedBytes > highWater { highWater := allocatedBytes; }
      totalAllocs := totalAllocs + 1;
      inUse := Wrap(inUse + b.size);
      held := held + [b];
      if old(Balanced(Fields())) { GrowsKeeps(old(Fields()), Fields(), b); }
    }

    method Release(b: Buffer)
      modifies this
      ensures Fields() == Released(old(Fields()), b)
      ensures old(Balanced(Fields())) ==> (Balanced(Fields()) <==> !Real(b) || b in old(held))
    {
      ghost var v := Fields();
      if old(Balanced(Fields())) { ReleaseKeepsIffHeld(v, b); }
      if b.data == 0 || b.size == 0 {
        return;
      }
      inUse := Wrap(inUse - b.size);
      freeList := freeList + [b];
      var i := IndexOf(held, b);
      if i < |held| { held := Without(held, i); }
    }

    /** Frees the free list: `freed` are the pointers given back, in order. */
    method Drain() returns (freed: seq<nat>)
      modifies this
      ensures |freed| == |old(freeList)| && forall i :: 0 <= i < |freed| ==> freed[i] == old(freeList)[i].data
      ensures Fields() == Drained(old(Fields()))
      ensures old(Balanced(Fields())) ==> (Balanced(Fields()) <==> old(held) == [])
    {
      freed := [];
      for i := 0 to |freeList|
        invariant |freed| == i && forall j :: 0 <= j < i ==> freed[j] == freeList[j].data
        invariant unchanged(this)
      {
        freed := freed + [freeList[i].data];
      }
      if old(Balanced(Fields())) { DrainKeepsIffIdle(Fields()); }
      freeList, allocatedBytes, inUse := [], 0, 0;
    }
  }
}
