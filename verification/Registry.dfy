/** The endpoint registry: slots with generations and a free list, against a
    map keyed by handles that are never issued twice. */
module Registry {
  import opened Basics

  datatype Handle = Handle(slot: U64, generation: U64)

  /** An endpoint record; registering it stamps the slot's generation on it. */
  class Record {
    var generation: U64
    constructor () { generation := 0; }
  }

  // ---- The reference ------------------------------------------------------

  /** The live handles with their records, and every handle ever issued. */
  datatype Directory<!R> = Directory(live: map<Handle, R>, issued: set<Handle>)

  predicate Allocates<R(==)>(d: Directory<R>, d': Directory<R>, rec: R, h: Handle) {
    h !in d.issued && d' == Directory(d.live[h := rec], d.issued + {h})
  }

  predicate Removes<R(==)>(d: Directory<R>, d': Directory<R>, h: Handle, ok: bool) {
    (ok <==> h in d.live) && d' == d.(live := d.live - {h})
  }

  datatype Event<R> = Allocate(rec: R, h: Handle) | Remove(h: Handle, ok: bool)

  predicate Step<R(==)>(d: Directory<R>, d': Directory<R>, e: Event<R>) {
    match e
    case Allocate(rec, h) => Allocates(d, d', rec, h)
    case Remove(h, ok) => Removes(d, d', h, ok)
  }

  predicate StepAt<R(==)>(ds: seq<Directory<R>>, es: seq<Event<R>>, i: nat)
    requires i < |es| < |ds|
  {
    Step(ds[i], ds[i + 1], es[i])
  }

  predicate Run<R(==)>(ds: seq<Directory<R>>, es: seq<Event<R>>) {
    && |ds| == |es| + 1
    && ds[0] == Directory(map[], {})
    && forall i :: 0 <= i < |es| ==> StepAt(ds, es, i)
  }

  /** Some event from `k` up to `i` removes the handle. */
  predicate RemovedIn<R(==)>(es: seq<Event<R>>, h: Handle, k: nat, i: nat)
    requires i <= |es|
  {
    exists j :: k <= j < i && es[j].Remove? && es[j].h == h
  }

  lemma {:induction false} IssuedGrow<R>(ds: seq<Directory<R>>, es: seq<Event<R>>, k: nat, i: nat)
    requires Run(ds, es) && k <= i <= |es|
    ensures ds[k].issued <= ds[i].issued
    ensures ds[i].live.Keys <= ds[i].issued
    decreases i
  {
    if i > 0 {
      assert StepAt(ds, es, i - 1);
      IssuedGrow(ds, es, if k == i then i - 1 else k, i - 1);
    }
  }

  /** The life of a handle over a whole run: before the event that issues it
      nothing resolves it; from then on it resolves to the record it was issued
      for, until the first remove of it, and never again. */
  lemma {:induction false} HandleLife<R>(ds: seq<Directory<R>>, es: seq<Event<R>>, k: nat, i: nat)
    requires Run(ds, es) && k < |es| && es[k].Allocate? && i <= |es|
    ensures i <= k ==> es[k].h !in ds[i].live
    ensures i > k ==> (es[k].h in ds[i].live <==> !RemovedIn(es, es[k].h, k, i))
    ensures i > k && es[k].h in ds[i].live ==> ds[i].live[es[k].h] == es[k].rec
    decreases i
  {
    var h := es[k].h;
    assert StepAt(ds, es, k);
    if i <= k {
      IssuedGrow(ds, es, i, k);
      IssuedGrow(ds, es, i, i);
    } else if i > k + 1 {
      HandleLife(ds, es, k, i - 1);
      assert StepAt(ds, es, i - 1);
      IssuedGrow(ds, es, k + 1, i - 1);
      assert RemovedIn(es, h, k, i) <==> RemovedIn(es, h, k, i - 1) || (es[i - 1].Remove? && es[i - 1].h == h);
    }
  }

  // ---- The object ---------------------------------------------------------

  datatype Slot<R> = Slot(gen: U64, used: bool, rec: Option<R>)

  /** The next generation; zero is skipped on wrap-around. */
  function NextGen(g: U64): (r: U64)
    ensures r != 0 && r != g && (r > g <==> g < TWO64 - 1)
  {
    if g == TWO64 - 1 then 1 else g + 1
  }

  /** The free list holds precisely the unused slots, each once. */
  predicate FreeListed<R>(slots: seq<Slot<R>>, free: seq<nat>) {
    && (forall i, j :: 0 <= i < j < |free| ==> free[i] != free[j])
    && (forall i :: 0 <= i < |free| ==> free[i] < |slots| && !slots[free[i]].used)
    && (forall i :: 0 <= i < |slots| && !slots[i].used ==> i in free)
  }

  /** The handle names a used slot in that slot's current generation. */
  predicate Current<R>(slots: seq<Slot<R>>, h: Handle) {
    0 < h.slot <= |slots| && slots[h.slot - 1].used && slots[h.slot - 1].gen == h.generation
  }

  ghost predicate LiveExact<R>(slots: seq<Slot<R>>, live: map<Handle, R>) {
    && (forall h :: h in live <==> Current(slots, h))
    && (forall h :: h in live ==> slots[h.slot - 1].rec == Some(live[h]))
  }

  /** No slot has handed out a generation beyond its own, nor its own unless
      it is in use. */
  ghost predicate History<R>(slots: seq<Slot<R>>, issued: set<Handle>) {
    forall h :: h in issued ==>
      && 0 < h.slot <= |slots|
      && h.generation <= slots[h.slot - 1].gen
      && (h.generation == slots[h.slot - 1].gen ==> slots[h.slot - 1].used)
  }

  lemma TakeFree<R>(slots: seq<Slot<R>>, free: seq<nat>, index: nat, s: Slot<R>)
    requires FreeListed(slots, free) && free != [] && index == free[|free| - 1] && s.used
    ensures FreeListed(slots[index := s], free[..|free| - 1])
  {
    var slots', free' := slots[index := s], free[..|free| - 1];
    forall i | 0 <= i < |slots'| && !slots'[i].used ensures i in free' {
      assert i in free && i != index;
    }
  }

  lemma PutFree<R>(slots: seq<Slot<R>>, free: seq<nat>, index: nat, s: Slot<R>)
    requires FreeListed(slots, free) && index < |slots| && slots[index].used && !s.used
    ensures FreeListed(slots[index := s], free + [index])
  {
    var slots', free' := slots[index := s], free + [index];
    assert free'[|free|] == index;
    forall i | 0 <= i < |slots'| && !slots'[i].used ensures i in free' {
      if i != index { assert i in free; }
    }
  }

  /** Reusing or adding slot `index` for `rec`. */
  lemma LiveAfterAllocate<R>(slots: seq<Slot<R>>, slots': seq<Slot<R>>, live: map<Handle, R>, index: nat, gen: U64,
                             rec: R)
    requires LiveExact(slots, live) && index + 1 < TWO64
    requires (index < |slots| && !slots[index].used && slots' == slots[index := Slot(gen, true, Some(rec))])
      || (index == |slots| && slots' == slots + [Slot(gen, true, Some(rec))])
    ensures Handle(index + 1, gen) !in live
    ensures LiveExact(slots', live[Handle(index + 1, gen) := rec])
  {
    var h0 := Handle(index + 1, gen);
    assert !Current(slots, h0);
    forall h: Handle
      ensures h in live[h0 := rec] <==> Current(slots', h)
    {
      assert h.slot != index + 1 ==> (Current(slots', h) <==> Current(slots, h));
    }
  }

  lemma LiveAfterRemove<R>(slots: seq<Slot<R>>, live: map<Handle, R>, h0: Handle, gen: U64)
    requires LiveExact(slots, live) && Current(slots, h0)
    ensures LiveExact(slots[h0.slot - 1 := Slot(gen, false, None)], live - {h0})
  {
    var slots' := slots[h0.slot - 1 := Slot(gen, false, None)];
    forall h: Handle | Current(slots', h) ensures h in live - {h0} {
      assert Current(slots, h);
    }
    forall h | h in live - {h0} ensures Current(slots', h) {
      assert Current(slots, h);
    }
  }

  /** A slot whose generation grows hands out a handle not issued before. */
  lemma HistoryAfterAllocate<R>(slots: seq<Slot<R>>, slots': seq<Slot<R>>, issued: set<Handle>, index: nat, s: Slot<R>)
    requires History(slots, issued) && index + 1 < TWO64 && s.used
    requires (index < |slots| && slots[index].gen < s.gen && slots' == slots[index := s])
      || (index == |slots| && slots' == slots + [s])
    ensures Handle(index + 1, s.gen) !in issued
    ensures History(slots', issued + {Handle(index + 1, s.gen)})
  {
  }

  /** What a registration in slot `index` keeps. */
  lemma Registered<R>(slots: seq<Slot<R>>, slots': seq<Slot<R>>, live: map<Handle, R>, issued: set<Handle>, wraps: nat,
                      index: nat, prior: U64, rec: R)
    requires LiveExact(slots, live) && (wraps == 0 ==> History(slots, issued)) && index + 1 < TWO64
    requires var s := Slot(NextGen(prior), true, Some(rec));
      || (index < |slots| && !slots[index].used && prior == slots[index].gen && slots' == slots[index := s])
      || (index == |slots| && prior == 0 && slots' == slots + [s])
    ensures var h := Handle(index + 1, NextGen(prior));
      && h !in live && LiveExact(slots', live[h := rec])
      && (wraps == 0 && prior < NextGen(prior) ==> h !in issued && History(slots', issued + {h}))
  {
    LiveAfterAllocate(slots, slots', live, index, NextGen(prior), rec);
    if wraps == 0 && prior < NextGen(prior) {
      HistoryAfterAllocate(slots, slots', issued, index, Slot(NextGen(prior), true, Some(rec)));
    }
  }

  lemma HistoryAfterRemove<R>(slots: seq<Slot<R>>, issued: set<Handle>, index: nat, s: Slot<R>)
    requires History(slots, issued) && index < |slots| && slots[index].gen < s.gen
    ensures History(slots[index := s], issued)
  {
  }

  /** What the removal of a current handle keeps. */
  lemma Unregistered<R>(slots: seq<Slot<R>>, free: seq<nat>, live: map<Handle, R>, issued: set<Handle>, wraps: nat,
                        h: Handle)
    requires FreeListed(slots, free) && LiveExact(slots, live) && (wraps == 0 ==> History(slots, issued))
    requires Current(slots, h)
    ensures var slots' := slots[h.slot - 1 := Slot(NextGen(h.generation), false, None)];
      && FreeListed(slots', free + [h.slot - 1]) && LiveExact(slots', live - {h})
      && (wraps == 0 && h.generation < NextGen(h.generation) ==> History(slots', issued))
  {
    var s: Slot<R> := Slot(NextGen(h.generation), false, None);
    PutFree(slots, free, h.slot - 1, s);
    LiveAfterRemove(slots, live, h, NextGen(h.generation));
    if wraps == 0 && h.generation < NextGen(h.generation) { HistoryAfterRemove(slots, issued, h.slot - 1, s); }
  }

  class EndpointRegistry {
    var slots: seq<Slot<Record>>
    var free: seq<nat>

    /** Handles that resolve, and those ever issued. */
    ghost var live: map<Handle, Record>
    ghost var issued: set<Handle>
    /** How often some generation has wrapped around. */
    ghost var wraps: nat

    ghost predicate Valid()
      reads this
    {
      && |slots| < TWO64
      && FreeListed(slots, free)
      && LiveExact(slots, live)
      && (wraps == 0 ==> History(slots, issued))
    }

    ghost function Abstract(): Directory<Record>
      reads this
    {
      Directory(live, issued)
    }

    constructor ()
      ensures Valid() && wraps == 0 && Abstract() == Directory(map[], {})
    {
      slots, free, live, issued, wraps := [], [], map[], {}, 0;
    }

    /** Which record a handle resolves to, for every handle there is. */
    method Get(h: Handle) returns (r: Option<Record>)
      requires Valid()
      ensures r == if h in live then Some(live[h]) else None
    {
      if h.slot == 0 || h.slot > |slots| {
        return None;
      }
      var s := slots[h.slot - 1];
      if !s.used || s.gen != h.generation {
        return None;
      }
      assert Current(slots, h);
      return s.rec;
    }

    /** Registers `rec`: a handle never issued before unless a generation has
        wrapped around. */
    method Allocate(rec: Record) returns (h: Handle)
      requires Valid() && (free == [] ==> |slots| + 1 < TWO64)
      modifies this, rec
      ensures Valid()
      ensures live == old(live)[h := rec] && h !in old(live) && issued == old(issued) + {h}
      ensures wraps == 0 ==> Allocates(old(Abstract()), Abstract(), rec, h)
      ensures wraps == old(wraps)
        || (0 < h.slot <= |old(slots)| && old(slots)[h.slot - 1].gen == TWO64 - 1 && wraps == old(wraps) + 1)
      ensures rec.generation == h.generation != 0
    {
      var index, prior := NextSlot();
      var gen := NextGen(prior);
      var s := Slot(gen, true, Some(rec));
      ghost var slots' := if index < |slots| then slots[index := s] else slots + [s];
      Registered(slots, slots', live, issued, wraps, index, prior, rec);
      Occupy(index, s);
      rec.generation := gen;
      h := Handle(index + 1, gen);
      live := live[h := rec];
      issued := issued + {h};
      wraps := wraps + (if gen < prior then 1 else 0);
    }

    method Occupy(index: nat, s: Slot<Record>)
      requires FreeListed(slots, free) && s.used
      requires if free == [] then index == |slots| else index == free[|free| - 1]
      modifies `slots, `free
      ensures FreeListed(slots, free)
      ensures slots == if old(free) != [] then old(slots)[index := s] else old(slots) + [s]
    {
      if free != [] {
        TakeFree(slots, free, index, s);
        free := free[..|free| - 1];
        slots := slots[index := s];
      } else {
        slots := slots + [s];
      }
    }

    /** The slot that the next registration uses, and its generation so far. */
    method NextSlot() returns (index: nat, gen: U64)
      requires Valid()
      ensures index <= |slots| && (index < |slots| <==> free != [])
      ensures index < |slots| ==> index == free[|free| - 1] && !slots[index].used && gen == slots[index].gen
      ensures index == |slots| ==> gen == 0
    {
      if free != [] {
        index := free[|free| - 1];
        gen := slots[index].gen;
      } else {
        index, gen := |slots|, 0;
      }
    }

    method Remove(h: Handle) returns (e: Option<Category>)
      requires Valid()
      modifies this
      ensures Valid()
      ensures Removes(old(Abstract()), Abstract(), h, e.None?)
      ensures e == Some(InvalidRequest) <==> h.slot == 0 || h.slot > |slots|
      ensures e.Some? ==> unchanged(this)
      ensures wraps == old(wraps) || (h.generation == TWO64 - 1 && wraps == old(wraps) + 1)
    {
      if h.slot == 0 || h.slot > |slots| {
        assert !Current(slots, h) && h !in live;
        return Some(InvalidRequest);
      }
      var s := slots[h.slot - 1];
      if !s.used || s.gen != h.generation {
        assert !Current(slots, h) && h !in live;
        return Some(StaleGeneration);
      }
      assert Current(slots, h) && h in live;
      Unregistered(slots, free, live, issued, wraps, h);
      slots := slots[h.slot - 1 := Slot(NextGen(s.gen), false, None)];
      free := free + [h.slot - 1];
      live := live - {h};
      wraps := wraps + (if NextGen(s.gen) < s.gen then 1 else 0);
      return None;
    }
  }
}
