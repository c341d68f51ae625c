/** SHA-256: the incremental object against section 6.2 of FIPS 180-4. The
    standard's side is the message schedule and the rounds as recurrences, the
    padding of section 5.1.1, and a fold over 64-byte blocks. The object's side
    is a 64-byte buffer, in-place loops and padding fed through its own
    `update`. Buffering, scheduling and padding do not depend on the 32-bit
    arithmetic, which is a parameter until the standard's instance is made. */
module Sha256 {
  import opened Basics
  import opened LittleEndian
  import opened Sha256Words

  // ---- The standard, over any word arithmetic -----------------------------

  /** The operations and constants of sections 4.1.2 and 4.2.2. */
  datatype Ops<!W> = Ops(
    add: (W, W) -> W,
    ch: (W, W, W) -> W,
    maj: (W, W, W) -> W,
    bigSigma0: W -> W,
    bigSigma1: W -> W,
    smallSigma0: W -> W,
    smallSigma1: W -> W,
    k: nat -> W,
    load: (Byte, Byte, Byte, Byte) -> W,
    store: W -> (Byte, Byte, Byte, Byte))

  datatype Hash<W> = Hash(a: W, b: W, c: W, d: W, e: W, f: W, g: W, h: W)

  /** The t-th big-endian word of a block. */
  function BlockWord<W>(o: Ops<W>, block: Bytes, t: nat): W
    requires |block| == 64 && t < 16
  {
    o.load(block[4 * t], block[4 * t + 1], block[4 * t + 2], block[4 * t + 3])
  }

  /** Step 1 of section 6.2.2: the first `n` words of the message schedule. The
      standard lists the four terms of a sum from last to first; addition modulo
      2^32 does not depend on their order. */
  function Schedule<W>(o: Ops<W>, block: Bytes, n: nat): (w: seq<W>)
    requires |block| == 64
    ensures |w| == n
    decreases n, block
  {
    if n == 0 then [] else
      var w := Schedule(o, block, n - 1);
      var t := n - 1;
      w + [if t < 16 then BlockWord(o, block, t)
           else o.add(o.add(o.add(w[t - 16], o.smallSigma0(w[t - 15])), w[t - 7]), o.smallSigma1(w[t - 2]))]
  }

  /** Step 3: one round. */
  function Round<W>(o: Ops<W>, s: Hash<W>, k: W, w: W): Hash<W> {
    var t1 := o.add(o.add(o.add(o.add(s.h, o.bigSigma1(s.e)), o.ch(s.e, s.f, s.g)), k), w);
    var t2 := o.add(o.bigSigma0(s.a), o.maj(s.a, s.b, s.c));
    Hash(o.add(t1, t2), s.a, s.b, s.c, o.add(s.d, t1), s.e, s.f, s.g)
  }

  function Rounds<W>(o: Ops<W>, s: Hash<W>, w: seq<W>, n: nat): Hash<W>
    requires n <= |w|
    decreases n, w
  {
    if n == 0 then s else Round(o, Rounds(o, s, w, n - 1), o.k(n - 1), w[n - 1])
  }

  /** Steps 2 to 4: the intermediate hash after one block. */
  function Compress<W>(o: Ops<W>, s: Hash<W>, block: Bytes): Hash<W>
    requires |block| == 64
  {
    var r := Rounds(o, s, Schedule(o, block, 64), 64);
    Hash(o.add(s.a, r.a), o.add(s.b, r.b), o.add(s.c, r.c), o.add(s.d, r.d),
         o.add(s.e, r.e), o.add(s.f, r.f), o.add(s.g, r.g), o.add(s.h, r.h))
  }

  function Step<W>(o: Ops<W>): (Hash<W>, Bytes) -> Hash<W> {
    (s: Hash<W>, block: Bytes) => if |block| == 64 then Compress(o, s, block) else s
  }

  /** A whole number of 64-byte blocks. */
  predicate Blocks(n: nat) {
    n == 0 || (n >= 64 && Blocks(n - 64))
  }

  lemma {:induction false} BlocksMod(n: nat)
    ensures Blocks(n) <==> n % 64 == 0
  {
    if n >= 64 { BlocksMod(n - 64); }
  }

  lemma {:induction false} BlocksAdd(a: nat, b: nat)
    requires Blocks(a) && Blocks(b)
    ensures Blocks(a + b)
  {
    if a > 0 { BlocksAdd(a - 64, b); }
  }

  /** A fold over 64-byte blocks. */
  function Absorb<H>(f: (H, Bytes) -> H, s: H, data: Bytes): H
    requires Blocks(|data|)
    decreases |data|
  {
    if data == [] then s else Absorb(f, f(s, data[..64]), data[64..])
  }

  /** The length field: eight bytes, most significant first. */
  function BigEndian64(n: U64): (b: Bytes)
    ensures |b| == 8
  {
    seq(8, k requires 0 <= k < 8 => n / Pow256(7 - k) % 256)
  }

  function Reversed(b: Bytes): (r: Bytes)
    ensures |r| == |b|
  {
    seq(|b|, k requires 0 <= k < |b| => b[|b| - 1 - k])
  }

  /** Read from its end, the length field is the number of bits. */
  lemma BigEndian64Value(n: U64)
    ensures Get(Reversed(BigEndian64(n))) == n
  {
    var r := Reversed(BigEndian64(n));
    forall k | 0 <= k < 8 ensures r[k] == Put(n, 8)[k] {
      PutAt(n, 8, k);
    }
    assert r == Put(n, 8);
    Pow256Values();
    GetPut(n, 8);
  }

  /** The number of zero bytes that section 5.1.1 puts after the 1 bit: the
      least that leaves room for the length at the end of a block. */
  function ZeroCount(length: nat): (z: nat)
    ensures z < 64 && (length + 1 + z) % 64 == 56
  {
    (55 - length) % 64
  }

  /** Section 5.1.1 for a message of whole bytes; `bits` is its length. */
  function Padding(length: nat, bits: U64): (p: Bytes)
    ensures Blocks(length + |p|)
  {
    BlocksMod(length + 1 + ZeroCount(length) + 8);
    [0x80] + Zeros(ZeroCount(length)) + BigEndian64(bits)
  }

  function WordBytes<W>(o: Ops<W>, w: W): (b: Bytes)
    ensures |b| == 4
  {
    var (b0, b1, b2, b3) := o.store(w);
    [b0, b1, b2, b3]
  }

  function HashBytes<W>(o: Ops<W>, s: Hash<W>): (b: Bytes)
    ensures |b| == 32
  {
    WordBytes(o, s.a) + WordBytes(o, s.b) + WordBytes(o, s.c) + WordBytes(o, s.d)
    + WordBytes(o, s.e) + WordBytes(o, s.f) + WordBytes(o, s.g) + WordBytes(o, s.h)
  }

  /** The digest when the length field holds `bits`. */
  function Digest<W>(o: Ops<W>, iv: Hash<W>, m: Bytes, bits: U64): (d: Bytes)
    ensures |d| == 32
  {
    HashBytes(o, Absorb(Step(o), iv, m + Padding(|m|, bits)))
  }

  // ---- One block ----------------------------------------------------------

  /** The first sixteen words of the schedule, from the block. */
  method LoadWords<W>(o: Ops<W>, block: Bytes, w: array<W>)
    requires |block| == 64 && w.Length == 64
    modifies w
    ensures w[..16] == Schedule(o, block, 16)
  {
    for i := 0 to 16
      invariant w[..i] == Schedule(o, block, i)
    {
      w[i] := o.load(block[i * 4], block[i * 4 + 1], block[i * 4 + 2], block[i * 4 + 3]);
      assert w[..i + 1] == w[..i] + [w[i]];
    }
  }

  lemma ScheduleNext<W>(o: Ops<W>, block: Bytes, t: nat)
    requires |block| == 64 && t >= 16
    ensures var w := Schedule(o, block, t);
      Schedule(o, block, t + 1) ==
        w + [o.add(o.add(o.add(w[t - 16], o.smallSigma0(w[t - 15])), w[t - 7]), o.smallSigma1(w[t - 2]))]
  {
  }

  /** The expanded schedule, filled in place. */
  method Expand<W(0)>(o: Ops<W>, block: Bytes) returns (w: array<W>)
    requires |block| == 64
    ensures fresh(w) && w.Length == 64 && w[..] == Schedule(o, block, 64)
  {
    w := new W[64];
    LoadWords(o, block, w);
    for i := 16 to 64
      invariant w[..i] == Schedule(o, block, i)
    {
      ScheduleNext(o, block, i);
      ghost var words := w[..i];
      assert words[i - 16] == w[i - 16] && words[i - 15] == w[i - 15];
      assert words[i - 7] == w[i - 7] && words[i - 2] == w[i - 2];
      var s0 := o.smallSigma0(w[i - 15]);
      var s1 := o.smallSigma1(w[i - 2]);
      w[i] := o.add(o.add(o.add(w[i - 16], s0), w[i - 7]), s1);
      assert w[..i + 1] == words + [w[i]];
    }
    assert w[..64] == w[..];
  }

  /** One block through the eight working variables. */
  method ProcessBlock<W(0)>(o: Ops<W>, state: Hash<W>, block: Bytes) returns (r: Hash<W>)
    requires |block| == 64
    ensures r == Compress(o, state, block)
  {
    var w := Expand(o, block);
    ghost var words := w[..];
    var Hash(a, b, c, d, e, f, g, h) := state;
    for i := 0 to 64
      invariant Hash(a, b, c, d, e, f, g, h) == Rounds(o, state, words, i)
    {
      var temp1 := o.add(o.add(o.add(o.add(h, o.bigSigma1(e)), o.ch(e, f, g)), o.k(i)), w[i]);
      var temp2 := o.add(o.bigSigma0(a), o.maj(a, b, c));
      h := g;
      g := f;
      f := e;
      e := o.add(d, temp1);
      d := c;
      c := b;
      b := a;
      a := o.add(temp1, temp2);
    }
    r := Hash(o.add(state.a, a), o.add(state.b, b), o.add(state.c, c), o.add(state.d, d),
              o.add(state.e, e), o.add(state.f, f), o.add(state.g, g), o.add(state.h, h));
  }

  ghost predicate Block<H>(s: H, block: Bytes) { true }

  /** `f` is what `ProcessBlock` computes. */
  ghost predicate Computes<W(!new)>(o: Ops<W>, f: (Hash<W>, Bytes) -> Hash<W>) {
    forall s, block {:trigger Block(s, block)} :: Block(s, block) && |block| == 64 ==>
      f(s, block) == Compress(o, s, block)
  }

  lemma StepComputes<W(!new)>(o: Ops<W>)
    ensures Computes(o, Step(o))
  {
  }

  // ---- The buffered object ------------------------------------------------

  lemma {:induction false} AbsorbAppend<H>(f: (H, Bytes) -> H, s: H, a: Bytes, b: Bytes)
    requires Blocks(|a|) && Blocks(|b|)
    ensures Blocks(|a + b|) && Absorb(f, s, a + b) == Absorb(f, Absorb(f, s, a), b)
    decreases |a|
  {
    if a == [] {
      assert a + b == b;
    } else {
      BlocksAdd(|a|, |b|);
      assert (a + b)[..64] == a[..64];
      assert (a + b)[64..] == a[64..] + b;
      AbsorbAppend(f, f(s, a[..64]), a[64..], b);
    }
  }

  lemma AbsorbBlock<H>(f: (H, Bytes) -> H, s: H, head: Bytes, block: Bytes)
    requires Blocks(|head|) && |block| == 64
    ensures Blocks(|head + block|) && Absorb(f, s, head + block) == f(Absorb(f, s, head), block)
  {
    assert Blocks(0) && Blocks(64);
    AbsorbAppend(f, s, head, block);
    assert block[..64] == block && block[64..] == [];
  }

  lemma Extend(m: Bytes, data: Bytes, i: nat, j: nat, k: nat)
    requires i <= j <= k <= |data|
    ensures (m + data[i..j]) + data[j..k] == m + data[i..k]
    ensures i == 0 && k == |data| ==> data[i..k] == data
  {
    assert data[i..j] + data[j..k] == data[i..k];
  }

  /** The object, over any word arithmetic. */
  class Hasher<W(0, !new)> {
    const o: Ops<W>
    const iv: Hash<W>
    /** What one block does to the state. */
    ghost const f: (Hash<W>, Bytes) -> Hash<W>
    var state: Hash<W>
    const buffer: array<Byte>
    var bufferLen: nat
    var totalLen: U64

    /** The bytes already folded into `state`. */
    ghost var head: Bytes

    /** Everything taken in since construction. */
    ghost function Message(): Bytes
      reads this, buffer
      requires bufferLen <= buffer.Length
    {
      head + buffer[..bufferLen]
    }

    ghost predicate Consistent()
      reads this
    {
      && buffer.Length == 64 && bufferLen <= 64
      && Blocks(|head|) && state == Absorb(f, iv, head)
      && Computes(o, f)
    }

    ghost predicate Valid()
      reads this, buffer
    {
      && Consistent() && bufferLen < 64
      && totalLen == Wrap(|Message()|)
    }

    constructor (o: Ops<W>, iv: Hash<W>, ghost f: (Hash<W>, Bytes) -> Hash<W>)
      requires Computes(o, f)
      ensures Valid() && fresh(buffer) && Message() == []
      ensures this.f == f && this.iv == iv
    {
      this.o, this.iv, this.f, state := o, iv, f, iv;
      buffer := new Byte[64];
      bufferLen, totalLen, head := 0, 0, [];
    }

    /** Copies bytes of `data` from `start` into the buffer until the buffer is
        full or the data ends. */
    method Fill(data: Bytes, start: nat) returns (i: nat)
      requires Consistent() && start <= |data|
      modifies this`bufferLen, buffer
      ensures Consistent() && start <= i <= |data|
      ensures i == |data| || bufferLen == 64
      ensures bufferLen == old(bufferLen) + (i - start)
      ensures Message() == old(Message()) + data[start..i]
    {
      i := start;
      ghost var tail := buffer[..bufferLen];
      while i < |data| && bufferLen < 64
        invariant start <= i <= |data| && bufferLen == old(bufferLen) + (i - start) <= 64
        invariant buffer[..bufferLen] == tail + data[start..i]
      {
        AppendNext(tail, data[start..], i - start);
        buffer[bufferLen] := data[i];
        assert buffer[..bufferLen + 1] == buffer[..bufferLen] + [data[i]];
        bufferLen := bufferLen + 1;
        i := i + 1;
      }
      assert head + (tail + data[start..i]) == (head + tail) + data[start..i];
    }

    method FlushBuffer()
      requires Consistent() && bufferLen == 64
      modifies this`state, this`bufferLen, this`head
      ensures Consistent() && bufferLen == 0 && Message() == old(Message())
    {
      AbsorbBlock(f, iv, head, buffer[..]);
      assert Block(state, buffer[..]);
      state := ProcessBlock(o, state, buffer[..]);
      assert buffer[..64] == buffer[..];
      head := head + buffer[..];
      bufferLen := 0;
      assert head + buffer[..0] == head;
    }

    method PushBlock(block: Bytes)
      requires Consistent() && bufferLen == 0 && |block| == 64
      modifies this`state, this`head
      ensures Consistent() && Message() == old(Message()) + block
    {
      AbsorbBlock(f, iv, head, block);
      assert Block(state, block);
      state := ProcessBlock(o, state, block);
      assert buffer[..0] == [];
      head := head + block;
    }

    /** The three loops of `update`: top up the buffer, take whole blocks
        straight from the data, keep the rest. */
    method Swallow(data: Bytes)
      requires Consistent() && bufferLen < 64
      modifies this`state, this`bufferLen, this`head, buffer
      ensures Consistent() && bufferLen < 64 && Message() == old(Message()) + data
    {
      var i := 0;
      if bufferLen > 0 {
        i := Fill(data, 0);
        if bufferLen == 64 { FlushBuffer(); }
      }
      while i + 64 <= |data|
        invariant 0 <= i <= |data| && bufferLen < 64
        invariant Consistent() && Message() == old(Message()) + data[0..i]
        invariant bufferLen == 0 || i == |data|
      {
        PushBlock(data[i..i + 64]);
        Extend(old(Message()), data, 0, i, i + 64);
        i := i + 64;
      }
      Extend(old(Message()), data, 0, i, |data|);
      i := Fill(data, i);
    }

    method Update(data: Bytes)
      requires Valid()
      modifies this, buffer
      ensures Valid() && Message() == old(Message()) + data
    {
      ghost var n := |Message()|;
      WrapAdd(n, |data|);
      totalLen := Wrap(totalLen + |data|);
      assert totalLen == Wrap(n + |data|);
      Swallow(data);
      assert |Message()| == n + |data|;
    }

    lemma TailLength()
      requires Consistent() && bufferLen < 64
      ensures bufferLen == |Message()| % 64
    {
      BlocksMod(|head|);
    }

    /** Zero bytes through `Update` until the length field fits. */
    method PadZeros(ghost m: Bytes)
      requires Valid() && Message() == m + [0x80]
      modifies this, buffer
      ensures Valid() && Message() == m + [0x80] + Zeros(ZeroCount(|m|))
    {
      ghost var z: nat := 0;
      TailLength();
      assert m + [0x80] + Zeros(0) == m + [0x80];
      while bufferLen != 56
        invariant Valid() && bufferLen == (|m| + 1 + z) % 64
        invariant Message() == m + [0x80] + Zeros(z)
        invariant z <= ZeroCount(|m|)
        decreases ZeroCount(|m|) - z
      {
        ZerosGoOn(|m|, z);
        Update([0]);
        TailLength();
        OneMoreZero(m + [0x80], z);
        z := z + 1;
      }
      ZerosGoOn(|m|, z);
    }

    /** Pads through `Update` itself, byte by byte until the length fits, and
        leaves the state folded over the padded message. */
    method Final()
      requires Valid()
      modifies this, buffer
      ensures var m := old(Message()); state == Absorb(f, iv, m + Padding(|m|, Wrap(8 * |m|)))
    {
      ghost var m := Message();
      var bitLen := Wrap(totalLen * 8);
      WrapScale(|m|);
      Update([0x80]);
      PadZeros(m);
      Update(BigEndian64(bitLen));
      TailLength();
      PaddingParts(m, bitLen);
      BlocksMod(|Message()|);
      assert head == Message();
    }
  }

  lemma OneMoreZero(m: Bytes, z: nat)
    ensures m + Zeros(z) + [0] == m + Zeros(z + 1)
  {
    assert Zeros(z + 1) == Zeros(z) + [0];
  }

  lemma PaddingParts(m: Bytes, bits: U64)
    ensures m + [0x80] + Zeros(ZeroCount(|m|)) + BigEndian64(bits) == m + Padding(|m|, bits)
    ensures Blocks(|m + Padding(|m|, bits)|)
  {
  }

  lemma ZerosGoOn(n: nat, z: nat)
    requires z <= ZeroCount(n)
    ensures (n + 1 + z) % 64 == 56 <==> z == ZeroCount(n)
  {
  }

  /** Wrapping the byte count before or after the multiplication is the same. */
  lemma {:induction false} WrapScale(n: nat)
    ensures Wrap(Wrap(n) * 8) == Wrap(8 * n)
  {
    if n >= TWO64 {
      WrapScale(n - TWO64);
      WrapAdd(8 * TWO64, 8 * n - 8 * TWO64);
      WrapEight();
    }
  }

  lemma WrapEight()
    ensures Wrap(8 * TWO64) == 0
  {
    assert Wrap(2 * TWO64) == 0;
    assert Wrap(4 * TWO64) == 0;
    assert Wrap(6 * TWO64) == 0;
  }

  /** One object fed a message in pieces, then finished. */
  method FoldPieces<W(0, !new)>(o: Ops<W>, iv: Hash<W>, pieces: seq<Bytes>, ghost f: (Hash<W>, Bytes) -> Hash<W>)
    returns (state: Hash<W>)
    requires Computes(o, f)
    ensures var m := Concat(pieces); state == Absorb(f, iv, m + Padding(|m|, Wrap(8 * |m|)))
  {
    var h := new Hasher(o, iv, f);
    for i := 0 to |pieces|
      invariant h.Valid() && h.Message() == Concat(pieces[..i]) && fresh(h) && fresh(h.buffer)
      invariant h.f == f && h.iv == iv
    {
      h.Update(pieces[i]);
      ConcatSnoc(pieces[..i], pieces[i]);
      assert pieces[..i + 1] == pieces[..i] + [pieces[i]];
    }
    assert pieces[..|pieces|] == pieces;
    h.Final();
    state := h.state;
  }

  // ---- The standard's instance --------------------------------------------

  const IV: Hash<Word> := Hash(0x6a09e667, 0xbb67ae85, 0x3c6ef372, 0xa54ff53a,
                               0x510e527f, 0x9b05688c, 0x1f83d9ab, 0x5be0cd19)

  /** The initial hash: the first 32 bits of the fractional parts of the square
      roots of the first eight primes. */
  lemma InitialIsSquareRoots()
    ensures SquareRoot(2, 1, IV.a as int) && SquareRoot(3, 1, IV.b as int)
    ensures SquareRoot(5, 2, IV.c as int) && SquareRoot(7, 2, IV.d as int)
    ensures SquareRoot(11, 3, IV.e as int) && SquareRoot(13, 3, IV.f as int)
    ensures SquareRoot(17, 4, IV.g as int) && SquareRoot(19, 4, IV.h as int)
  {
  }

  const FIPS: Ops<Word> := Ops(
    (x: Word, y: Word) => Plus(x, y),
    (x: Word, y: Word, z: Word) => Ch(x, y, z),
    (x: Word, y: Word, z: Word) => Maj(x, y, z),
    (x: Word) => BigSigma0(x),
    (x: Word) => BigSigma1(x),
    (x: Word) => SmallSigma0(x),
    (x: Word) => SmallSigma1(x),
    (i: nat) => K(i),
    (b0: Byte, b1: Byte, b2: Byte, b3: Byte) => Load(b0, b1, b2, b3),
    (w: Word) => Store(w))

  /** SHA-256 of a message shorter than 2^64 bits, the standard's domain. */
  function Sha(m: Bytes): (d: Bytes)
    requires 8 * |m| < TWO64
    ensures |d| == 32
  {
    Digest(FIPS, IV, m, 8 * |m|)
  }

  /** However the message is cut into `Update` calls, the digest is the
      standard's. */
  method HashPieces(pieces: seq<Bytes>) returns (d: Bytes)
    requires 8 * |Concat(pieces)| < TWO64
    ensures d == Sha(Concat(pieces))
  {
    StepComputes(FIPS);
    var state := FoldPieces(FIPS, IV, pieces, Step(FIPS));
    d := HashBytes(FIPS, state);
  }
}
