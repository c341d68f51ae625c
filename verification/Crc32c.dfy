/** CRC32C as the transport and the verifier use it: a 256-entry table of
    machine words, one lookup per byte. A 32-bit word is its bits, least
    significant first. The reference is the bit-serial register of section
    12.1 of RFC 3720: 32 cells with feedback taps, fed the message bit by bit,
    each byte least significant bit first. */
module Crc32c {
  import opened Basics

  // ---- Numbers as bits ----------------------------------------------------

  function Falses(n: nat): seq<bool> { seq(n, i => false) }

  /** The low `k` bits of a number, least significant first. */
  function ToBits(n: nat, k: nat): (bits: seq<bool>)
    ensures |bits| == k
    decreases n, k
  {
    if k == 0 then [] else [n % 2 == 1] + ToBits(n / 2, k - 1)
  }

  function FromBits(bits: seq<bool>): nat {
    if bits == [] then 0 else (if bits[0] then 1 else 0) + 2 * FromBits(bits[1..])
  }

  function Pow2(k: nat): (p: nat)
    ensures p > 0
  {
    if k == 0 then 1 else 2 * Pow2(k - 1)
  }

  lemma Pow2Values()
    ensures Pow2(8) == 256 && Pow2(31) == 0x8000_0000 && Pow2(32) == 0x1_0000_0000
  {
    assert Pow2(8) == 256;
    assert Pow2(16) == 0x1_0000;
    assert Pow2(24) == 0x100_0000;
  }

  lemma {:induction false} FromBitsBounded(bits: seq<bool>)
    ensures FromBits(bits) < Pow2(|bits|)
  {
    if bits != [] { FromBitsBounded(bits[1..]); }
  }

  lemma {:induction false} BitsOfNumber(n: nat, k: nat)
    requires n < Pow2(k)
    ensures FromBits(ToBits(n, k)) == n
    decreases k
  {
    if k > 0 {
      BitsOfNumber(n / 2, k - 1);
      assert ToBits(n, k)[1..] == ToBits(n / 2, k - 1);
    }
  }

  /** A number read from a few bits spells those bits, then zeros. */
  lemma {:induction false} NumberOfBits(bits: seq<bool>, k: nat)
    requires |bits| <= k
    ensures ToBits(FromBits(bits), k) == bits + Falses(k - |bits|)
    decreases k
  {
    if bits != [] {
      var rest := bits[1..];
      NumberOfBits(rest, k - 1);
      assert FromBits(bits) / 2 == FromBits(rest);
      calc {
        ToBits(FromBits(bits), k);
        [bits[0]] + ToBits(FromBits(rest), k - 1);
        [bits[0]] + (rest + Falses(k - |bits|));
        { assert bits == [bits[0]] + rest; }
        bits + Falses(k - |bits|);
      }
    } else if k > 0 {
      NumberOfBits([], k - 1);
      assert Falses(k) == [false] + Falses(k - 1);
    }
  }

  lemma FromBitsInjective(a: seq<bool>, b: seq<bool>)
    requires |a| == |b| && FromBits(a) == FromBits(b)
    ensures a == b
  {
    NumberOfBits(a, |a|);
    NumberOfBits(b, |b|);
  }

  lemma {:induction false} TopBit(n: nat, k: nat)
    requires Pow2(k) <= n < 2 * Pow2(k)
    ensures ToBits(n, k + 1)[k]
    decreases k
  {
    if k > 0 { TopBit(n / 2, k - 1); }
  }

  // ---- The bit-serial register --------------------------------------------

  /** Cell 0 is the cell that is shifted out. */
  type Register = r: seq<bool> | |r| == 32 witness seq(32, i => false)

  function Xor(a: Register, b: Register): Register {
    seq(32, i requires 0 <= i < 32 => a[i] != b[i])
  }

  /** One clock of the register with taps `p` and no input. */
  function Clock(p: Register, r: Register): Register {
    seq(32, i requires 0 <= i < 32 => (i < 31 && r[i + 1]) != (r[0] && p[i]))
  }

  function Clocks(p: Register, n: nat, r: Register): Register
    decreases n, r
  {
    if n == 0 then r else Clocks(p, n - 1, Clock(p, r))
  }

  /** One clock that takes in a message bit. */
  function Feed(p: Register, r: Register, b: bool): Register {
    Clock(p, r[0 := r[0] != b])
  }

  function Serial(p: Register, r: Register, bits: seq<bool>): Register
    decreases |bits|
  {
    if bits == [] then r else Serial(p, Feed(p, r, bits[0]), bits[1..])
  }

  /** Up to 32 bits laid over the register, the rest empty. */
  function Pad(bits: seq<bool>): Register
    requires |bits| <= 32
  {
    bits + Falses(32 - |bits|)
  }

  /** A right shift by `n`. */
  function Drop(n: nat, v: Register): Register
    requires n <= 32
  {
    v[n..] + Falses(n)
  }

  /** When the last cell is tapped, a clock loses nothing. */
  lemma ClockInjective(p: Register, a: Register, b: Register)
    requires p[31] && Clock(p, a) == Clock(p, b)
    ensures a == b
  {
    assert Clock(p, a)[31] == a[0] && Clock(p, b)[31] == b[0];
    forall i | 0 < i < 32 ensures a[i] == b[i] {
      assert Clock(p, a)[i - 1] == Clock(p, b)[i - 1];
    }
  }

  lemma {:induction false} ClocksInjective(p: Register, n: nat, a: Register, b: Register)
    requires p[31] && Clocks(p, n, a) == Clocks(p, n, b)
    ensures a == b
    decreases n
  {
    if n > 0 {
      ClocksInjective(p, n - 1, Clock(p, a), Clock(p, b));
      ClockInjective(p, a, b);
    }
  }

  lemma ClockAbsorbs(p: Register, x: Register, v: Register)
    requires !v[0]
    ensures Clock(p, Xor(x, v)) == Xor(Clock(p, x), Drop(1, v))
  {
  }

  /** Cells above the first n pass through n clocks untouched by the taps. */
  lemma {:induction false} ClocksAbsorb(p: Register, n: nat, x: Register, v: Register)
    requires n <= 32
    requires forall i :: 0 <= i < n ==> !v[i]
    ensures Clocks(p, n, Xor(x, v)) == Xor(Clocks(p, n, x), Drop(n, v))
    decreases n
  {
    if n == 0 {
      assert Drop(0, v) == v;
    } else {
      ClockAbsorbs(p, x, v);
      ClocksAbsorb(p, n - 1, Clock(p, x), Drop(1, v));
      assert Drop(n - 1, Drop(1, v)) == Drop(n, v);
    }
  }

  lemma FeedAbsorbs(p: Register, r: Register, bits: seq<bool>)
    requires 0 < |bits| <= 32
    ensures Clock(p, Xor(r, Pad(bits))) == Xor(Feed(p, r, bits[0]), Pad(bits[1..]))
  {
  }

  /** Feeding up to 32 bits is laying them over the register and clocking. */
  lemma {:induction false} SerialIsClocks(p: Register, r: Register, bits: seq<bool>)
    requires |bits| <= 32
    ensures Serial(p, r, bits) == Clocks(p, |bits|, Xor(r, Pad(bits)))
    decreases |bits|
  {
    if bits == [] {
      assert Xor(r, Pad(bits)) == r;
    } else {
      SerialIsClocks(p, Feed(p, r, bits[0]), bits[1..]);
      FeedAbsorbs(p, r, bits);
    }
  }

  lemma {:induction false} SerialAppend(p: Register, r: Register, a: seq<bool>, b: seq<bool>)
    ensures Serial(p, r, a + b) == Serial(p, Serial(p, r, a), b)
    decreases |a|
  {
    if a == [] {
      assert a + b == b;
    } else {
      assert (a + b)[1..] == a[1..] + b;
      SerialAppend(p, Feed(p, r, a[0]), a[1..], b);
    }
  }

  lemma {:induction false} SerialInjective(p: Register, a: Register, b: Register, bits: seq<bool>)
    requires p[31] && Serial(p, a, bits) == Serial(p, b, bits)
    ensures a == b
    decreases |bits|
  {
    if bits != [] {
      SerialInjective(p, Feed(p, a, bits[0]), Feed(p, b, bits[0]), bits[1..]);
      var a', b' := a[0 := a[0] != bits[0]], b[0 := b[0] != bits[0]];
      ClockInjective(p, a', b');
      assert forall i :: 0 < i < 32 ==> a[i] == a'[i] && b[i] == b'[i];
    }
  }

  lemma WindowInjective(p: Register, r: Register, a: seq<bool>, b: seq<bool>)
    requires p[31] && |a| == |b| <= 32
    requires Serial(p, r, a) == Serial(p, r, b)
    ensures a == b
  {
    SerialIsClocks(p, r, a);
    SerialIsClocks(p, r, b);
    ClocksInjective(p, |a|, Xor(r, Pad(a)), Xor(r, Pad(b)));
    forall i | 0 <= i < |a| ensures a[i] == b[i] {
      assert Xor(r, Pad(a))[i] == Xor(r, Pad(b))[i];
    }
  }

  /** A burst of at most 32 bits changes the register, however long the common
      prefix and suffix around it are. */
  lemma BurstChangesRegister(p: Register, r: Register,
                             prefix: seq<bool>, a: seq<bool>, b: seq<bool>, suffix: seq<bool>)
    requires p[31] && |a| == |b| <= 32 && a != b
    ensures Serial(p, r, prefix + a + suffix) != Serial(p, r, prefix + b + suffix)
  {
    SerialAppend(p, r, prefix + a, suffix);
    SerialAppend(p, r, prefix + b, suffix);
    SerialAppend(p, r, prefix, a);
    SerialAppend(p, r, prefix, b);
    var s := Serial(p, r, prefix);
    if Serial(p, Serial(p, s, a), suffix) == Serial(p, Serial(p, s, b), suffix) {
      SerialInjective(p, Serial(p, s, a), Serial(p, s, b), suffix);
      WindowInjective(p, s, a, b);
    }
  }

  // ---- The table-driven step ----------------------------------------------

  function Word(n: nat): Register { ToBits(n, 32) }

  /** One turn of the table-building inner loop. */
  function ShiftOnce(p: Register, c: Register): Register {
    if c[0] then Xor(p, Drop(1, c)) else Drop(1, c)
  }

  lemma ShiftOnceIsClock(p: Register, c: Register)
    ensures ShiftOnce(p, c) == Clock(p, c)
  {
  }

  /** What the table must hold at index `i`. */
  function TableEntry(p: Register, i: nat): Register { Clocks(p, 8, Word(i)) }

  /** The low byte of `c ^ d`. */
  function TableIndex(c: Register, d: Byte): (i: nat)
    ensures i < 256
  {
    var low := Xor(c, Word(d))[..8];
    FromBitsBounded(low);
    Pow2Values();
    FromBits(low)
  }

  function TableStep(p: Register, c: Register, d: Byte): Register {
    Xor(TableEntry(p, TableIndex(c, d)), Drop(8, c))
  }

  function ByteBits(d: Byte): (bits: seq<bool>)
    ensures |bits| == 8
  {
    ToBits(d, 8)
  }

  lemma WordOfByte(d: Byte)
    ensures Word(d) == Pad(ByteBits(d))
  {
    Pow2Values();
    BitsOfNumber(d, 8);
    NumberOfBits(ByteBits(d), 32);
  }

  lemma SplitLowByte(p: Register, x: Register)
    ensures Clocks(p, 8, x) == Xor(Clocks(p, 8, Pad(x[..8])), Drop(8, x))
  {
    var low, high := Pad(x[..8]), Falses(8) + x[8..];
    assert x == Xor(low, high);
    ClocksAbsorb(p, 8, low, high);
    assert Drop(8, high) == Drop(8, x);
  }

  /** One table lookup does the work of eight single-bit clocks. */
  lemma TableStepIsSerial(p: Register, c: Register, d: Byte)
    ensures TableStep(p, c, d) == Serial(p, c, ByteBits(d))
  {
    WordOfByte(d);
    var x := Xor(c, Pad(ByteBits(d)));
    NumberOfBits(x[..8], 32);
    SplitLowByte(p, x);
    assert Drop(8, x) == Drop(8, c);
    SerialIsClocks(p, c, ByteBits(d));
  }

  // ---- Whole messages -----------------------------------------------------

  /** The Castagnoli polynomial 0x1EDC6F41, reflected. */
  const POLY: nat := 0x82F6_3B78

  lemma SpellingExists(n: nat)
    requires n < Pow2(32)
    ensures exists r: Register :: FromBits(r) == n
  {
    BitsOfNumber(n, 32);
    var r: Register := Word(n);
    assert FromBits(r) == n;
  }

  /** The register that spells the polynomial. */
  ghost function Castagnoli(): (r: Register)
    ensures FromBits(r) == POLY
  {
    Pow2Values();
    SpellingExists(POLY);
    var r: Register :| FromBits(r) == POLY;
    r
  }

  lemma LastCellOf(r: Register, n: nat)
    requires FromBits(r) == n && 0x8000_0000 <= n
    ensures r[31]
  {
    Pow2Values();
    FromBitsBounded(r);
    NumberOfBits(r, 32);
    TopBit(n, 31);
  }

  lemma CastagnoliTapped()
    ensures Castagnoli()[31]
  {
    LastCellOf(Castagnoli(), POLY);
  }

  method PolynomialWord() returns (p: Register)
    ensures p == Castagnoli()
  {
    var n: nat := POLY;
    p := Word(n);
    Pow2Values();
    BitsOfNumber(n, 32);
    FromBitsInjective(p, Castagnoli());
  }

  function AllOnes(): Register { seq(32, i => true) }

  function Complement(r: Register): Register {
    seq(32, i requires 0 <= i < 32 => !r[i])
  }

  /** A message as the bit string the register sees. */
  function MessageBits(data: Bytes): (bits: seq<bool>)
    ensures |bits| == 8 * |data|
  {
    if data == [] then [] else ByteBits(data[0]) + MessageBits(data[1..])
  }

  /** The register after a message: every cell set, then the message fed. */
  ghost function State(data: Bytes): Register {
    Serial(Castagnoli(), AllOnes(), MessageBits(data))
  }

  /** The CRC32C of a message, from the definition alone: the complement of the
      register, read off as a number. */
  ghost function Crc(data: Bytes): nat {
    FromBits(Complement(State(data)))
  }

  lemma {:induction false} MessageBitsAppend(a: Bytes, b: Bytes)
    ensures MessageBits(a + b) == MessageBits(a) + MessageBits(b)
  {
    if a == [] {
      assert a + b == b;
    } else {
      MessageBitsAppend(a[1..], b);
      assert (a + b)[1..] == a[1..] + b;
      calc {
        MessageBits(a + b);
        ByteBits(a[0]) + MessageBits(a[1..] + b);
        ByteBits(a[0]) + (MessageBits(a[1..]) + MessageBits(b));
        (ByteBits(a[0]) + MessageBits(a[1..])) + MessageBits(b);
      }
    }
  }

  /** What one turn of the update loop does to the register. */
  lemma StateStep(data: Bytes, d: Byte)
    ensures State(data + [d]) == TableStep(Castagnoli(), State(data), d)
  {
    var p := Castagnoli();
    MessageBitsAppend(data, [d]);
    OneByteBits(d);
    SerialAppend(p, AllOnes(), MessageBits(data), ByteBits(d));
    TableStepIsSerial(p, State(data), d);
  }

  lemma {:induction false} MessageBitsInjective(a: Bytes, b: Bytes)
    requires |a| == |b| && MessageBits(a) == MessageBits(b)
    ensures a == b
  {
    if a != [] {
      var x, y := MessageBits(a), MessageBits(b);
      assert x[..8] == ByteBits(a[0]) && y[..8] == ByteBits(b[0]);
      assert x[8..] == MessageBits(a[1..]) && y[8..] == MessageBits(b[1..]);
      Pow2Values();
      BitsOfNumber(a[0], 8);
      BitsOfNumber(b[0], 8);
      MessageBitsInjective(a[1..], b[1..]);
      assert a == [a[0]] + a[1..] && b == [b[0]] + b[1..];
    }
  }

  /** Two bit strings that agree outside 32 consecutive positions. */
  predicate WithinBurst(x: seq<bool>, y: seq<bool>, at: nat) {
    |x| == |y| && forall i :: 0 <= i < |x| && !(at <= i < at + 32) ==> x[i] == y[i]
  }

  lemma BurstOnBits(p: Register, r: Register, x: seq<bool>, y: seq<bool>, at: nat)
    requires p[31] && x != y && WithinBurst(x, y, at)
    ensures Serial(p, r, x) != Serial(p, r, y)
  {
    var lo := Min(at, |x|);
    var hi := Min(at + 32, |x|);
    assert x == x[..lo] + x[lo..hi] + x[hi..];
    assert y == x[..lo] + y[lo..hi] + x[hi..];
    BurstChangesRegister(p, r, x[..lo], x[lo..hi], y[lo..hi], x[hi..]);
  }

  lemma ReadOffInjective(r: Register, s: Register)
    requires FromBits(Complement(r)) == FromBits(Complement(s))
    ensures r == s
  {
    FromBitsInjective(Complement(r), Complement(s));
    forall i | 0 <= i < 32 ensures r[i] == s[i] {
      assert Complement(r)[i] == Complement(s)[i];
    }
  }

  /** CRC32C tells apart any two messages of one length that differ only within
      32 consecutive bits, whatever the length. */
  lemma BurstDetected(a: Bytes, b: Bytes, at: nat)
    requires a != b && |a| == |b| && WithinBurst(MessageBits(a), MessageBits(b), at)
    ensures Crc(a) != Crc(b)
  {
    if MessageBits(a) == MessageBits(b) { MessageBitsInjective(a, b); }
    CastagnoliTapped();
    BurstOnBits(Castagnoli(), AllOnes(), MessageBits(a), MessageBits(b), at);
    if Crc(a) == Crc(b) { ReadOffInjective(State(a), State(b)); }
  }

  lemma SpliceWithinBurst(h: seq<bool>, m: seq<bool>, n: seq<bool>, t: seq<bool>)
    requires |m| == |n| <= 32
    ensures WithinBurst(h + (m + t), h + (n + t), |h|)
  {
  }

  /** In particular any damage confined to four consecutive bytes. */
  lemma FourByteDamageDetected(a: Bytes, b: Bytes, at: nat)
    requires |a| == |b| && a != b
    requires forall i :: 0 <= i < |a| && !(at <= i < at + 4) ==> a[i] == b[i]
    ensures Crc(a) != Crc(b)
  {
    var lo := Min(at, |a|);
    var hi := Min(at + 4, |a|);
    var h, m, n, t := a[..lo], a[lo..hi], b[lo..hi], a[hi..];
    assert a == h + (m + t);
    assert b == h + (n + t);
    MessageBitsAppend(h, m + t);
    MessageBitsAppend(h, n + t);
    MessageBitsAppend(m, t);
    MessageBitsAppend(n, t);
    SpliceWithinBurst(MessageBits(h), MessageBits(m), MessageBits(n), MessageBits(t));
    BurstDetected(a, b, 8 * lo);
  }

  lemma CrcBounded(data: Bytes)
    ensures Crc(data) < 0x1_0000_0000
  {
    FromBitsBounded(Complement(State(data)));
    Pow2Values();
  }

  // ---- Reaching a chosen value --------------------------------------------

  /** Undoes a clock when the last cell is tapped. */
  function Unclock(p: Register, r: Register): Register {
    [r[31]] + seq(31, i requires 0 <= i < 31 => r[i] != (r[31] && p[i]))
  }

  lemma ClockOfUnclock(p: Register, r: Register)
    requires p[31]
    ensures Clock(p, Unclock(p, r)) == r
  {
  }

  lemma {:induction false} ClocksOnto(p: Register, n: nat, goal: Register) returns (r: Register)
    requires p[31]
    ensures Clocks(p, n, r) == goal
    decreases n
  {
    if n == 0 {
      r := goal;
    } else {
      var s := ClocksOnto(p, n - 1, goal);
      r := Unclock(p, s);
      ClockOfUnclock(p, s);
    }
  }

  lemma OctetByte(bits: seq<bool>) returns (d: Byte)
    requires |bits| == 8
    ensures ByteBits(d) == bits
  {
    FromBitsBounded(bits);
    Pow2Values();
    d := FromBits(bits);
    NumberOfBits(bits, 8);
    assert bits + Falses(0) == bits;
  }

  lemma WordBytes(w: Register) returns (data: Bytes)
    ensures |data| == 4 && MessageBits(data) == w
  {
    var a := OctetByte(w[..8]);
    var b := OctetByte(w[8..16]);
    var c := OctetByte(w[16..24]);
    var d := OctetByte(w[24..]);
    data := [a, b, c, d];
    MessageBitsAppend([a], [b, c, d]);
    MessageBitsAppend([b], [c, d]);
    MessageBitsAppend([c], [d]);
    assert data == [a] + [b, c, d] && [b, c, d] == [b] + [c, d] && [c, d] == [c] + [d];
    OneByteBits(a);
    OneByteBits(b);
    OneByteBits(c);
    OneByteBits(d);
    assert w == w[..8] + (w[8..16] + (w[16..24] + w[24..]));
  }

  lemma OneByteBits(d: Byte)
    ensures MessageBits([d]) == ByteBits(d)
  {
    assert [d][1..] == [];
    assert ByteBits(d) + [] == ByteBits(d);
  }

  lemma ReadOffZero(r: Register)
    requires r == AllOnes()
    ensures FromBits(Complement(r)) == 0
  {
    ZeroBits(32);
    assert Complement(r) == Falses(32);
  }

  lemma {:induction false} ZeroBits(n: nat)
    ensures FromBits(Falses(n)) == 0
  {
    if n > 0 {
      ZeroBits(n - 1);
      assert Falses(n)[1..] == Falses(n - 1);
    }
  }

  /** Some four-byte message has the CRC32C value 0. */
  lemma ZeroCrcMessage() returns (data: Bytes)
    ensures |data| == 4 && Crc(data) == 0
  {
    var p := Castagnoli();
    CastagnoliTapped();
    var r := ClocksOnto(p, 32, AllOnes());
    var w := Xor(AllOnes(), r);
    data := WordBytes(w);
    SerialIsClocks(p, AllOnes(), w);
    assert Pad(w) == w;
    assert Xor(AllOnes(), w) == r;
    ReadOffZero(State(data));
  }

  // ---- The incremental object ---------------------------------------------

  method BuildTable() returns (t: seq<Register>)
    ensures |t| == 256
    ensures forall i :: 0 <= i < 256 ==> t[i] == TableEntry(Castagnoli(), i)
  {
    var p := PolynomialWord();
    t := [];
    for i := 0 to 256
      invariant |t| == i
      invariant forall j :: 0 <= j < i ==> t[j] == TableEntry(p, j)
    {
      var c := Word(i);
      for k := 0 to 8
        invariant TableEntry(p, i) == Clocks(p, 8 - k, c)
      {
        ShiftOnceIsClock(p, c);
        c := ShiftOnce(p, c);
      }
      t := t + [c];
    }
  }

  class Hasher {
    var crc: Register

    /** The bytes taken in since construction or reset. */
    ghost var message: Bytes

    ghost predicate Valid()
      reads this
    {
      crc == State(message)
    }

    constructor ()
      ensures Valid() && message == []
    {
      crc, message := AllOnes(), [];
    }

    method Reset()
      modifies this
      ensures Valid() && message == []
    {
      crc, message := AllOnes(), [];
    }

    method Update(data: Bytes)
      requires Valid()
      modifies this
      ensures Valid() && message == old(message) + data
    {
      var t := BuildTable();
      var c := crc;
      ghost var before := message;
      assert before + data[..0] == before;
      for i := 0 to |data|
        invariant message == before
        invariant c == State(before + data[..i])
      {
        AppendNext(before, data, i);
        StateStep(before + data[..i], data[i]);
        c := Xor(t[TableIndex(c, data[i])], Drop(8, c));
      }
      assert data[..|data|] == data;
      crc, message := c, before + data;
    }

    method Value() returns (v: nat)
      requires Valid()
      ensures v == Crc(message)
    {
      v := FromBits(Complement(crc));
    }
  }

  method Compute(data: Bytes) returns (v: nat)
    ensures v == Crc(data)
  {
    var h := new Hasher();
    h.Update(data);
    assert [] + data == data;
    v := h.Value();
  }
}
