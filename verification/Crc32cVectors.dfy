/** CRC32C on machine words, and the value that the repository's own tests ask
    for: the register of this model against 32-bit arithmetic. */
module Crc32cVectors {
  import opened Basics
  import opened Crc32c

  // ---- Registers as machine words -----------------------------------------

  predicate Spells0(r: Register, c: bv32) {
    && (r[0] <==> c & 0x00000001 != 0) && (r[1] <==> c & 0x00000002 != 0)
    && (r[2] <==> c & 0x00000004 != 0) && (r[3] <==> c & 0x00000008 != 0)
    && (r[4] <==> c & 0x00000010 != 0) && (r[5] <==> c & 0x00000020 != 0)
    && (r[6] <==> c & 0x00000040 != 0) && (r[7] <==> c & 0x00000080 != 0)
  }

  predicate Spells8(r: Register, c: bv32) {
    && (r[8] <==> c & 0x00000100 != 0) && (r[9] <==> c & 0x00000200 != 0)
    && (r[10] <==> c & 0x00000400 != 0) && (r[11] <==> c & 0x00000800 != 0)
    && (r[12] <==> c & 0x00001000 != 0) && (r[13] <==> c & 0x00002000 != 0)
    && (r[14] <==> c & 0x00004000 != 0) && (r[15] <==> c & 0x00008000 != 0)
  }

  predicate Spells16(r: Register, c: bv32) {
    && (r[16] <==> c & 0x00010000 != 0) && (r[17] <==> c & 0x00020000 != 0)
    && (r[18] <==> c & 0x00040000 != 0) && (r[19] <==> c & 0x00080000 != 0)
    && (r[20] <==> c & 0x00100000 != 0) && (r[21] <==> c & 0x00200000 != 0)
    && (r[22] <==> c & 0x00400000 != 0) && (r[23] <==> c & 0x00800000 != 0)
  }

  predicate Spells24(r: Register, c: bv32) {
    && (r[24] <==> c & 0x01000000 != 0) && (r[25] <==> c & 0x02000000 != 0)
    && (r[26] <==> c & 0x04000000 != 0) && (r[27] <==> c & 0x08000000 != 0)
    && (r[28] <==> c & 0x10000000 != 0) && (r[29] <==> c & 0x20000000 != 0)
    && (r[30] <==> c & 0x40000000 != 0) && (r[31] <==> c & 0x80000000 != 0)
  }

  /** The register and the machine word have the same bits, cell 0 the least
      significant. */
  predicate Spells(r: Register, c: bv32) { Spells0(r, c) && Spells8(r, c) && Spells16(r, c) && Spells24(r, c) }

  function One(b: bool): nat { if b then 1 else 0 }

  lemma FromFour(a: bool, b: bool, c: bool, d: bool)
    ensures FromBits([a, b, c, d]) == One(a) + 2 * One(b) + 4 * One(c) + 8 * One(d)
  {
    assert [d][1..] == [] && [c, d][1..] == [d] && [b, c, d][1..] == [c, d] && [a, b, c, d][1..] == [b, c, d];
    assert FromBits([d]) == One(d);
    assert FromBits([c, d]) == One(c) + 2 * One(d);
    assert FromBits([b, c, d]) == One(b) + 2 * One(c) + 4 * One(d);
  }

  lemma {:induction false} FromAppend(a: seq<bool>, b: seq<bool>)
    ensures FromBits(a + b) == FromBits(a) + Pow2(|a|) * FromBits(b)
  {
    if a == [] {
      assert a + b == b;
    } else {
      FromCons(a, b);
      FromAppend(a[1..], b);
      Doubled(Pow2(|a| - 1), FromBits(b));
    }
  }

  lemma FromCons(a: seq<bool>, b: seq<bool>)
    requires a != []
    ensures FromBits(a) == One(a[0]) + 2 * FromBits(a[1..])
    ensures FromBits(a + b) == One(a[0]) + 2 * FromBits(a[1..] + b)
  {
    assert (a + b)[1..] == a[1..] + b;
  }

  lemma Doubled(x: nat, y: nat)
    ensures 2 * x * y == 2 * (x * y)
  {
  }

  /** The number that eight bits spell. */
  lemma FromEight(a: bool, b: bool, c: bool, d: bool, e: bool, f: bool, g: bool, h: bool)
    ensures FromBits([a, b, c, d, e, f, g, h]) == One(a) + 2 * One(b) + 4 * One(c) + 8 * One(d)
      + 16 * One(e) + 32 * One(f) + 64 * One(g) + 128 * One(h)
  {
    assert [a, b, c, d, e, f, g, h] == [a, b, c, d] + [e, f, g, h];
    FromAppend([a, b, c, d], [e, f, g, h]);
    FromFour(a, b, c, d);
    FromFour(e, f, g, h);
    assert Pow2(4) == 16;
  }

  lemma FromOctets(a: seq<bool>, b: seq<bool>, c: seq<bool>, d: seq<bool>)
    requires |a| == |b| == |c| == |d| == 8
    ensures FromBits(a + b + c + d)
      == FromBits(a) + 0x100 * FromBits(b) + 0x1_0000 * FromBits(c) + 0x100_0000 * FromBits(d)
  {
    FromAppend(a + b + c, d);
    FromAppend(a + b, c);
    FromAppend(a, b);
    assert Pow2(8) == 0x100;
    assert Pow2(16) == 0x1_0000;
    assert Pow2(24) == 0x100_0000;
  }

  /** The bits of a byte. */
  lemma ByteIs(v: Byte, a: bool, b: bool, c: bool, d: bool, e: bool, f: bool, g: bool, h: bool)
    requires v == One(a) + 2 * One(b) + 4 * One(c) + 8 * One(d)
      + 16 * One(e) + 32 * One(f) + 64 * One(g) + 128 * One(h)
    ensures ByteBits(v) == [a, b, c, d, e, f, g, h]
  {
    FromEight(a, b, c, d, e, f, g, h);
    NumberOfBits([a, b, c, d, e, f, g, h], 8);
    assert [a, b, c, d, e, f, g, h] + Falses(0) == [a, b, c, d, e, f, g, h];
  }

  /** Four octets that spell a number are the register that spells it. */
  lemma OctetsAre(r: Register, n: nat, a: seq<bool>, b: seq<bool>, c: seq<bool>, d: seq<bool>)
    requires |a| == |b| == |c| == |d| == 8 && FromBits(r) == n
    requires n == FromBits(a) + 0x100 * FromBits(b) + 0x1_0000 * FromBits(c) + 0x100_0000 * FromBits(d)
    ensures r == a + b + c + d
  {
    FromOctets(a, b, c, d);
    var p: Register := a + b + c + d;
    FromBitsInjective(r, p);
  }

  lemma TapsOctet0()
    ensures FromBits([false, false, false, true, true, true, true, false]) == 0x78
  {
    FromEight(false, false, false, true, true, true, true, false);
  }

  lemma TapsOctet1()
    ensures FromBits([true, true, false, true, true, true, false, false]) == 0x3b
  {
    FromEight(true, true, false, true, true, true, false, false);
  }

  lemma TapsOctet2()
    ensures FromBits([false, true, true, false, true, true, true, true]) == 0xf6
  {
    FromEight(false, true, true, false, true, true, true, true);
  }

  lemma TapsOctet3()
    ensures FromBits([false, true, false, false, false, false, false, true]) == 0x82
  {
    FromEight(false, true, false, false, false, false, false, true);
  }

  /** The taps: cell `i` has the coefficient of x^(31 - i) of the polynomial
      x^32 + x^28 + x^27 + x^26 + x^25 + x^23 + x^22 + x^20 + x^19 + x^18 + x^14
      + x^13 + x^11 + x^10 + x^9 + x^8 + x^6 + 1. */
  lemma Taps()
    ensures Castagnoli() ==
      [false, false, false, true, true, true, true, false]
      + [true, true, false, true, true, true, false, false]
      + [false, true, true, false, true, true, true, true]
      + [false, true, false, false, false, false, false, true]
  {
    TapsOctet0();
    TapsOctet1();
    TapsOctet2();
    TapsOctet3();
    OctetsAre(Castagnoli(), POLY, [false, false, false, true, true, true, true, false],
              [true, true, false, true, true, true, false, false],
              [false, true, true, false, true, true, true, true],
              [false, true, false, false, false, false, false, true]);
  }

  /** One clock on a machine word. */
  function Next(c: bv32): bv32 { (c >> 1) ^ (if c & 1 == 1 then 0x82f63b78 else 0) }

  lemma NextSpells0(r: Register, c: bv32)
    requires Spells(r, c)
    ensures Spells0(Clock(Castagnoli(), r), Next(c))
  {
    Taps();
  }

  lemma NextSpells8(r: Register, c: bv32)
    requires Spells(r, c)
    ensures Spells8(Clock(Castagnoli(), r), Next(c))
  {
    Taps();
  }

  lemma NextSpells16(r: Register, c: bv32)
    requires Spells(r, c)
    ensures Spells16(Clock(Castagnoli(), r), Next(c))
  {
    Taps();
  }

  lemma NextSpells24(r: Register, c: bv32)
    requires Spells(r, c)
    ensures Spells24(Clock(Castagnoli(), r), Next(c))
  {
    Taps();
  }

  lemma NextSpells(r: Register, c: bv32)
    requires Spells(r, c)
    ensures Spells(Clock(Castagnoli(), r), Next(c))
  {
    NextSpells0(r, c);
    NextSpells8(r, c);
    NextSpells16(r, c);
    NextSpells24(r, c);
  }

  function Shifted(n: nat, c: bv32): bv32
    decreases n
  {
    if n == 0 then c else Shifted(n - 1, (c >> 1) ^ (if c & 1 == 1 then 0x82f63b78 else 0))
  }

  lemma {:induction false} ShiftedSpells(n: nat, r: Register, c: bv32)
    requires Spells(r, c)
    ensures Spells(Clocks(Castagnoli(), n, r), Shifted(n, c))
    decreases n
  {
    if n > 0 {
      NextSpells(r, c);
      ShiftedSpells(n - 1, Clock(Castagnoli(), r), Next(c));
    }
  }

  lemma XorSpells0(r: Register, c: bv32, s: Register, d: bv32)
    requires Spells0(r, c) && Spells0(s, d)
    ensures Spells0(Xor(r, s), c ^ d)
  {
  }

  lemma XorSpells8(r: Register, c: bv32, s: Register, d: bv32)
    requires Spells8(r, c) && Spells8(s, d)
    ensures Spells8(Xor(r, s), c ^ d)
  {
  }

  lemma XorSpells16(r: Register, c: bv32, s: Register, d: bv32)
    requires Spells16(r, c) && Spells16(s, d)
    ensures Spells16(Xor(r, s), c ^ d)
  {
  }

  lemma XorSpells24(r: Register, c: bv32, s: Register, d: bv32)
    requires Spells24(r, c) && Spells24(s, d)
    ensures Spells24(Xor(r, s), c ^ d)
  {
  }

  lemma XorSpells(r: Register, c: bv32, s: Register, d: bv32)
    requires Spells(r, c) && Spells(s, d)
    ensures Spells(Xor(r, s), c ^ d)
  {
    XorSpells0(r, c, s, d);
    XorSpells8(r, c, s, d);
    XorSpells16(r, c, s, d);
    XorSpells24(r, c, s, d);
  }

  // ---- The check value ----------------------------------------------------

  /** One more byte of the message. */
  lemma ByteSpells(data: Bytes, d: Byte, c: bv32, x: bv32)
    requires Spells(State(data), c) && Spells(Pad(ByteBits(d)), x)
    ensures Spells(State(data + [d]), Shifted(8, c ^ x))
  {
    var p, r := Castagnoli(), State(data);
    StateStep(data, d);
    TableStepIsSerial(p, r, d);
    SerialIsClocks(p, r, ByteBits(d));
    XorSpells(r, c, Pad(ByteBits(d)), x);
    ShiftedSpells(8, Xor(r, Pad(ByteBits(d))), c ^ x);
  }

  /** The digits of ASCII. */
  lemma DigitSpells(v: Byte, a: bool, b: bool, c: bool, d: bool, x: bv32)
    requires v == 0x30 + One(a) + 2 * One(b) + 4 * One(c) + 8 * One(d)
    requires x == 0x30 | (if a then 1 else 0) | (if b then 2 else 0) | (if c then 4 else 0) | (if d then 8 else 0)
    ensures Spells(Pad(ByteBits(v)), x)
  {
    ByteIs(v, a, b, c, d, true, true, false, false);
  }

  lemma NothingSpells()
    ensures Spells(State([]), 0xffffffff)
  {
    assert State([]) == AllOnes();
  }

  const CHECK: Bytes := [0x31, 0x32, 0x33, 0x34, 0x35, 0x36, 0x37, 0x38, 0x39]

  /** The message is the nine digits. */
  predicate Digits(m: Bytes) { |m| == 9 && forall k :: 0 <= k < 9 ==> m[k] == 0x31 + k }

  /** The register after one more byte of the message. */
  lemma NextByte(m: Bytes, n: nat, c: bv32, x: bv32, c': bv32)
    requires n < |m| && Spells(State(m[..n]), c) && Spells(Pad(ByteBits(m[n])), x) && Shifted(8, c ^ x) == c'
    ensures Spells(State(m[..n + 1]), c')
  {
    ByteSpells(m[..n], m[n], c, x);
    PrefixGrows(m, n);
  }

  lemma PrefixGrows(m: Bytes, n: nat)
    requires n < |m|
    ensures m[..n] + [m[n]] == m[..n + 1]
  {
  }

  lemma Check1(m: Bytes)
    requires Digits(m)
    ensures Spells(State(m[..1]), 0x6f0a661c)
  {
    NothingSpells();
    assert m[..0] == [];
    DigitSpells(0x31, true, false, false, false, 0x31);
    NextByte(m, 0, 0xffffffff, 0x31, 0x6f0a661c);
  }

  lemma Check2(m: Bytes)
    requires Digits(m)
    ensures Spells(State(m[..2]), 0x8caa3b9f)
  {
    Check1(m);
    DigitSpells(0x32, false, true, false, false, 0x32);
    NextByte(m, 1, 0x6f0a661c, 0x32, 0x8caa3b9f);
  }

  lemma Check3(m: Bytes)
    requires Digits(m)
    ensures Spells(State(m[..3]), 0xef84d04d)
  {
    Check2(m);
    DigitSpells(0x33, true, true, false, false, 0x33);
    NextByte(m, 2, 0x8caa3b9f, 0x33, 0xef84d04d);
  }

  lemma Check4(m: Bytes)
    requires Digits(m)
    ensures Spells(State(m[..4]), 0x09c50b11)
  {
    Check3(m);
    DigitSpells(0x34, false, false, true, false, 0x34);
    NextByte(m, 3, 0xef84d04d, 0x34, 0x09c50b11);
  }

  lemma Check5(m: Bytes)
    requires Digits(m)
    ensures Spells(State(m[..5]), 0xe72edcca)
  {
    Check4(m);
    DigitSpells(0x35, true, false, true, false, 0x35);
    NextByte(m, 4, 0x09c50b11, 0x35, 0xe72edcca);
  }

  lemma Check6(m: Bytes)
    requires Digits(m)
    ensures Spells(State(m[..6]), 0xbeca8e79)
  {
    Check5(m);
    DigitSpells(0x36, false, true, true, false, 0x36);
    NextByte(m, 5, 0xe72edcca, 0x36, 0xbeca8e79);
  }

  lemma Check7(m: Bytes)
    requires Digits(m)
    ensures Spells(State(m[..7]), 0xedbd6815)
  {
    Check6(m);
    DigitSpells(0x37, true, true, true, false, 0x37);
    NextByte(m, 6, 0xbeca8e79, 0x37, 0xedbd6815);
  }

  lemma Check8(m: Bytes)
    requires Digits(m)
    ensures Spells(State(m[..8]), 0x9f787f65)
  {
    Check7(m);
    DigitSpells(0x38, false, false, false, true, 0x38);
    NextByte(m, 7, 0xedbd6815, 0x38, 0x9f787f65);
  }

  lemma Check9(m: Bytes)
    requires Digits(m)
    ensures Spells(State(m[..9]), 0x1cf96d7c)
  {
    Check8(m);
    DigitSpells(0x39, true, false, false, true, 0x39);
    NextByte(m, 8, 0x9f787f65, 0x39, 0x1cf96d7c);
  }

  lemma CheckOctet0()
    ensures FromBits([true, true, false, false, false, false, false, true]) == 0x83
  {
    FromEight(true, true, false, false, false, false, false, true);
  }

  lemma CheckOctet1()
    ensures FromBits([false, true, false, false, true, false, false, true]) == 0x92
  {
    FromEight(false, true, false, false, true, false, false, true);
  }

  lemma CheckOctet2()
    ensures FromBits([false, true, true, false, false, false, false, false]) == 0x06
  {
    FromEight(false, true, true, false, false, false, false, false);
  }

  lemma CheckOctet3()
    ensures FromBits([true, true, false, false, false, true, true, true]) == 0xe3
  {
    FromEight(true, true, false, false, false, true, true, true);
  }

  lemma ReadOff(r: Register)
    requires Spells(r, 0x1cf96d7c)
    ensures Complement(r) ==
      [true, true, false, false, false, false, false, true]
      + [false, true, false, false, true, false, false, true]
      + [false, true, true, false, false, false, false, false]
      + [true, true, false, false, false, true, true, true]
  {
  }

  /** The CRC32C of "123456789". */
  lemma CheckValue()
    ensures Crc(CHECK) == 0xE306_9283
  {
    Check9(CHECK);
    assert CHECK[..9] == CHECK;
    ReadOff(State(CHECK));
    CheckOctet0();
    CheckOctet1();
    CheckOctet2();
    CheckOctet3();
    FromOctets([true, true, false, false, false, false, false, true],
               [false, true, false, false, true, false, false, true],
               [false, true, true, false, false, false, false, false],
               [true, true, false, false, false, true, true, true]);
  }
}
