/** The digests that the standard publishes for its two example messages, from
    the definition of `Sha` alone. */
module Sha256Vectors {
  import opened Arith
  import opened Basics
  import opened LittleEndian
  import opened Sha256
  import opened Sha256Words
  import opened Sha256Windows

  // ---- From messages to words ---------------------------------------------

  /** The bytes of a padded message. */
  lemma PaddedByte(m: Bytes, bits: U64, k: nat)
    requires k < |m + Padding(|m|, bits)|
    ensures var z := |m| + 1 + ZeroCount(|m|);
      && |m + Padding(|m|, bits)| == z + 8
      && (m + Padding(|m|, bits))[k] ==
        if k < |m| then m[k] else if k == |m| then 0x80 else if k < z then 0 else BigEndian64(bits)[k - z]
  {
  }

  lemma {:induction false} Pow256Large(k: nat)
    requires k >= 2
    ensures Pow256(k) >= 0x1_0000
  {
    if k == 2 { assert Pow256(1) == 256; } else { Pow256Large(k - 1); }
  }

  /** The length field of a short message. */
  lemma ShortLength(n: U64, k: nat)
    requires n < 0x1_0000 && k < 8
    ensures BigEndian64(n)[k] == if k < 6 then 0 else if k == 6 then n / 256 else n % 256
  {
    if k < 6 {
      Pow256Large(7 - k);
      DivModUnique(n, Pow256(7 - k), 0, n);
    } else {
      assert Pow256(0) == 1 && Pow256(1) == 256;
    }
  }

  lemma {:induction false} ScheduleWord(block: Bytes, n: nat, i: nat)
    requires |block| == 64 && i < n <= 16
    ensures Schedule(FIPS, block, n)[i] == BlockWord(FIPS, block, i)
    decreases n
  {
    if i < n - 1 { ScheduleWord(block, n - 1, i); }
  }

  /** Word `i` of a block, by the four bytes it is made of. */
  lemma BlockWordIs(block: Bytes, i: nat, c0: bv8, c1: bv8, c2: bv8, c3: bv8, w: Word)
    requires |block| == 64 && i < 16 && w == Join(c0, c1, c2, c3)
    requires block[4 * i] == c0 as int && block[4 * i + 1] == c1 as int
    requires block[4 * i + 2] == c2 as int && block[4 * i + 3] == c3 as int
    ensures BlockWord(FIPS, block, i) == w
  {
    ByteIs(block[4 * i], c0);
    ByteIs(block[4 * i + 1], c1);
    ByteIs(block[4 * i + 2], c2);
    ByteIs(block[4 * i + 3], c3);
  }

  // ---- The constants ------------------------------------------------------

  const CONSTANTS0: Window<Word> := Window(
    0x428a2f98, 0x71374491, 0xb5c0fbcf, 0xe9b5dba5, 0x3956c25b, 0x59f111f1, 0x923f82a4, 0xab1c5ed5,
    0xd807aa98, 0x12835b01, 0x243185be, 0x550c7dc3, 0x72be5d74, 0x80deb1fe, 0x9bdc06a7, 0xc19bf174)

  const CONSTANTS8: Window<Word> := Window(
    0xd807aa98, 0x12835b01, 0x243185be, 0x550c7dc3, 0x72be5d74, 0x80deb1fe, 0x9bdc06a7, 0xc19bf174,
    0xe49b69c1, 0xefbe4786, 0x0fc19dc6, 0x240ca1cc, 0x2de92c6f, 0x4a7484aa, 0x5cb0a9dc, 0x76f988da)

  const CONSTANTS16: Window<Word> := Window(
    0xe49b69c1, 0xefbe4786, 0x0fc19dc6, 0x240ca1cc, 0x2de92c6f, 0x4a7484aa, 0x5cb0a9dc, 0x76f988da,
    0x983e5152, 0xa831c66d, 0xb00327c8, 0xbf597fc7, 0xc6e00bf3, 0xd5a79147, 0x06ca6351, 0x14292967)

  const CONSTANTS24: Window<Word> := Window(
    0x983e5152, 0xa831c66d, 0xb00327c8, 0xbf597fc7, 0xc6e00bf3, 0xd5a79147, 0x06ca6351, 0x14292967,
    0x27b70a85, 0x2e1b2138, 0x4d2c6dfc, 0x53380d13, 0x650a7354, 0x766a0abb, 0x81c2c92e, 0x92722c85)

  const CONSTANTS32: Window<Word> := Window(
    0x27b70a85, 0x2e1b2138, 0x4d2c6dfc, 0x53380d13, 0x650a7354, 0x766a0abb, 0x81c2c92e, 0x92722c85,
    0xa2bfe8a1, 0xa81a664b, 0xc24b8b70, 0xc76c51a3, 0xd192e819, 0xd6990624, 0xf40e3585, 0x106aa070)

  const CONSTANTS40: Window<Word> := Window(
    0xa2bfe8a1, 0xa81a664b, 0xc24b8b70, 0xc76c51a3, 0xd192e819, 0xd6990624, 0xf40e3585, 0x106aa070,
    0x19a4c116, 0x1e376c08, 0x2748774c, 0x34b0bcb5, 0x391c0cb3, 0x4ed8aa4a, 0x5b9cca4f, 0x682e6ff3)

  const CONSTANTS48: Window<Word> := Window(
    0x19a4c116, 0x1e376c08, 0x2748774c, 0x34b0bcb5, 0x391c0cb3, 0x4ed8aa4a, 0x5b9cca4f, 0x682e6ff3,
    0x748f82ee, 0x78a5636f, 0x84c87814, 0x8cc70208, 0x90befffa, 0xa4506ceb, 0xbef9a3f7, 0xc67178f2)

  const CONSTANTS56: Window<Word> := Window(
    0x748f82ee, 0x78a5636f, 0x84c87814, 0x8cc70208, 0x90befffa, 0xa4506ceb, 0xbef9a3f7, 0xc67178f2,
    0x00000000, 0x00000000, 0x00000000, 0x00000000, 0x00000000, 0x00000000, 0x00000000, 0x00000000)

  /** `c` has the constants of the standard. */
  ghost predicate Known(c: nat -> Window<Word>) {
    && c(0) == CONSTANTS0 && c(8) == CONSTANTS8 && c(16) == CONSTANTS16 && c(24) == CONSTANTS24
    && c(32) == CONSTANTS32 && c(40) == CONSTANTS40 && c(48) == CONSTANTS48 && c(56) == CONSTANTS56
  }

  lemma Constants0()
    ensures Constants(FIPS, 0) == CONSTANTS0
  {
  }

  lemma Constants8()
    ensures Constants(FIPS, 8) == CONSTANTS8
  {
  }

  lemma Constants16()
    ensures Constants(FIPS, 16) == CONSTANTS16
  {
  }

  lemma Constants24()
    ensures Constants(FIPS, 24) == CONSTANTS24
  {
  }

  lemma Constants32()
    ensures Constants(FIPS, 32) == CONSTANTS32
  {
  }

  lemma Constants40()
    ensures Constants(FIPS, 40) == CONSTANTS40
  {
  }

  lemma Constants48()
    ensures Constants(FIPS, 48) == CONSTANTS48
  {
  }

  lemma Constants56()
    ensures Constants(FIPS, 56) == CONSTANTS56
  {
  }

  // ---- From messages to digests -------------------------------------------

  function RoundOf(): (Hash<Word>, Word, Word) -> Hash<Word> {
    (s: Hash<Word>, k: Word, w: Word) => Round(FIPS, s, k, w)
  }

  function NextOf(): (Word, Word, Word, Word) -> Word {
    (w0: Word, w1: Word, w9: Word, w14: Word) =>
      FIPS.add(FIPS.add(FIPS.add(w0, FIPS.smallSigma0(w1)), w9), FIPS.smallSigma1(w14))
  }

  function ConstantsOf(): nat -> Window<Word> { (t: nat) => Constants(FIPS, t) }

  lemma StandardParts()
    ensures IsRound(FIPS, RoundOf()) && IsNext(FIPS, NextOf()) && IsConstants(FIPS, ConstantsOf())
  {
  }

  lemma Known0()
    ensures ConstantsOf()(0) == CONSTANTS0
  {
    Constants0();
  }

  lemma Known8()
    ensures ConstantsOf()(8) == CONSTANTS8
  {
    Constants8();
  }

  lemma Known16()
    ensures ConstantsOf()(16) == CONSTANTS16
  {
    Constants16();
  }

  lemma Known24()
    ensures ConstantsOf()(24) == CONSTANTS24
  {
    Constants24();
  }

  lemma Known32()
    ensures ConstantsOf()(32) == CONSTANTS32
  {
    Constants32();
  }

  lemma Known40()
    ensures ConstantsOf()(40) == CONSTANTS40
  {
    Constants40();
  }

  lemma Known48()
    ensures ConstantsOf()(48) == CONSTANTS48
  {
    Constants48();
  }

  lemma Known56()
    ensures ConstantsOf()(56) == CONSTANTS56
  {
    Constants56();
  }

  lemma StandardConstants()
    ensures Known(ConstantsOf())
  {
    Known0();
    Known8();
    Known16();
    Known24();
    Known32();
    Known40();
    Known48();
    Known56();
  }

  /** The first window of a block is the block itself. */
  lemma BlockStands(s: Hash<Word>, block: Bytes, v: Window<Word>)
    requires |block| == 64 && forall i :: 0 <= i < 16 ==> At(v, i) == BlockWord(FIPS, block, i)
    ensures Stands(FIPS, s, Schedule(FIPS, block, 80), 0, v, s)
  {
    SchedulePrefix(FIPS, block, 16, 80);
    forall i | 0 <= i < 16 ensures At(v, i) == Schedule(FIPS, block, 80)[0 + i] {
      ScheduleWord(block, 16, i);
    }
  }

  lemma OneBlock(s: Hash<Word>, block: Bytes)
    requires |block| == 64
    ensures Blocks(64) && Absorb(Step(FIPS), s, block) == Compress(FIPS, s, block)
  {
    assert Blocks(0);
    assert block[..64] == block && block[64..] == [];
  }

  lemma StoredWord(w: Word, b0: Byte, b1: Byte, b2: Byte, b3: Byte)
    requires Store(w) == (b0, b1, b2, b3)
    ensures WordBytes(FIPS, w) == [b0, b1, b2, b3]
  {
  }

  lemma StoredHash(s: Hash<Word>, a: Bytes, b: Bytes, c: Bytes, d: Bytes, e: Bytes, f: Bytes, g: Bytes, h: Bytes)
    requires WordBytes(FIPS, s.a) == a && WordBytes(FIPS, s.b) == b && WordBytes(FIPS, s.c) == c
    requires WordBytes(FIPS, s.d) == d && WordBytes(FIPS, s.e) == e && WordBytes(FIPS, s.f) == f
    requires WordBytes(FIPS, s.g) == g && WordBytes(FIPS, s.h) == h
    ensures HashBytes(FIPS, s) == a + b + c + d + e + f + g + h
  {
  }

  // ---- The message of one block -------------------------------------------

  const ABC_WORDS0: Window<Word> := Window(
    0x61626380, 0x00000000, 0x00000000, 0x00000000, 0x00000000, 0x00000000, 0x00000000, 0x00000000,
    0x00000000, 0x00000000, 0x00000000, 0x00000000, 0x00000000, 0x00000000, 0x00000000, 0x00000018)

  const ABC_WORDS8: Window<Word> := Window(
    0x00000000, 0x00000000, 0x00000000, 0x00000000, 0x00000000, 0x00000000, 0x00000000, 0x00000018,
    0x61626380, 0x000f0000, 0x7da86405, 0x600003c6, 0x3e9d7b78, 0x0183fc00, 0x12dcbfdb, 0xe2e2c38e)

  const ABC_WORDS16: Window<Word> := Window(
    0x61626380, 0x000f0000, 0x7da86405, 0x600003c6, 0x3e9d7b78, 0x0183fc00, 0x12dcbfdb, 0xe2e2c38e,
    0xc8215c1a, 0xb73679a2, 0xe5bc3909, 0x32663c5b, 0x9d209d67, 0xec8726cb, 0x702138a4, 0xd3b7973b)

  const ABC_WORDS24: Window<Word> := Window(
    0xc8215c1a, 0xb73679a2, 0xe5bc3909, 0x32663c5b, 0x9d209d67, 0xec8726cb, 0x702138a4, 0xd3b7973b,
    0x93f5997f, 0x3b68ba73, 0xaff4ffc1, 0xf10a5c62, 0x0a8b3996, 0x72af830a, 0x9409e33e, 0x24641522)

  const ABC_WORDS32: Window<Word> := Window(
    0x93f5997f, 0x3b68ba73, 0xaff4ffc1, 0xf10a5c62, 0x0a8b3996, 0x72af830a, 0x9409e33e, 0x24641522,
    0x9f47bf94, 0xf0a64f5a, 0x3e246a79, 0x27333ba3, 0x0c4763f2, 0x840abf27, 0x7a290d5d, 0x065c43da)

  const ABC_WORDS40: Window<Word> := Window(
    0x9f47bf94, 0xf0a64f5a, 0x3e246a79, 0x27333ba3, 0x0c4763f2, 0x840abf27, 0x7a290d5d, 0x065c43da,
    0xfb3e89cb, 0xcc7617db, 0xb9e66c34, 0xa9993667, 0x84badedd, 0xc21462bc, 0x1487472c, 0xb20f7a99)

  const ABC_WORDS48: Window<Word> := Window(
    0xfb3e89cb, 0xcc7617db, 0xb9e66c34, 0xa9993667, 0x84badedd, 0xc21462bc, 0x1487472c, 0xb20f7a99,
    0xef57b9cd, 0xebe6b238, 0x9fe3095e, 0x78bc8d4b, 0xa43fcf15, 0x668b2ff8, 0xeeaba2cc, 0x12b1edeb)

  const ABC_WORDS56: Window<Word> := Window(
    0xef57b9cd, 0xebe6b238, 0x9fe3095e, 0x78bc8d4b, 0xa43fcf15, 0x668b2ff8, 0xeeaba2cc, 0x12b1edeb,
    0xb80a5a34, 0x1ce797d5, 0x310fc1d7, 0xa31968ce, 0x7d8ce042, 0xd5892c87, 0x0ef2e48b, 0x86476aaa)

  const ABC_WORDS64: Window<Word> := Window(
    0xb80a5a34, 0x1ce797d5, 0x310fc1d7, 0xa31968ce, 0x7d8ce042, 0xd5892c87, 0x0ef2e48b, 0x86476aaa,
    0xfb3bcd9a, 0xe1abf701, 0x9cf194d1, 0x47ad031d, 0xaa812721, 0x04360d9c, 0xdb5ae899, 0xbe66bc93)

  const ABC_HASH8: Hash<Word> := Hash(
    0x85a07b5f, 0xe5030380, 0x2b4209f5, 0x04409a6a, 0x0c657a79, 0x9b27a401, 0x714260ad, 0x43ada245)

  const ABC_HASH16: Hash<Word> := Hash(
    0xb0fa238e, 0xc0645fde, 0xd932eb16, 0x87912990, 0x07590dcd, 0x0b92f20c, 0x745a48de, 0x1e578218)

  const ABC_HASH24: Hash<Word> := Hash(
    0xc5d53d8d, 0xa7a3623f, 0xc2606d6d, 0x9dc68b63, 0xaa47c347, 0x49f5114a, 0xe1257970, 0x8ada8930)

  const ABC_HASH32: Hash<Word> := Hash(
    0x73b33bf5, 0xea992a22, 0xa0060b30, 0x363482c9, 0xba591112, 0x0109ab3a, 0xade79437, 0x6112a3b7)

  const ABC_HASH40: Hash<Word> := Hash(
    0x79ea687a, 0x6dc57a8a, 0x34df1604, 0x41a65cb1, 0x1efbc0a0, 0xf0781bc8, 0xa507a53d, 0x0772a26b)

  const ABC_HASH48: Hash<Word> := Hash(
    0x4172328d, 0xa14c14b0, 0x72ab4b91, 0x26628815, 0xfecf0bc6, 0xd57b94a9, 0xb7755da1, 0xa80f11f0)

  const ABC_HASH56: Hash<Word> := Hash(
    0x38cc9913, 0x3ec45cdb, 0xf5702fdb, 0x101fd28f, 0x54cb266b, 0xe50e1b4f, 0x9f4787c3, 0x529e7d00)

  const ABC_HASH64: Hash<Word> := Hash(
    0x506e3058, 0xd39a2165, 0x04d24d6c, 0xb85e2ce9, 0x5ef50f24, 0xfb121210, 0x948d25b6, 0x961f4894)

  lemma AbcFrom0(f: (Hash<Word>, Word, Word) -> Hash<Word>, g: (Word, Word, Word, Word) -> Word,
                c: nat -> Window<Word>, w: seq<Word>)
    requires IsRound(FIPS, f) && IsNext(FIPS, g) && IsConstants(FIPS, c) && c(0) == CONSTANTS0
    requires Follows(g, w) && Stands(FIPS, IV, w, 0, ABC_WORDS0, IV)
    ensures Stands(FIPS, IV, w, 8, ABC_WORDS8, ABC_HASH8)
  {
    ComputedStride(f, g, c, IV, w, 0, 8, ABC_WORDS8, ABC_HASH8,
                   0x6a09e667, 0xbb67ae85, 0x3c6ef372, 0xa54ff53a, 0x510e527f, 0x9b05688c, 0x1f83d9ab, 0x5be0cd19,
                   0x61626380, 0x00000000, 0x00000000, 0x00000000, 0x00000000, 0x00000000, 0x00000000, 0x00000000,
                   0x00000000, 0x00000000, 0x00000000, 0x00000000, 0x00000000, 0x00000000, 0x00000000, 0x00000018,
                   0x428a2f98, 0x71374491, 0xb5c0fbcf, 0xe9b5dba5, 0x3956c25b, 0x59f111f1, 0x923f82a4, 0xab1c5ed5,
                   0xd807aa98, 0x12835b01, 0x243185be, 0x550c7dc3, 0x72be5d74, 0x80deb1fe, 0x9bdc06a7, 0xc19bf174);
  }

  lemma AbcFrom8(f: (Hash<Word>, Word, Word) -> Hash<Word>, g: (Word, Word, Word, Word) -> Word,
                c: nat -> Window<Word>, w: seq<Word>)
    requires IsRound(FIPS, f) && IsNext(FIPS, g) && IsConstants(FIPS, c) && c(8) == CONSTANTS8
    requires Follows(g, w) && Stands(FIPS, IV, w, 8, ABC_WORDS8, ABC_HASH8)
    ensures Stands(FIPS, IV, w, 16, ABC_WORDS16, ABC_HASH16)
  {
    ComputedStride(f, g, c, IV, w, 8, 8, ABC_WORDS16, ABC_HASH16,
                   0x85a07b5f, 0xe5030380, 0x2b4209f5, 0x04409a6a, 0x0c657a79, 0x9b27a401, 0x714260ad, 0x43ada245,
                   0x00000000, 0x00000000, 0x00000000, 0x00000000, 0x00000000, 0x00000000, 0x00000000, 0x00000018,
                   0x61626380, 0x000f0000, 0x7da86405, 0x600003c6, 0x3e9d7b78, 0x0183fc00, 0x12dcbfdb, 0xe2e2c38e,
                   0xd807aa98, 0x12835b01, 0x243185be, 0x550c7dc3, 0x72be5d74, 0x80deb1fe, 0x9bdc06a7, 0xc19bf174,
                   0xe49b69c1, 0xefbe4786, 0x0fc19dc6, 0x240ca1cc, 0x2de92c6f, 0x4a7484aa, 0x5cb0a9dc, 0x76f988da);
  }

  lemma AbcFrom16(f: (Hash<Word>, Word, Word) -> Hash<Word>, g: (Word, Word, Word, Word) -> Word,
                c: nat -> Window<Word>, w: seq<Word>)
    requires IsRound(FIPS, f) && IsNext(FIPS, g) && IsConstants(FIPS, c) && c(16) == CONSTANTS16
    requires Follows(g, w) && Stands(FIPS, IV, w, 16, ABC_WORDS16, ABC_HASH16)
    ensures Stands(FIPS, IV, w, 24, ABC_WORDS24, ABC_HASH24)
  {
    ComputedStride(f, g, c, IV, w, 16, 8, ABC_WORDS24, ABC_HASH24,
                   0xb0fa238e, 0xc0645fde, 0xd932eb16, 0x87912990, 0x07590dcd, 0x0b92f20c, 0x745a48de, 0x1e578218,
                   0x61626380, 0x000f0000, 0x7da86405, 0x600003c6, 0x3e9d7b78, 0x0183fc00, 0x12dcbfdb, 0xe2e2c38e,
                   0xc8215c1a, 0xb73679a2, 0xe5bc3909, 0x32663c5b, 0x9d209d67, 0xec8726cb, 0x702138a4, 0xd3b7973b,
                   0xe49b69c1, 0xefbe4786, 0x0fc19dc6, 0x240ca1cc, 0x2de92c6f, 0x4a7484aa, 0x5cb0a9dc, 0x76f988da,
                   0x983e5152, 0xa831c66d, 0xb00327c8, 0xbf597fc7, 0xc6e00bf3, 0xd5a79147, 0x06ca6351, 0x14292967);
  }

  lemma AbcFrom24(f: (Hash<Word>, Word, Word) -> Hash<Word>, g: (Word, Word, Word, Word) -> Word,
                c: nat -> Window<Word>, w: seq<Word>)
    requires IsRound(FIPS, f) && IsNext(FIPS, g) && IsConstants(FIPS, c) && c(24) == CONSTANTS24
    requires Follows(g, w) && Stands(FIPS, IV, w, 24, ABC_WORDS24, ABC_HASH24)
    ensures Stands(FIPS, IV, w, 32, ABC_WORDS32, ABC_HASH32)
  {
    ComputedStride(f, g, c, IV, w, 24, 8, ABC_WORDS32, ABC_HASH32,
                   0xc5d53d8d, 0xa7a3623f, 0xc2606d6d, 0x9dc68b63, 0xaa47c347, 0x49f5114a, 0xe1257970, 0x8ada8930,
                   0xc8215c1a, 0xb73679a2, 0xe5bc3909, 0x32663c5b, 0x9d209d67, 0xec8726cb, 0x702138a4, 0xd3b7973b,
                   0x93f5997f, 0x3b68ba73, 0xaff4ffc1, 0xf10a5c62, 0x0a8b3996, 0x72af830a, 0x9409e33e, 0x24641522,
                   0x983e5152, 0xa831c66d, 0xb00327c8, 0xbf597fc7, 0xc6e00bf3, 0xd5a79147, 0x06ca6351, 0x14292967,
                   0x27b70a85, 0x2e1b2138, 0x4d2c6dfc, 0x53380d13, 0x650a7354, 0x766a0abb, 0x81c2c92e, 0x92722c85);
  }

  lemma AbcFrom32(f: (Hash<Word>, Word, Word) -> Hash<Word>, g: (Word, Word, Word, Word) -> Word,
                c: nat -> Window<Word>, w: seq<Word>)
    requires IsRound(FIPS, f) && IsNext(FIPS, g) && IsConstants(FIPS, c) && c(32) == CONSTANTS32
    requires Follows(g, w) && Stands(FIPS, IV, w, 32, ABC_WORDS32, ABC_HASH32)
    ensures Stands(FIPS, IV, w, 40, ABC_WORDS40, ABC_HASH40)
  {
    ComputedStride(f, g, c, IV, w, 32, 8, ABC_WORDS40, ABC_HASH40,
                   0x73b33bf5, 0xea992a22, 0xa0060b30, 0x363482c9, 0xba591112, 0x0109ab3a, 0xade79437, 0x6112a3b7,
                   0x93f5997f, 0x3b68ba73, 0xaff4ffc1, 0xf10a5c62, 0x0a8b3996, 0x72af830a, 0x9409e33e, 0x24641522,
                   0x9f47bf94, 0xf0a64f5a, 0x3e246a79, 0x27333ba3, 0x0c4763f2, 0x840abf27, 0x7a290d5d, 0x065c43da,
                   0x27b70a85, 0x2e1b2138, 0x4d2c6dfc, 0x53380d13, 0x650a7354, 0x766a0abb, 0x81c2c92e, 0x92722c85,
                   0xa2bfe8a1, 0xa81a664b, 0xc24b8b70, 0xc76c51a3, 0xd192e819, 0xd6990624, 0xf40e3585, 0x106aa070);
  }

  lemma AbcFrom40(f: (Hash<Word>, Word, Word) -> Hash<Word>, g: (Word, Word, Word, Word) -> Word,
                c: nat -> Window<Word>, w: seq<Word>)
    requires IsRound(FIPS, f) && IsNext(FIPS, g) && IsConstants(FIPS, c) && c(40) == CONSTANTS40
    requires Follows(g, w) && Stands(FIPS, IV, w, 40, ABC_WORDS40, ABC_HASH40)
    ensures Stands(FIPS, IV, w, 48, ABC_WORDS48, ABC_HASH48)
  {
    ComputedStride(f, g, c, IV, w, 40, 8, ABC_WORDS48, ABC_HASH48,
                   0x79ea687a, 0x6dc57a8a, 0x34df1604, 0x41a65cb1, 0x1efbc0a0, 0xf0781bc8, 0xa507a53d, 0x0772a26b,
                   0x9f47bf94, 0xf0a64f5a, 0x3e246a79, 0x27333ba3, 0x0c4763f2, 0x840abf27, 0x7a290d5d, 0x065c43da,
                   0xfb3e89cb, 0xcc7617db, 0xb9e66c34, 0xa9993667, 0x84badedd, 0xc21462bc, 0x1487472c, 0xb20f7a99,
                   0xa2bfe8a1, 0xa81a664b, 0xc24b8b70, 0xc76c51a3, 0xd192e819, 0xd6990624, 0xf40e3585, 0x106aa070,
                   0x19a4c116, 0x1e376c08, 0x2748774c, 0x34b0bcb5, 0x391c0cb3, 0x4ed8aa4a, 0x5b9cca4f, 0x682e6ff3);
  }

  lemma AbcFrom48(f: (Hash<Word>, Word, Word) -> Hash<Word>, g: (Word, Word, Word, Word) -> Word,
                c: nat -> Window<Word>, w: seq<Word>)
    requires IsRound(FIPS, f) && IsNext(FIPS, g) && IsConstants(FIPS, c) && c(48) == CONSTANTS48
    requires Follows(g, w) && Stands(FIPS, IV, w, 48, ABC_WORDS48, ABC_HASH48)
    ensures Stands(FIPS, IV, w, 56, ABC_WORDS56, ABC_HASH56)
  {
    ComputedStride(f, g, c, IV, w, 48, 8, ABC_WORDS56, ABC_HASH56,
                   0x4172328d, 0xa14c14b0, 0x72ab4b91, 0x26628815, 0xfecf0bc6, 0xd57b94a9, 0xb7755da1, 0xa80f11f0,
                   0xfb3e89cb, 0xcc7617db, 0xb9e66c34, 0xa9993667, 0x84badedd, 0xc21462bc, 0x1487472c, 0xb20f7a99,
                   0xef57b9cd, 0xebe6b238, 0x9fe3095e, 0x78bc8d4b, 0xa43fcf15, 0x668b2ff8, 0xeeaba2cc, 0x12b1edeb,
                   0x19a4c116, 0x1e376c08, 0x2748774c, 0x34b0bcb5, 0x391c0cb3, 0x4ed8aa4a, 0x5b9cca4f, 0x682e6ff3,
                   0x748f82ee, 0x78a5636f, 0x84c87814, 0x8cc70208, 0x90befffa, 0xa4506ceb, 0xbef9a3f7, 0xc67178f2);
  }

  lemma AbcFrom56(f: (Hash<Word>, Word, Word) -> Hash<Word>, g: (Word, Word, Word, Word) -> Word,
                c: nat -> Window<Word>, w: seq<Word>)
    requires IsRound(FIPS, f) && IsNext(FIPS, g) && IsConstants(FIPS, c) && c(56) == CONSTANTS56
    requires Follows(g, w) && Stands(FIPS, IV, w, 56, ABC_WORDS56, ABC_HASH56)
    ensures Stands(FIPS, IV, w, 64, ABC_WORDS64, ABC_HASH64)
  {
    ComputedStride(f, g, c, IV, w, 56, 8, ABC_WORDS64, ABC_HASH64,
                   0x38cc9913, 0x3ec45cdb, 0xf5702fdb, 0x101fd28f, 0x54cb266b, 0xe50e1b4f, 0x9f4787c3, 0x529e7d00,
                   0xef57b9cd, 0xebe6b238, 0x9fe3095e, 0x78bc8d4b, 0xa43fcf15, 0x668b2ff8, 0xeeaba2cc, 0x12b1edeb,
                   0xb80a5a34, 0x1ce797d5, 0x310fc1d7, 0xa31968ce, 0x7d8ce042, 0xd5892c87, 0x0ef2e48b, 0x86476aaa,
                   0x748f82ee, 0x78a5636f, 0x84c87814, 0x8cc70208, 0x90befffa, 0xa4506ceb, 0xbef9a3f7, 0xc67178f2,
                   0x00000000, 0x00000000, 0x00000000, 0x00000000, 0x00000000, 0x00000000, 0x00000000, 0x00000000);
  }

  lemma AbcRounds(f: (Hash<Word>, Word, Word) -> Hash<Word>, g: (Word, Word, Word, Word) -> Word,
                c: nat -> Window<Word>, w: seq<Word>)
    requires IsRound(FIPS, f) && IsNext(FIPS, g) && IsConstants(FIPS, c) && Known(c)
    requires Follows(g, w) && Stands(FIPS, IV, w, 0, ABC_WORDS0, IV)
    ensures Stands(FIPS, IV, w, 64, ABC_WORDS64, ABC_HASH64)
  {
    AbcFrom0(f, g, c, w);
    AbcFrom8(f, g, c, w);
    AbcFrom16(f, g, c, w);
    AbcFrom24(f, g, c, w);
    AbcFrom32(f, g, c, w);
    AbcFrom40(f, g, c, w);
    AbcFrom48(f, g, c, w);
    AbcFrom56(f, g, c, w);
  }

  const ABC_DIGEST: Hash<Word> := Hash(
    0xba7816bf, 0x8f01cfea, 0x414140de, 0x5dae2223, 0xb00361a3, 0x96177a9c, 0xb410ff61, 0xf20015ad)

  lemma AbcSum()
    ensures Added(FIPS, IV, ABC_HASH64) == ABC_DIGEST
  {
    AddIs(0x6a09e667, 0x506e3058);
    AddIs(0xbb67ae85, 0xd39a2165);
    AddIs(0x3c6ef372, 0x04d24d6c);
    AddIs(0xa54ff53a, 0xb85e2ce9);
    AddIs(0x510e527f, 0x5ef50f24);
    AddIs(0x9b05688c, 0xfb121210);
    AddIs(0x1f83d9ab, 0x948d25b6);
    AddIs(0x5be0cd19, 0x961f4894);
  }

  const ABC_BYTES: Bytes :=
    [0xba, 0x78, 0x16, 0xbf] + [0x8f, 0x01, 0xcf, 0xea] + [0x41, 0x41, 0x40, 0xde] + [0x5d, 0xae, 0x22, 0x23]
    + [0xb0, 0x03, 0x61, 0xa3] + [0x96, 0x17, 0x7a, 0x9c] + [0xb4, 0x10, 0xff, 0x61] + [0xf2, 0x00, 0x15, 0xad]

  lemma AbcBytes()
    ensures HashBytes(FIPS, ABC_DIGEST) == ABC_BYTES
  {
    StoredWord(0xba7816bf, 0xba, 0x78, 0x16, 0xbf);
    StoredWord(0x8f01cfea, 0x8f, 0x01, 0xcf, 0xea);
    StoredWord(0x414140de, 0x41, 0x41, 0x40, 0xde);
    StoredWord(0x5dae2223, 0x5d, 0xae, 0x22, 0x23);
    StoredWord(0xb00361a3, 0xb0, 0x03, 0x61, 0xa3);
    StoredWord(0x96177a9c, 0x96, 0x17, 0x7a, 0x9c);
    StoredWord(0xb410ff61, 0xb4, 0x10, 0xff, 0x61);
    StoredWord(0xf20015ad, 0xf2, 0x00, 0x15, 0xad);
    StoredHash(ABC_DIGEST,
               [0xba, 0x78, 0x16, 0xbf], [0x8f, 0x01, 0xcf, 0xea], [0x41, 0x41, 0x40, 0xde], [0x5d, 0xae, 0x22, 0x23],
               [0xb0, 0x03, 0x61, 0xa3], [0x96, 0x17, 0x7a, 0x9c], [0xb4, 0x10, 0xff, 0x61], [0xf2, 0x00, 0x15, 0xad]);
  }

  /** The message "abc". */
  const ABC: Bytes := [0x61, 0x62, 0x63]

  lemma AbcByte(k: nat)
    requires k < 64
    ensures |ABC + Padding(3, 24)| == 64
    ensures (ABC + Padding(3, 24))[k] == if k < 3 then ABC[k] else if k == 3 then 0x80 else if k < 63 then 0 else 24
  {
    PaddedByte(ABC, 24, k);
    if k >= 56 { ShortLength(24, k - 56); }
  }

  lemma AbcWord(i: nat)
    requires i < 16
    ensures |ABC + Padding(3, 24)| == 64 && At(ABC_WORDS0, i) == BlockWord(FIPS, ABC + Padding(3, 24), i)
  {
    var block := ABC + Padding(3, 24);
    AbcByte(4 * i);
    AbcByte(4 * i + 1);
    AbcByte(4 * i + 2);
    AbcByte(4 * i + 3);
    if i == 0 {
      BlockWordIs(block, i, 0x61, 0x62, 0x63, 0x80, 0x61626380);
    } else if i == 15 {
      BlockWordIs(block, i, 0, 0, 0, 0x18, 0x18);
    } else {
      BlockWordIs(block, i, 0, 0, 0, 0, 0);
    }
  }

  lemma AbcCompress()
    ensures |ABC + Padding(3, 24)| == 64 && Compress(FIPS, IV, ABC + Padding(3, 24)) == ABC_DIGEST
  {
    var block := ABC + Padding(3, 24);
    forall i | 0 <= i < 16 ensures |block| == 64 && At(ABC_WORDS0, i) == BlockWord(FIPS, block, i) { AbcWord(i); }
    AbcByte(0);
    BlockStands(IV, block, ABC_WORDS0);
    StandardParts();
    StandardConstants();
    ScheduleFollows(FIPS, NextOf(), block, 80, Schedule(FIPS, block, 80));
    AbcRounds(RoundOf(), NextOf(), ConstantsOf(), Schedule(FIPS, block, 80));
    CompressStands(FIPS, IV, block, ABC_WORDS64, ABC_HASH64);
    AbcSum();
  }

  /** The digest of "abc". */
  lemma AbcDigest()
    ensures Sha(ABC) == ABC_BYTES
  {
    AbcCompress();
    OneBlock(IV, ABC + Padding(3, 24));
    AbcBytes();
  }

  // ---- The message of two blocks ------------------------------------------

  const LEFT_WORDS0: Window<Word> := Window(
    0x61626364, 0x62636465, 0x63646566, 0x64656667, 0x65666768, 0x66676869, 0x6768696a, 0x68696a6b,
    0x696a6b6c, 0x6a6b6c6d, 0x6b6c6d6e, 0x6c6d6e6f, 0x6d6e6f70, 0x6e6f7071, 0x80000000, 0x00000000)

  const LEFT_WORDS8: Window<Word> := Window(
    0x696a6b6c, 0x6a6b6c6d, 0x6b6c6d6e, 0x6c6d6e6f, 0x6d6e6f70, 0x6e6f7071, 0x80000000, 0x00000000,
    0xeb8012ad, 0xa7c3ae92, 0x76e93ba2, 0xba42e743, 0x92a92204, 0xd847e75e, 0x9e160036, 0xb280a7cb)

  const LEFT_WORDS16: Window<Word> := Window(
    0xeb8012ad, 0xa7c3ae92, 0x76e93ba2, 0xba42e743, 0x92a92204, 0xd847e75e, 0x9e160036, 0xb280a7cb,
    0xddeb1516, 0xf36586f4, 0x969cd048, 0xe959d99d, 0x6accc0ec, 0xf54cb098, 0x2af1b2da, 0xee59c4c9)

  const LEFT_WORDS24: Window<Word> := Window(
    0xddeb1516, 0xf36586f4, 0x969cd048, 0xe959d99d, 0x6accc0ec, 0xf54cb098, 0x2af1b2da, 0xee59c4c9,
    0xa835e16a, 0x1dff4429, 0xd6e15959, 0xc397cd6e, 0x6f1801ca, 0x21574205, 0x35ff7a84, 0x9743ee78)

  const LEFT_WORDS32: Window<Word> := Window(
    0xa835e16a, 0x1dff4429, 0xd6e15959, 0xc397cd6e, 0x6f1801ca, 0x21574205, 0x35ff7a84, 0x9743ee78,
    0xe44183e7, 0x0d09f00d, 0x9c89af54, 0x042d5bef, 0x71f134d0, 0x0f94f463, 0x7e49dc63, 0x6f65c997)

  const LEFT_WORDS40: Window<Word> := Window(
    0xe44183e7, 0x0d09f00d, 0x9c89af54, 0x042d5bef, 0x71f134d0, 0x0f94f463, 0x7e49dc63, 0x6f65c997,
    0x0b706583, 0x179312ca, 0x503054e9, 0xba125c39, 0x7e9392c9, 0xd5cbaa1e, 0x78e0585d, 0xf6e7611c)

  const LEFT_WORDS48: Window<Word> := Window(
    0x0b706583, 0x179312ca, 0x503054e9, 0xba125c39, 0x7e9392c9, 0xd5cbaa1e, 0x78e0585d, 0xf6e7611c,
    0x8ac830ce, 0x8b47a303, 0xfd6e627f, 0x8c6e2c6a, 0x4001adf1, 0x1a3dd097, 0xa9df6f62, 0x6aa60a39)

  const LEFT_WORDS56: Window<Word> := Window(
    0x8ac830ce, 0x8b47a303, 0xfd6e627f, 0x8c6e2c6a, 0x4001adf1, 0x1a3dd097, 0xa9df6f62, 0x6aa60a39,
    0x439f402d, 0xa6dee506, 0x17da717a, 0x21bb450f, 0xdcfe7a4f, 0xedd3c93e, 0xd555ac6c, 0x5889b5b4)

  const LEFT_WORDS64: Window<Word> := Window(
    0x439f402d, 0xa6dee506, 0x17da717a, 0x21bb450f, 0xdcfe7a4f, 0xedd3c93e, 0xd555ac6c, 0x5889b5b4,
    0x93f45536, 0x08658985, 0x0ed2c8ed, 0x615949fa, 0xc494106c, 0x891ea11d, 0x8983dcec, 0x062917d5)

  const LEFT_HASH8: Hash<Word> := Hash(
    0xd237e6db, 0x485835b7, 0x55c8ef48, 0xf921c212, 0xa401d211, 0x39a5b2ca, 0x7ff91c94, 0x05c4f88a)

  const LEFT_HASH16: Hash<Word> := Hash(
    0xc3486194, 0xdd16cbb3, 0xd68e6457, 0x101a4861, 0x1496a54f, 0x9162aded, 0x9243f8af, 0x839a0fc9)

  const LEFT_HASH24: Hash<Word> := Hash(
    0x59fce6b9, 0xae2e2d4f, 0x1b2b66b8, 0xd70ac17d, 0xa2c7d51d, 0xf074fc95, 0xd560b028, 0x7cc6b262)

  const LEFT_HASH32: Hash<Word> := Hash(
    0x5581ab07, 0xeb43f3ed, 0xdf7151a0, 0x74bcf468, 0xdf980085, 0x0635d880, 0x7629c961, 0x72abaecd)

  const LEFT_HASH40: Hash<Word> := Hash(
    0x7e4d30b8, 0x91ac9d5d, 0xa985b4be, 0x2c55d3a6, 0x9f5b9b6d, 0x68d8d590, 0xf72bf353, 0xb067c1af)

  const LEFT_HASH48: Hash<Word> := Hash(
    0x13d82741, 0x165be9cd, 0x18f0d19d, 0xde71e2f2, 0xa7802a4d, 0xa483f080, 0x6b88472c, 0xff61c636)

  const LEFT_HASH56: Hash<Word> := Hash(
    0x9e57c4a0, 0xf907b313, 0x1d6de87a, 0xb8d55619, 0xeec13548, 0x61a41711, 0x3443bed4, 0x1c806a61)

  const LEFT_HASH64: Hash<Word> := Hash(
    0x1bdc6f6f, 0x86126910, 0xf6f443f8, 0xbcfce922, 0x25d2430a, 0x2fc08f85, 0xacc75916, 0x962d8621)

  lemma LeftFrom0(f: (Hash<Word>, Word, Word) -> Hash<Word>, g: (Word, Word, Word, Word) -> Word,
                c: nat -> Window<Word>, w: seq<Word>)
    requires IsRound(FIPS, f) && IsNext(FIPS, g) && IsConstants(FIPS, c) && c(0) == CONSTANTS0
    requires Follows(g, w) && Stands(FIPS, IV, w, 0, LEFT_WORDS0, IV)
    ensures Stands(FIPS, IV, w, 8, LEFT_WORDS8, LEFT_HASH8)
  {
    ComputedStride(f, g, c, IV, w, 0, 8, LEFT_WORDS8, LEFT_HASH8,
                   0x6a09e667, 0xbb67ae85, 0x3c6ef372, 0xa54ff53a, 0x510e527f, 0x9b05688c, 0x1f83d9ab, 0x5be0cd19,
                   0x61626364, 0x62636465, 0x63646566, 0x64656667, 0x65666768, 0x66676869, 0x6768696a, 0x68696a6b,
                   0x696a6b6c, 0x6a6b6c6d, 0x6b6c6d6e, 0x6c6d6e6f, 0x6d6e6f70, 0x6e6f7071, 0x80000000, 0x00000000,
                   0x428a2f98, 0x71374491, 0xb5c0fbcf, 0xe9b5dba5, 0x3956c25b, 0x59f111f1, 0x923f82a4, 0xab1c5ed5,
                   0xd807aa98, 0x12835b01, 0x243185be, 0x550c7dc3, 0x72be5d74, 0x80deb1fe, 0x9bdc06a7, 0xc19bf174);
  }

  lemma LeftFrom8(f: (Hash<Word>, Word, Word) -> Hash<Word>, g: (Word, Word, Word, Word) -> Word,
                c: nat -> Window<Word>, w: seq<Word>)
    requires IsRound(FIPS, f) && IsNext(FIPS, g) && IsConstants(FIPS, c) && c(8) == CONSTANTS8
    requires Follows(g, w) && Stands(FIPS, IV, w, 8, LEFT_WORDS8, LEFT_HASH8)
    ensures Stands(FIPS, IV, w, 16, LEFT_WORDS16, LEFT_HASH16)
  {
    ComputedStride(f, g, c, IV, w, 8, 8, LEFT_WORDS16, LEFT_HASH16,
                   0xd237e6db, 0x485835b7, 0x55c8ef48, 0xf921c212, 0xa401d211, 0x39a5b2ca, 0x7ff91c94, 0x05c4f88a,
                   0x696a6b6c, 0x6a6b6c6d, 0x6b6c6d6e, 0x6c6d6e6f, 0x6d6e6f70, 0x6e6f7071, 0x80000000, 0x00000000,
                   0xeb8012ad, 0xa7c3ae92, 0x76e93ba2, 0xba42e743, 0x92a92204, 0xd847e75e, 0x9e160036, 0xb280a7cb,
                   0xd807aa98, 0x12835b01, 0x243185be, 0x550c7dc3, 0x72be5d74, 0x80deb1fe, 0x9bdc06a7, 0xc19bf174,
                   0xe49b69c1, 0xefbe4786, 0x0fc19dc6, 0x240ca1cc, 0x2de92c6f, 0x4a7484aa, 0x5cb0a9dc, 0x76f988da);
  }

  lemma LeftFrom16(f: (Hash<Word>, Word, Word) -> Hash<Word>, g: (Word, Word, Word, Word) -> Word,
                c: nat -> Window<Word>, w: seq<Word>)
    requires IsRound(FIPS, f) && IsNext(FIPS, g) && IsConstants(FIPS, c) && c(16) == CONSTANTS16
    requires Follows(g, w) && Stands(FIPS, IV, w, 16, LEFT_WORDS16, LEFT_HASH16)
    ensures Stands(FIPS, IV, w, 24, LEFT_WORDS24, LEFT_HASH24)
  {
    ComputedStride(f, g, c, IV, w, 16, 8, LEFT_WORDS24, LEFT_HASH24,
                   0xc3486194, 0xdd16cbb3, 0xd68e6457, 0x101a4861, 0x1496a54f, 0x9162aded, 0x9243f8af, 0x839a0fc9,
                   0xeb8012ad, 0xa7c3ae92, 0x76e93ba2, 0xba42e743, 0x92a92204, 0xd847e75e, 0x9e160036, 0xb280a7cb,
                   0xddeb1516, 0xf36586f4, 0x969cd048, 0xe959d99d, 0x6accc0ec, 0xf54cb098, 0x2af1b2da, 0xee59c4c9,
                   0xe49b69c1, 0xefbe4786, 0x0fc19dc6, 0x240ca1cc, 0x2de92c6f, 0x4a7484aa, 0x5cb0a9dc, 0x76f988da,
                   0x983e5152, 0xa831c66d, 0xb00327c8, 0xbf597fc7, 0xc6e00bf3, 0xd5a79147, 0x06ca6351, 0x14292967);
  }

  lemma LeftFrom24(f: (Hash<Word>, Word, Word) -> Hash<Word>, g: (Word, Word, Word, Word) -> Word,
                c: nat -> Window<Word>, w: seq<Word>)
    requires IsRound(FIPS, f) && IsNext(FIPS, g) && IsConstants(FIPS, c) && c(24) == CONSTANTS24
    requires Follows(g, w) && Stands(FIPS, IV, w, 24, LEFT_WORDS24, LEFT_HASH24)
    ensures Stands(FIPS, IV, w, 32, LEFT_WORDS32, LEFT_HASH32)
  {
    ComputedStride(f, g, c, IV, w, 24, 8, LEFT_WORDS32, LEFT_HASH32,
                   0x59fce6b9, 0xae2e2d4f, 0x1b2b66b8, 0xd70ac17d, 0xa2c7d51d, 0xf074fc95, 0xd560b028, 0x7cc6b262,
                   0xddeb1516, 0xf36586f4, 0x969cd048, 0xe959d99d, 0x6accc0ec, 0xf54cb098, 0x2af1b2da, 0xee59c4c9,
                   0xa835e16a, 0x1dff4429, 0xd6e15959, 0xc397cd6e, 0x6f1801ca, 0x21574205, 0x35ff7a84, 0x9743ee78,
                   0x983e5152, 0xa831c66d, 0xb00327c8, 0xbf597fc7, 0xc6e00bf3, 0xd5a79147, 0x06ca6351, 0x14292967,
                   0x27b70a85, 0x2e1b2138, 0x4d2c6dfc, 0x53380d13, 0x650a7354, 0x766a0abb, 0x81c2c92e, 0x92722c85);
  }

  lemma LeftFrom32(f: (Hash<Word>, Word, Word) -> Hash<Word>, g: (Word, Word, Word, Word) -> Word,
                c: nat -> Window<Word>, w: seq<Word>)
    requires IsRound(FIPS, f) && IsNext(FIPS, g) && IsConstants(FIPS, c) && c(32) == CONSTANTS32
    requires Follows(g, w) && Stands(FIPS, IV, w, 32, LEFT_WORDS32, LEFT_HASH32)
    ensures Stands(FIPS, IV, w, 40, LEFT_WORDS40, LEFT_HASH40)
  {
    ComputedStride(f, g, c, IV, w, 32, 8, LEFT_WORDS40, LEFT_HASH40,
                   0x5581ab07, 0xeb43f3ed, 0xdf7151a0, 0x74bcf468, 0xdf980085, 0x0635d880, 0x7629c961, 0x72abaecd,
                   0xa835e16a, 0x1dff4429, 0xd6e15959, 0xc397cd6e, 0x6f1801ca, 0x21574205, 0x35ff7a84, 0x9743ee78,
                   0xe44183e7, 0x0d09f00d, 0x9c89af54, 0x042d5bef, 0x71f134d0, 0x0f94f463, 0x7e49dc63, 0x6f65c997,
                   0x27b70a85, 0x2e1b2138, 0x4d2c6dfc, 0x53380d13, 0x650a7354, 0x766a0abb, 0x81c2c92e, 0x92722c85,
                   0xa2bfe8a1, 0xa81a664b, 0xc24b8b70, 0xc76c51a3, 0xd192e819, 0xd6990624, 0xf40e3585, 0x106aa070);
  }

  lemma LeftFrom40(f: (Hash<Word>, Word, Word) -> Hash<Word>, g: (Word, Word, Word, Word) -> Word,
                c: nat -> Window<Word>, w: seq<Word>)
    requires IsRound(FIPS, f) && IsNext(FIPS, g) && IsConstants(FIPS, c) && c(40) == CONSTANTS40
    requires Follows(g, w) && Stands(FIPS, IV, w, 40, LEFT_WORDS40, LEFT_HASH40)
    ensures Stands(FIPS, IV, w, 48, LEFT_WORDS48, LEFT_HASH48)
  {
    ComputedStride(f, g, c, IV, w, 40, 8, LEFT_WORDS48, LEFT_HASH48,
                   0x7e4d30b8, 0x91ac9d5d, 0xa985b4be, 0x2c55d3a6, 0x9f5b9b6d, 0x68d8d590, 0xf72bf353, 0xb067c1af,
                   0xe44183e7, 0x0d09f00d, 0x9c89af54, 0x042d5bef, 0x71f134d0, 0x0f94f463, 0x7e49dc63, 0x6f65c997,
                   0x0b706583, 0x179312ca, 0x503054e9, 0xba125c39, 0x7e9392c9, 0xd5cbaa1e, 0x78e0585d, 0xf6e7611c,
                   0xa2bfe8a1, 0xa81a664b, 0xc24b8b70, 0xc76c51a3, 0xd192e819, 0xd6990624, 0xf40e3585, 0x106aa070,
                   0x19a4c116, 0x1e376c08, 0x2748774c, 0x34b0bcb5, 0x391c0cb3, 0x4ed8aa4a, 0x5b9cca4f, 0x682e6ff3);
  }

  lemma LeftFrom48(f: (Hash<Word>, Word, Word) -> Hash<Word>, g: (Word, Word, Word, Word) -> Word,
                c: nat -> Window<Word>, w: seq<Word>)
    requires IsRound(FIPS, f) && IsNext(FIPS, g) && IsConstants(FIPS, c) && c(48) == CONSTANTS48
    requires Follows(g, w) && Stands(FIPS, IV, w, 48, LEFT_WORDS48, LEFT_HASH48)
    ensures Stands(FIPS, IV, w, 56, LEFT_WORDS56, LEFT_HASH56)
  {
    ComputedStride(f, g, c, IV, w, 48, 8, LEFT_WORDS56, LEFT_HASH56,
                   0x13d82741, 0x165be9cd, 0x18f0d19d, 0xde71e2f2, 0xa7802a4d, 0xa483f080, 0x6b88472c, 0xff61c636,
                   0x0b706583, 0x179312ca, 0x503054e9, 0xba125c39, 0x7e9392c9, 0xd5cbaa1e, 0x78e0585d, 0xf6e7611c,
                   0x8ac830ce, 0x8b47a303, 0xfd6e627f, 0x8c6e2c6a, 0x4001adf1, 0x1a3dd097, 0xa9df6f62, 0x6aa60a39,
                   0x19a4c116, 0x1e376c08, 0x2748774c, 0x34b0bcb5, 0x391c0cb3, 0x4ed8aa4a, 0x5b9cca4f, 0x682e6ff3,
                   0x748f82ee, 0x78a5636f, 0x84c87814, 0x8cc70208, 0x90befffa, 0xa4506ceb, 0xbef9a3f7, 0xc67178f2);
  }

  lemma LeftFrom56(f: (Hash<Word>, Word, Word) -> Hash<Word>, g: (Word, Word, Word, Word) -> Word,
                c: nat -> Window<Word>, w: seq<Word>)
    requires IsRound(FIPS, f) && IsNext(FIPS, g) && IsConstants(FIPS, c) && c(56) == CONSTANTS56
    requires Follows(g, w) && Stands(FIPS, IV, w, 56, LEFT_WORDS56, LEFT_HASH56)
    ensures Stands(FIPS, IV, w, 64, LEFT_WORDS64, LEFT_HASH64)
  {
    ComputedStride(f, g, c, IV, w, 56, 8, LEFT_WORDS64, LEFT_HASH64,
                   0x9e57c4a0, 0xf907b313, 0x1d6de87a, 0xb8d55619, 0xeec13548, 0x61a41711, 0x3443bed4, 0x1c806a61,
                   0x8ac830ce, 0x8b47a303, 0xfd6e627f, 0x8c6e2c6a, 0x4001adf1, 0x1a3dd097, 0xa9df6f62, 0x6aa60a39,
                   0x439f402d, 0xa6dee506, 0x17da717a, 0x21bb450f, 0xdcfe7a4f, 0xedd3c93e, 0xd555ac6c, 0x5889b5b4,
                   0x748f82ee, 0x78a5636f, 0x84c87814, 0x8cc70208, 0x90befffa, 0xa4506ceb, 0xbef9a3f7, 0xc67178f2,
                   0x00000000, 0x00000000, 0x00000000, 0x00000000, 0x00000000, 0x00000000, 0x00000000, 0x00000000);
  }

  lemma LeftRounds(f: (Hash<Word>, Word, Word) -> Hash<Word>, g: (Word, Word, Word, Word) -> Word,
                c: nat -> Window<Word>, w: seq<Word>)
    requires IsRound(FIPS, f) && IsNext(FIPS, g) && IsConstants(FIPS, c) && Known(c)
    requires Follows(g, w) && Stands(FIPS, IV, w, 0, LEFT_WORDS0, IV)
    ensures Stands(FIPS, IV, w, 64, LEFT_WORDS64, LEFT_HASH64)
  {
    LeftFrom0(f, g, c, w);
    LeftFrom8(f, g, c, w);
    LeftFrom16(f, g, c, w);
    LeftFrom24(f, g, c, w);
    LeftFrom32(f, g, c, w);
    LeftFrom40(f, g, c, w);
    LeftFrom48(f, g, c, w);
    LeftFrom56(f, g, c, w);
  }

  const LEFT_DIGEST: Hash<Word> := Hash(
    0x85e655d6, 0x417a1795, 0x3363376a, 0x624cde5c, 0x76e09589, 0xcac5f811, 0xcc4b32c1, 0xf20e533a)

  lemma LeftSum()
    ensures Added(FIPS, IV, LEFT_HASH64) == LEFT_DIGEST
  {
    AddIs(0x6a09e667, 0x1bdc6f6f);
    AddIs(0xbb67ae85, 0x86126910);
    AddIs(0x3c6ef372, 0xf6f443f8);
    AddIs(0xa54ff53a, 0xbcfce922);
    AddIs(0x510e527f, 0x25d2430a);
    AddIs(0x9b05688c, 0x2fc08f85);
    AddIs(0x1f83d9ab, 0xacc75916);
    AddIs(0x5be0cd19, 0x962d8621);
  }

  const RIGHT_WORDS0: Window<Word> := Window(
    0x00000000, 0x00000000, 0x00000000, 0x00000000, 0x00000000, 0x00000000, 0x00000000, 0x00000000,
    0x00000000, 0x00000000, 0x00000000, 0x00000000, 0x00000000, 0x00000000, 0x00000000, 0x000001c0)

  const RIGHT_WORDS8: Window<Word> := Window(
    0x00000000, 0x00000000, 0x00000000, 0x00000000, 0x00000000, 0x00000000, 0x00000000, 0x000001c0,
    0x00000000, 0x00d80000, 0x00000000, 0x00003677, 0x00000000, 0x1df5600d, 0x000001c0, 0x1c00501c)

  const RIGHT_WORDS16: Window<Word> := Window(
    0x00000000, 0x00d80000, 0x00000000, 0x00003677, 0x00000000, 0x1df5600d, 0x000001c0, 0x1c00501c,
    0x01b00000, 0x220a8d94, 0x0000a365, 0x177017e7, 0x63d38035, 0x090ab713, 0x4c7539ca, 0x0f19a8c9)

  const RIGHT_WORDS24: Window<Word> := Window(
    0x01b00000, 0x220a8d94, 0x0000a365, 0x177017e7, 0x63d38035, 0x090ab713, 0x4c7539ca, 0x0f19a8c9,
    0x5df4b0c4, 0xe257036a, 0xc97bb6f1, 0xc5b46f4d, 0xf8253c4e, 0xa558d189, 0x78696285, 0xed07117f)

  const RIGHT_WORDS32: Window<Word> := Window(
    0x5df4b0c4, 0xe257036a, 0xc97bb6f1, 0xc5b46f4d, 0xf8253c4e, 0xa558d189, 0x78696285, 0xed07117f,
    0x107358f6, 0x390ae496, 0x565010a2, 0xc51d7d44, 0x9e74c972, 0x6614b561, 0x30fc129d, 0x9ac684a8)

  const RIGHT_WORDS40: Window<Word> := Window(
    0x107358f6, 0x390ae496, 0x565010a2, 0xc51d7d44, 0x9e74c972, 0x6614b561, 0x30fc129d, 0x9ac684a8,
    0x2b658dbd, 0xe290f793, 0x9eebb24c, 0x9713b5de, 0x41061ab7, 0xe022e23b, 0x0772079e, 0x7de22d9c)

  const RIGHT_WORDS48: Window<Word> := Window(
    0x2b658dbd, 0xe290f793, 0x9eebb24c, 0x9713b5de, 0x41061ab7, 0xe022e23b, 0x0772079e, 0x7de22d9c,
    0xc8b83778, 0x75a79849, 0xd93dbddb, 0x0a036c9d, 0xcb4f6ac6, 0x823f97e2, 0xea2f2a7a, 0xb9018b52)

  const RIGHT_WORDS56: Window<Word> := Window(
    0xc8b83778, 0x75a79849, 0xd93dbddb, 0x0a036c9d, 0xcb4f6ac6, 0x823f97e2, 0xea2f2a7a, 0xb9018b52,
    0x17c99157, 0x172f87c7, 0xe62fae76, 0x7590e259, 0xb95cb85d, 0xf4d42217, 0x479f6e2b, 0x1078359a)

  const RIGHT_WORDS64: Window<Word> := Window(
    0x17c99157, 0x172f87c7, 0xe62fae76, 0x7590e259, 0xb95cb85d, 0xf4d42217, 0x479f6e2b, 0x1078359a,
    0xb4f6cd76, 0x3c34d58c, 0xee7a7b54, 0x02277b01, 0x63da2ea5, 0x3ece3026, 0x1dcce76d, 0x149428f4)

  const RIGHT_HASH8: Hash<Word> := Hash(
    0xbf9a93a0, 0x89bba3f1, 0x3eeb6c06, 0x185a5d79, 0x059abdd1, 0x0a34df03, 0xfe20cda6, 0x8dff3001)

  const RIGHT_HASH16: Hash<Word> := Hash(
    0x16a8cc79, 0x0cea5cbc, 0xd74080fa, 0x35ee996d, 0x0fcb1f6f, 0x60356548, 0x68aa893f, 0x5c24e2a2)

  const RIGHT_HASH24: Hash<Word> := Hash(
    0xa4195b91, 0xf13ae55b, 0xd44dc81a, 0x20aad899, 0xeddbd6ed, 0x966aa287, 0x5bace62d, 0xcc4769f2)

  const RIGHT_HASH32: Hash<Word> := Hash(
    0xb0eab1c5, 0x02ef3a5f, 0x1cfa5eb0, 0xd958b529, 0xf6d93952, 0x5da10665, 0x6c49db9f, 0xc2fa99b1)

  const RIGHT_HASH40: Hash<Word> := Hash(
    0x221b8a5a, 0xadca7a96, 0xd949682b, 0x2f11c939, 0x0b82c5eb, 0xc6cce4ff, 0x32d99008, 0xfed4ce1d)

  const RIGHT_HASH48: Hash<Word> := Hash(
    0xd7354d5b, 0x0b3303a7, 0x104a7db4, 0x0f154e11, 0xaad55b6b, 0xbbe1c39a, 0x5348e8f6, 0x6f9517cb)

  const RIGHT_HASH56: Hash<Word> := Hash(
    0x92952710, 0xd9f0c115, 0xec02560a, 0x4eca6fa0, 0x226806d6, 0x624150c4, 0x7151df8e, 0x989ed071)

  const RIGHT_HASH64: Hash<Word> := Hash(
    0x9ea7148b, 0x908c2123, 0xb25cef29, 0xa9f181dd, 0x2c5c4ed0, 0x9a392956, 0x2aa1bb13, 0x27ccb387)

  lemma RightFrom0(f: (Hash<Word>, Word, Word) -> Hash<Word>, g: (Word, Word, Word, Word) -> Word,
                c: nat -> Window<Word>, w: seq<Word>)
    requires IsRound(FIPS, f) && IsNext(FIPS, g) && IsConstants(FIPS, c) && c(0) == CONSTANTS0
    requires Follows(g, w) && Stands(FIPS, LEFT_DIGEST, w, 0, RIGHT_WORDS0, LEFT_DIGEST)
    ensures Stands(FIPS, LEFT_DIGEST, w, 8, RIGHT_WORDS8, RIGHT_HASH8)
  {
    ComputedStride(f, g, c, LEFT_DIGEST, w, 0, 8, RIGHT_WORDS8, RIGHT_HASH8,
                   0x85e655d6, 0x417a1795, 0x3363376a, 0x624cde5c, 0x76e09589, 0xcac5f811, 0xcc4b32c1, 0xf20e533a,
                   0x00000000, 0x00000000, 0x00000000, 0x00000000, 0x00000000, 0x00000000, 0x00000000, 0x00000000,
                   0x00000000, 0x00000000, 0x00000000, 0x00000000, 0x00000000, 0x00000000, 0x00000000, 0x000001c0,
                   0x428a2f98, 0x71374491, 0xb5c0fbcf, 0xe9b5dba5, 0x3956c25b, 0x59f111f1, 0x923f82a4, 0xab1c5ed5,
                   0xd807aa98, 0x12835b01, 0x243185be, 0x550c7dc3, 0x72be5d74, 0x80deb1fe, 0x9bdc06a7, 0xc19bf174);
  }

  lemma RightFrom8(f: (Hash<Word>, Word, Word) -> Hash<Word>, g: (Word, Word, Word, Word) -> Word,
                c: nat -> Window<Word>, w: seq<Word>)
    requires IsRound(FIPS, f) && IsNext(FIPS, g) && IsConstants(FIPS, c) && c(8) == CONSTANTS8
    requires Follows(g, w) && Stands(FIPS, LEFT_DIGEST, w, 8, RIGHT_WORDS8, RIGHT_HASH8)
    ensures Stands(FIPS, LEFT_DIGEST, w, 16, RIGHT_WORDS16, RIGHT_HASH16)
  {
    ComputedStride(f, g, c, LEFT_DIGEST, w, 8, 8, RIGHT_WORDS16, RIGHT_HASH16,
                   0xbf9a93a0, 0x89bba3f1, 0x3eeb6c06, 0x185a5d79, 0x059abdd1, 0x0a34df03, 0xfe20cda6, 0x8dff3001,
                   0x00000000, 0x00000000, 0x00000000, 0x00000000, 0x00000000, 0x00000000, 0x00000000, 0x000001c0,
                   0x00000000, 0x00d80000, 0x00000000, 0x00003677, 0x00000000, 0x1df5600d, 0x000001c0, 0x1c00501c,
                   0xd807aa98, 0x12835b01, 0x243185be, 0x550c7dc3, 0x72be5d74, 0x80deb1fe, 0x9bdc06a7, 0xc19bf174,
                   0xe49b69c1, 0xefbe4786, 0x0fc19dc6, 0x240ca1cc, 0x2de92c6f, 0x4a7484aa, 0x5cb0a9dc, 0x76f988da);
  }

  lemma RightFrom16(f: (Hash<Word>, Word, Word) -> Hash<Word>, g: (Word, Word, Word, Word) -> Word,
                c: nat -> Window<Word>, w: seq<Word>)
    requires IsRound(FIPS, f) && IsNext(FIPS, g) && IsConstants(FIPS, c) && c(16) == CONSTANTS16
    requires Follows(g, w) && Stands(FIPS, LEFT_DIGEST, w, 16, RIGHT_WORDS16, RIGHT_HASH16)
    ensures Stands(FIPS, LEFT_DIGEST, w, 24, RIGHT_WORDS24, RIGHT_HASH24)
  {
    ComputedStride(f, g, c, LEFT_DIGEST, w, 16, 8, RIGHT_WORDS24, RIGHT_HASH24,
                   0x16a8cc79, 0x0cea5cbc, 0xd74080fa, 0x35ee996d, 0x0fcb1f6f, 0x60356548, 0x68aa893f, 0x5c24e2a2,
                   0x00000000, 0x00d80000, 0x00000000, 0x00003677, 0x00000000, 0x1df5600d, 0x000001c0, 0x1c00501c,
                   0x01b00000, 0x220a8d94, 0x0000a365, 0x177017e7, 0x63d38035, 0x090ab713, 0x4c7539ca, 0x0f19a8c9,
                   0xe49b69c1, 0xefbe4786, 0x0fc19dc6, 0x240ca1cc, 0x2de92c6f, 0x4a7484aa, 0x5cb0a9dc, 0x76f988da,
                   0x983e5152, 0xa831c66d, 0xb00327c8, 0xbf597fc7, 0xc6e00bf3, 0xd5a79147, 0x06ca6351, 0x14292967);
  }

  lemma RightFrom24(f: (Hash<Word>, Word, Word) -> Hash<Word>, g: (Word, Word, Word, Word) -> Word,
                c: nat -> Window<Word>, w: seq<Word>)
    requires IsRound(FIPS, f) && IsNext(FIPS, g) && IsConstants(FIPS, c) && c(24) == CONSTANTS24
    requires Follows(g, w) && Stands(FIPS, LEFT_DIGEST, w, 24, RIGHT_WORDS24, RIGHT_HASH24)
    ensures Stands(FIPS, LEFT_DIGEST, w, 32, RIGHT_WORDS32, RIGHT_HASH32)
  {
    ComputedStride(f, g, c, LEFT_DIGEST, w, 24, 8, RIGHT_WORDS32, RIGHT_HASH32,
                   0xa4195b91, 0xf13ae55b, 0xd44dc81a, 0x20aad899, 0xeddbd6ed, 0x966aa287, 0x5bace62d, 0xcc4769f2,
                   0x01b00000, 0x220a8d94, 0x0000a365, 0x177017e7, 0x63d38035, 0x090ab713, 0x4c7539ca, 0x0f19a8c9,
                   0x5df4b0c4, 0xe257036a, 0xc97bb6f1, 0xc5b46f4d, 0xf8253c4e, 0xa558d189, 0x78696285, 0xed07117f,
                   0x983e5152, 0xa831c66d, 0xb00327c8, 0xbf597fc7, 0xc6e00bf3, 0xd5a79147, 0x06ca6351, 0x14292967,
                   0x27b70a85, 0x2e1b2138, 0x4d2c6dfc, 0x53380d13, 0x650a7354, 0x766a0abb, 0x81c2c92e, 0x92722c85);
  }

  lemma RightFrom32(f: (Hash<Word>, Word, Word) -> Hash<Word>, g: (Word, Word, Word, Word) -> Word,
                c: nat -> Window<Word>, w: seq<Word>)
    requires IsRound(FIPS, f) && IsNext(FIPS, g) && IsConstants(FIPS, c) && c(32) == CONSTANTS32
    requires Follows(g, w) && Stands(FIPS, LEFT_DIGEST, w, 32, RIGHT_WORDS32, RIGHT_HASH32)
    ensures Stands(FIPS, LEFT_DIGEST, w, 40, RIGHT_WORDS40, RIGHT_HASH40)
  {
    ComputedStride(f, g, c, LEFT_DIGEST, w, 32, 8, RIGHT_WORDS40, RIGHT_HASH40,
                   0xb0eab1c5, 0x02ef3a5f, 0x1cfa5eb0, 0xd958b529, 0xf6d93952, 0x5da10665, 0x6c49db9f, 0xc2fa99b1,
                   0x5df4b0c4, 0xe257036a, 0xc97bb6f1, 0xc5b46f4d, 0xf8253c4e, 0xa558d189, 0x78696285, 0xed07117f,
                   0x107358f6, 0x390ae496, 0x565010a2, 0xc51d7d44, 0x9e74c972, 0x6614b561, 0x30fc129d, 0x9ac684a8,
                   0x27b70a85, 0x2e1b2138, 0x4d2c6dfc, 0x53380d13, 0x650a7354, 0x766a0abb, 0x81c2c92e, 0x92722c85,
                   0xa2bfe8a1, 0xa81a664b, 0xc24b8b70, 0xc76c51a3, 0xd192e819, 0xd6990624, 0xf40e3585, 0x106aa070);
  }

  lemma RightFrom40(f: (Hash<Word>, Word, Word) -> Hash<Word>, g: (Word, Word, Word, Word) -> Word,
                c: nat -> Window<Word>, w: seq<Word>)
    requires IsRound(FIPS, f) && IsNext(FIPS, g) && IsConstants(FIPS, c) && c(40) == CONSTANTS40
    requires Follows(g, w) && Stands(FIPS, LEFT_DIGEST, w, 40, RIGHT_WORDS40, RIGHT_HASH40)
    ensures Stands(FIPS, LEFT_DIGEST, w, 48, RIGHT_WORDS48, RIGHT_HASH48)
  {
    ComputedStride(f, g, c, LEFT_DIGEST, w, 40, 8, RIGHT_WORDS48, RIGHT_HASH48,
                   0x221b8a5a, 0xadca7a96, 0xd949682b, 0x2f11c939, 0x0b82c5eb, 0xc6cce4ff, 0x32d99008, 0xfed4ce1d,
                   0x107358f6, 0x390ae496, 0x565010a2, 0xc51d7d44, 0x9e74c972, 0x6614b561, 0x30fc129d, 0x9ac684a8,
                   0x2b658dbd, 0xe290f793, 0x9eebb24c, 0x9713b5de, 0x41061ab7, 0xe022e23b, 0x0772079e, 0x7de22d9c,
                   0xa2bfe8a1, 0xa81a664b, 0xc24b8b70, 0xc76c51a3, 0xd192e819, 0xd6990624, 0xf40e3585, 0x106aa070,
                   0x19a4c116, 0x1e376c08, 0x2748774c, 0x34b0bcb5, 0x391c0cb3, 0x4ed8aa4a, 0x5b9cca4f, 0x682e6ff3);
  }

  lemma RightFrom48(f: (Hash<Word>, Word, Word) -> Hash<Word>, g: (Word, Word, Word, Word) -> Word,
                c: nat -> Window<Word>, w: seq<Word>)
    requires IsRound(FIPS, f) && IsNext(FIPS, g) && IsConstants(FIPS, c) && c(48) == CONSTANTS48
    requires Follows(g, w) && Stands(FIPS, LEFT_DIGEST, w, 48, RIGHT_WORDS48, RIGHT_HASH48)
    ensures Stands(FIPS, LEFT_DIGEST, w, 56, RIGHT_WORDS56, RIGHT_HASH56)
  {
    ComputedStride(f, g, c, LEFT_DIGEST, w, 48, 8, RIGHT_WORDS56, RIGHT_HASH56,
                   0xd7354d5b, 0x0b3303a7, 0x104a7db4, 0x0f154e11, 0xaad55b6b, 0xbbe1c39a, 0x5348e8f6, 0x6f9517cb,
                   0x2b658dbd, 0xe290f793, 0x9eebb24c, 0x9713b5de, 0x41061ab7, 0xe022e23b, 0x0772079e, 0x7de22d9c,
                   0xc8b83778, 0x75a79849, 0xd93dbddb, 0x0a036c9d, 0xcb4f6ac6, 0x823f97e2, 0xea2f2a7a, 0xb9018b52,
                   0x19a4c116, 0x1e376c08, 0x2748774c, 0x34b0bcb5, 0x391c0cb3, 0x4ed8aa4a, 0x5b9cca4f, 0x682e6ff3,
                   0x748f82ee, 0x78a5636f, 0x84c87814, 0x8cc70208, 0x90befffa, 0xa4506ceb, 0xbef9a3f7, 0xc67178f2);
  }

  lemma RightFrom56(f: (Hash<Word>, Word, Word) -> Hash<Word>, g: (Word, Word, Word, Word) -> Word,
                c: nat -> Window<Word>, w: seq<Word>)
    requires IsRound(FIPS, f) && IsNext(FIPS, g) && IsConstants(FIPS, c) && c(56) == CONSTANTS56
    requires Follows(g, w) && Stands(FIPS, LEFT_DIGEST, w, 56, RIGHT_WORDS56, RIGHT_HASH56)
    ensures Stands(FIPS, LEFT_DIGEST, w, 64, RIGHT_WORDS64, RIGHT_HASH64)
  {
    ComputedStride(f, g, c, LEFT_DIGEST, w, 56, 8, RIGHT_WORDS64, RIGHT_HASH64,
                   0x92952710, 0xd9f0c115, 0xec02560a, 0x4eca6fa0, 0x226806d6, 0x624150c4, 0x7151df8e, 0x989ed071,
                   0xc8b83778, 0x75a79849, 0xd93dbddb, 0x0a036c9d, 0xcb4f6ac6, 0x823f97e2, 0xea2f2a7a, 0xb9018b52,
                   0x17c99157, 0x172f87c7, 0xe62fae76, 0x7590e259, 0xb95cb85d, 0xf4d42217, 0x479f6e2b, 0x1078359a,
                   0x748f82ee, 0x78a5636f, 0x84c87814, 0x8cc70208, 0x90befffa, 0xa4506ceb, 0xbef9a3f7, 0xc67178f2,
                   0x00000000, 0x00000000, 0x00000000, 0x00000000, 0x00000000, 0x00000000, 0x00000000, 0x00000000);
  }

  lemma RightRounds(f: (Hash<Word>, Word, Word) -> Hash<Word>, g: (Word, Word, Word, Word) -> Word,
                c: nat -> Window<Word>, w: seq<Word>)
    requires IsRound(FIPS, f) && IsNext(FIPS, g) && IsConstants(FIPS, c) && Known(c)
    requires Follows(g, w) && Stands(FIPS, LEFT_DIGEST, w, 0, RIGHT_WORDS0, LEFT_DIGEST)
    ensures Stands(FIPS, LEFT_DIGEST, w, 64, RIGHT_WORDS64, RIGHT_HASH64)
  {
    RightFrom0(f, g, c, w);
    RightFrom8(f, g, c, w);
    RightFrom16(f, g, c, w);
    RightFrom24(f, g, c, w);
    RightFrom32(f, g, c, w);
    RightFrom40(f, g, c, w);
    RightFrom48(f, g, c, w);
    RightFrom56(f, g, c, w);
  }

  const RIGHT_DIGEST: Hash<Word> := Hash(
    0x248d6a61, 0xd20638b8, 0xe5c02693, 0x0c3e6039, 0xa33ce459, 0x64ff2167, 0xf6ecedd4, 0x19db06c1)

  lemma RightSum()
    ensures Added(FIPS, LEFT_DIGEST, RIGHT_HASH64) == RIGHT_DIGEST
  {
    AddIs(0x85e655d6, 0x9ea7148b);
    AddIs(0x417a1795, 0x908c2123);
    AddIs(0x3363376a, 0xb25cef29);
    AddIs(0x624cde5c, 0xa9f181dd);
    AddIs(0x76e09589, 0x2c5c4ed0);
    AddIs(0xcac5f811, 0x9a392956);
    AddIs(0xcc4b32c1, 0x2aa1bb13);
    AddIs(0xf20e533a, 0x27ccb387);
  }

  const TWO_BYTES: Bytes :=
    [0x24, 0x8d, 0x6a, 0x61] + [0xd2, 0x06, 0x38, 0xb8] + [0xe5, 0xc0, 0x26, 0x93] + [0x0c, 0x3e, 0x60, 0x39]
    + [0xa3, 0x3c, 0xe4, 0x59] + [0x64, 0xff, 0x21, 0x67] + [0xf6, 0xec, 0xed, 0xd4] + [0x19, 0xdb, 0x06, 0xc1]

  lemma TwoBytes()
    ensures HashBytes(FIPS, RIGHT_DIGEST) == TWO_BYTES
  {
    StoredWord(0x248d6a61, 0x24, 0x8d, 0x6a, 0x61);
    StoredWord(0xd20638b8, 0xd2, 0x06, 0x38, 0xb8);
    StoredWord(0xe5c02693, 0xe5, 0xc0, 0x26, 0x93);
    StoredWord(0x0c3e6039, 0x0c, 0x3e, 0x60, 0x39);
    StoredWord(0xa33ce459, 0xa3, 0x3c, 0xe4, 0x59);
    StoredWord(0x64ff2167, 0x64, 0xff, 0x21, 0x67);
    StoredWord(0xf6ecedd4, 0xf6, 0xec, 0xed, 0xd4);
    StoredWord(0x19db06c1, 0x19, 0xdb, 0x06, 0xc1);
    StoredHash(RIGHT_DIGEST,
               [0x24, 0x8d, 0x6a, 0x61], [0xd2, 0x06, 0x38, 0xb8], [0xe5, 0xc0, 0x26, 0x93], [0x0c, 0x3e, 0x60, 0x39],
               [0xa3, 0x3c, 0xe4, 0x59], [0x64, 0xff, 0x21, 0x67], [0xf6, 0xec, 0xed, 0xd4], [0x19, 0xdb, 0x06, 0xc1]);
  }

  /** The message "abcdbcdecdefdefgefghfghighijhijkijkljklmklmnlmnomnopnopq". */
  function Two(): (m: Bytes)
    ensures |m| == 56
  {
    seq(56, k requires 0 <= k < 56 => 0x61 + k / 4 + k % 4)
  }

  function Padded(): (b: Bytes)
    ensures |b| == 128
  {
    PaddedByte(Two(), 448, 0);
    Two() + Padding(56, 448)
  }

  lemma TwoByte(k: nat)
    requires k < 128
    ensures Padded()[k] ==
      if k < 56 then 0x61 + k / 4 + k % 4 else if k == 56 then 0x80
      else if k == 126 then 1 else if k == 127 then 0xc0 else 0
  {
    PaddedByte(Two(), 448, k);
    if k >= 120 { ShortLength(448, k - 120); }
  }

  /** Word `i` of a block is four letters in a row, from letter `i` on. */
  predicate Letters(block: Bytes, i: nat) {
    && |block| == 64 && i < 14
    && block[4 * i] == 0x61 + i && block[4 * i + 1] == 0x62 + i
    && block[4 * i + 2] == 0x63 + i && block[4 * i + 3] == 0x64 + i
  }

  lemma LettersAt(i: nat)
    requires i < 14
    ensures Letters(Padded()[..64], i)
  {
    LetterAt(i, 0);
    LetterAt(i, 1);
    LetterAt(i, 2);
    LetterAt(i, 3);
  }

  lemma LetterAt(i: nat, r: nat)
    requires i < 14 && r < 4
    ensures Padded()[..64][4 * i + r] == 0x61 + i + r
  {
    var k := 4 * i + r;
    TwoByte(k);
    assert k / 4 == i && k % 4 == r;
  }

  lemma LettersFrom0(block: Bytes, i: nat)
    requires 0 <= i < 5 && Letters(block, i)
    ensures At(LEFT_WORDS0, i) == BlockWord(FIPS, block, i)
  {
    match i
    case 0 => BlockWordIs(block, 0, 0x61, 0x62, 0x63, 0x64, 0x61626364);
    case 1 => BlockWordIs(block, 1, 0x62, 0x63, 0x64, 0x65, 0x62636465);
    case 2 => BlockWordIs(block, 2, 0x63, 0x64, 0x65, 0x66, 0x63646566);
    case 3 => BlockWordIs(block, 3, 0x64, 0x65, 0x66, 0x67, 0x64656667);
    case 4 => BlockWordIs(block, 4, 0x65, 0x66, 0x67, 0x68, 0x65666768);
  }

  lemma LettersFrom5(block: Bytes, i: nat)
    requires 5 <= i < 10 && Letters(block, i)
    ensures At(LEFT_WORDS0, i) == BlockWord(FIPS, block, i)
  {
    match i
    case 5 => BlockWordIs(block, 5, 0x66, 0x67, 0x68, 0x69, 0x66676869);
    case 6 => BlockWordIs(block, 6, 0x67, 0x68, 0x69, 0x6a, 0x6768696a);
    case 7 => BlockWordIs(block, 7, 0x68, 0x69, 0x6a, 0x6b, 0x68696a6b);
    case 8 => BlockWordIs(block, 8, 0x69, 0x6a, 0x6b, 0x6c, 0x696a6b6c);
    case 9 => BlockWordIs(block, 9, 0x6a, 0x6b, 0x6c, 0x6d, 0x6a6b6c6d);
  }

  lemma LettersFrom10(block: Bytes, i: nat)
    requires 10 <= i < 14 && Letters(block, i)
    ensures At(LEFT_WORDS0, i) == BlockWord(FIPS, block, i)
  {
    match i
    case 10 => BlockWordIs(block, 10, 0x6b, 0x6c, 0x6d, 0x6e, 0x6b6c6d6e);
    case 11 => BlockWordIs(block, 11, 0x6c, 0x6d, 0x6e, 0x6f, 0x6c6d6e6f);
    case 12 => BlockWordIs(block, 12, 0x6d, 0x6e, 0x6f, 0x70, 0x6d6e6f70);
    case 13 => BlockWordIs(block, 13, 0x6e, 0x6f, 0x70, 0x71, 0x6e6f7071);
  }

  lemma LeftWord(i: nat)
    requires i < 16
    ensures At(LEFT_WORDS0, i) == BlockWord(FIPS, Padded()[..64], i)
  {
    if i < 14 { LettersAt(i); }
    if i < 5 {
      LettersFrom0(Padded()[..64], i);
    } else if i < 10 {
      LettersFrom5(Padded()[..64], i);
    } else if i < 14 {
      LettersFrom10(Padded()[..64], i);
    } else {
      TwoByte(4 * i);
      TwoByte(4 * i + 1);
      TwoByte(4 * i + 2);
      TwoByte(4 * i + 3);
      if i == 14 {
        BlockWordIs(Padded()[..64], i, 0x80, 0, 0, 0, 0x80000000);
      } else {
        BlockWordIs(Padded()[..64], i, 0, 0, 0, 0, 0);
      }
    }
  }

  lemma RightWord(i: nat)
    requires i < 16
    ensures At(RIGHT_WORDS0, i) == BlockWord(FIPS, Padded()[64..], i)
  {
    TwoByte(64 + 4 * i);
    TwoByte(64 + 4 * i + 1);
    TwoByte(64 + 4 * i + 2);
    TwoByte(64 + 4 * i + 3);
    if i == 15 {
      BlockWordIs(Padded()[64..], i, 0, 0, 1, 0xc0, 0x1c0);
    } else {
      BlockWordIs(Padded()[64..], i, 0, 0, 0, 0, 0);
    }
  }

  lemma LeftCompress()
    ensures Compress(FIPS, IV, Padded()[..64]) == LEFT_DIGEST
  {
    var block := Padded()[..64];
    forall i | 0 <= i < 16 ensures At(LEFT_WORDS0, i) == BlockWord(FIPS, block, i) { LeftWord(i); }
    BlockStands(IV, block, LEFT_WORDS0);
    StandardParts();
    StandardConstants();
    ScheduleFollows(FIPS, NextOf(), block, 80, Schedule(FIPS, block, 80));
    LeftRounds(RoundOf(), NextOf(), ConstantsOf(), Schedule(FIPS, block, 80));
    CompressStands(FIPS, IV, block, LEFT_WORDS64, LEFT_HASH64);
    LeftSum();
  }

  lemma RightCompress()
    ensures Compress(FIPS, LEFT_DIGEST, Padded()[64..]) == RIGHT_DIGEST
  {
    var block := Padded()[64..];
    forall i | 0 <= i < 16 ensures At(RIGHT_WORDS0, i) == BlockWord(FIPS, block, i) { RightWord(i); }
    BlockStands(LEFT_DIGEST, block, RIGHT_WORDS0);
    StandardParts();
    StandardConstants();
    ScheduleFollows(FIPS, NextOf(), block, 80, Schedule(FIPS, block, 80));
    RightRounds(RoundOf(), NextOf(), ConstantsOf(), Schedule(FIPS, block, 80));
    CompressStands(FIPS, LEFT_DIGEST, block, RIGHT_WORDS64, RIGHT_HASH64);
    RightSum();
  }

  lemma TwoBlocks(s: Hash<Word>, data: Bytes)
    requires |data| == 128
    ensures Blocks(128) && Absorb(Step(FIPS), s, data) == Compress(FIPS, Compress(FIPS, s, data[..64]), data[64..])
  {
    assert Blocks(64);
    OneBlock(Compress(FIPS, s, data[..64]), data[64..]);
  }

  /** The digest of the standard's message of two blocks. */
  lemma TwoDigest()
    ensures Sha(Two()) == TWO_BYTES
  {
    LeftCompress();
    RightCompress();
    TwoBlocks(IV, Padded());
    TwoBytes();
  }
}
