/** The 32-bit words of SHA-256: the functions of section 4.1.2 of FIPS 180-4 bit
    by bit, the constants of sections 4.2.2 and 5.3.3 as fractional parts of
    roots of primes, and big-endian bytes. */
module Sha256Words {
  import opened Arith
  import opened Basics

  type Word = bv32

  // ---- The functions ------------------------------------------------------

  function Plus(x: Word, y: Word): Word { x + y }

  function Ch(x: Word, y: Word, z: Word): Word { (x & y) ^ (!x & z) }

  function Maj(x: Word, y: Word, z: Word): Word { (x & y) ^ (x & z) ^ (y & z) }

  function BigSigma0(x: Word): Word {
    ((x >> 2) | (x << 30)) ^ ((x >> 13) | (x << 19)) ^ ((x >> 22) | (x << 10))
  }

  function BigSigma1(x: Word): Word {
    ((x >> 6) | (x << 26)) ^ ((x >> 11) | (x << 21)) ^ ((x >> 25) | (x << 7))
  }

  function SmallSigma0(x: Word): Word {
    ((x >> 7) | (x << 25)) ^ ((x >> 18) | (x << 14)) ^ (x >> 3)
  }

  function SmallSigma1(x: Word): Word {
    ((x >> 17) | (x << 15)) ^ ((x >> 19) | (x << 13)) ^ (x >> 10)
  }

  /** Ch takes its bits from `y` where `x` has ones, and from `z` elsewhere. */
  lemma ChoiceBits(x: Word, y: Word, z: Word)
    ensures Ch(x, y, z) & x == y & x && Ch(x, y, z) & !x == z & !x
  {
  }

  /** Maj has the bits of `x` where `x` and `y` agree, and those of `z` elsewhere. */
  lemma MajorityBits(x: Word, y: Word, z: Word)
    ensures Maj(x, y, z) & !(x ^ y) == x & !(x ^ y) && Maj(x, y, z) & (x ^ y) == z & (x ^ y)
  {
  }

  // A rotation to the right by `n` brings bit `i + n` to place `i`; a shift brings
  // in zeros.

  lemma BigSigma0Written(x: Word, i: Word)
    requires i < 32
    ensures ((((x >> 2) | (x << 30)) ^ ((x >> 13) | (x << 19)) ^ ((x >> 22) | (x << 10))) >> i) & 1
      == ((x >> ((i + 2) & 31)) & 1) ^ ((x >> ((i + 13) & 31)) & 1) ^ ((x >> ((i + 22) & 31)) & 1)
  {
  }

  lemma BigSigma0Bits(x: Word, i: Word)
    requires i < 32
    ensures (BigSigma0(x) >> i) & 1
      == ((x >> ((i + 2) & 31)) & 1) ^ ((x >> ((i + 13) & 31)) & 1) ^ ((x >> ((i + 22) & 31)) & 1)
  {
    BigSigma0Written(x, i);
  }

  lemma BigSigma1Written(x: Word, i: Word)
    requires i < 32
    ensures ((((x >> 6) | (x << 26)) ^ ((x >> 11) | (x << 21)) ^ ((x >> 25) | (x << 7))) >> i) & 1
      == ((x >> ((i + 6) & 31)) & 1) ^ ((x >> ((i + 11) & 31)) & 1) ^ ((x >> ((i + 25) & 31)) & 1)
  {
  }

  lemma BigSigma1Bits(x: Word, i: Word)
    requires i < 32
    ensures (BigSigma1(x) >> i) & 1
      == ((x >> ((i + 6) & 31)) & 1) ^ ((x >> ((i + 11) & 31)) & 1) ^ ((x >> ((i + 25) & 31)) & 1)
  {
    BigSigma1Written(x, i);
  }

  lemma SmallSigma0Written(x: Word, i: Word)
    requires i < 32
    ensures ((((x >> 7) | (x << 25)) ^ ((x >> 18) | (x << 14)) ^ (x >> 3)) >> i) & 1
      == ((x >> ((i + 7) & 31)) & 1) ^ ((x >> ((i + 18) & 31)) & 1) ^ (if i + 3 < 32 then (x >> (i + 3)) & 1 else 0)
  {
  }

  lemma SmallSigma0Bits(x: Word, i: Word)
    requires i < 32
    ensures (SmallSigma0(x) >> i) & 1
      == ((x >> ((i + 7) & 31)) & 1) ^ ((x >> ((i + 18) & 31)) & 1) ^ (if i + 3 < 32 then (x >> (i + 3)) & 1 else 0)
  {
    SmallSigma0Written(x, i);
  }

  lemma SmallSigma1Written(x: Word, i: Word)
    requires i < 32
    ensures ((((x >> 17) | (x << 15)) ^ ((x >> 19) | (x << 13)) ^ (x >> 10)) >> i) & 1
      == ((x >> ((i + 17) & 31)) & 1) ^ ((x >> ((i + 19) & 31)) & 1) ^ (if i + 10 < 32 then (x >> (i + 10)) & 1 else 0)
  {
  }

  lemma SmallSigma1Bits(x: Word, i: Word)
    requires i < 32
    ensures (SmallSigma1(x) >> i) & 1
      == ((x >> ((i + 17) & 31)) & 1) ^ ((x >> ((i + 19) & 31)) & 1) ^ (if i + 10 < 32 then (x >> (i + 10)) & 1 else 0)
  {
    SmallSigma1Written(x, i);
  }

  // ---- Bytes --------------------------------------------------------------

  function Join(b0: bv8, b1: bv8, b2: bv8, b3: bv8): Word {
    ((b0 as Word) << 24) | ((b1 as Word) << 16) | ((b2 as Word) << 8) | (b3 as Word)
  }

  function Load(b0: Byte, b1: Byte, b2: Byte, b3: Byte): Word {
    Join(b0 as bv8, b1 as bv8, b2 as bv8, b3 as bv8)
  }

  function LowByte(w: Word): Byte { (w & 0xFF) as int }

  function Store(w: Word): (Byte, Byte, Byte, Byte) {
    (LowByte(w >> 24), LowByte(w >> 16), LowByte(w >> 8), LowByte(w))
  }

  lemma PairValue(x: bv8, y: bv8)
    ensures (((x as bv16) << 8) | (y as bv16)) as int == (x as int) * 0x100 + (y as int)
  {
  }

  lemma TripleValue(x: bv16, y: bv8)
    ensures (((x as bv24) << 8) | (y as bv24)) as int == (x as int) * 0x100 + (y as int)
  {
  }

  lemma QuadValue(x: bv24, y: bv8)
    ensures (((x as Word) << 8) | (y as Word)) as int == (x as int) * 0x100 + (y as int)
  {
  }

  lemma JoinSteps(b0: bv8, b1: bv8, b2: bv8, b3: bv8, x: bv16, y: bv24)
    requires x == ((b0 as bv16) << 8) | (b1 as bv16) && y == ((x as bv24) << 8) | (b2 as bv24)
    ensures Join(b0, b1, b2, b3) == ((y as Word) << 8) | (b3 as Word)
  {
  }

  lemma JoinValue(b0: bv8, b1: bv8, b2: bv8, b3: bv8)
    ensures Join(b0, b1, b2, b3) as int
      == (b0 as int) * 0x100_0000 + (b1 as int) * 0x1_0000 + (b2 as int) * 0x100 + (b3 as int)
  {
    var x: bv16 := ((b0 as bv16) << 8) | (b1 as bv16);
    var y: bv24 := ((x as bv24) << 8) | (b2 as bv24);
    PairValue(b0, b1);
    TripleValue(x, b2);
    QuadValue(y, b3);
    JoinSteps(b0, b1, b2, b3, x, y);
  }

  /** The byte with a given value. */
  function ByteOf(b: Byte): (c: bv8)
    ensures c as int == b
  {
    if b == 0 then 0 else ByteOf(b - 1) + 1
  }

  lemma ByteIs(b: Byte, c: bv8)
    requires c as int == b
    ensures b as bv8 == c
  {
  }

  lemma ByteValue(b: Byte)
    ensures (b as bv8) as int == b
  {
    ByteIs(b, ByteOf(b));
  }

  /** Loading reads four bytes as a big-endian number. */
  lemma LoadValue(b0: Byte, b1: Byte, b2: Byte, b3: Byte)
    ensures Load(b0, b1, b2, b3) as int == b0 * 0x100_0000 + b1 * 0x1_0000 + b2 * 0x100 + b3
  {
    ByteValue(b0);
    ByteValue(b1);
    ByteValue(b2);
    ByteValue(b3);
    JoinValue(b0 as bv8, b1 as bv8, b2 as bv8, b3 as bv8);
  }

  function Low(w: Word): bv8 { (w & 0xFF) as bv8 }

  lemma LowValue(w: Word)
    ensures LowByte(w) == Low(w) as int
  {
  }

  lemma JoinLow(w: Word)
    ensures w == Join(Low(w >> 24), Low(w >> 16), Low(w >> 8), Low(w))
  {
  }

  /** Storing writes a word as a big-endian number. */
  lemma StoreValue(w: Word)
    ensures var (b0, b1, b2, b3) := Store(w);
      b0 * 0x100_0000 + b1 * 0x1_0000 + b2 * 0x100 + b3 == w as int
  {
    LowValue(w >> 24);
    LowValue(w >> 16);
    LowValue(w >> 8);
    LowValue(w);
    JoinLow(w);
    JoinValue(Low(w >> 24), Low(w >> 16), Low(w >> 8), Low(w));
  }

  // ---- The constants ------------------------------------------------------

  function K0(i: nat): Word {
    match i
    case 0 => 0x428a2f98 case 1 => 0x71374491 case 2 => 0xb5c0fbcf case 3 => 0xe9b5dba5
    case 4 => 0x3956c25b case 5 => 0x59f111f1 case 6 => 0x923f82a4 case 7 => 0xab1c5ed5
    case _ => 0
  }

  function K8(i: nat): Word {
    match i
    case 8 => 0xd807aa98 case 9 => 0x12835b01 case 10 => 0x243185be case 11 => 0x550c7dc3
    case 12 => 0x72be5d74 case 13 => 0x80deb1fe case 14 => 0x9bdc06a7 case 15 => 0xc19bf174
    case _ => 0
  }

  function K16(i: nat): Word {
    match i
    case 16 => 0xe49b69c1 case 17 => 0xefbe4786 case 18 => 0x0fc19dc6 case 19 => 0x240ca1cc
    case 20 => 0x2de92c6f case 21 => 0x4a7484aa case 22 => 0x5cb0a9dc case 23 => 0x76f988da
    case _ => 0
  }

  function K24(i: nat): Word {
    match i
    case 24 => 0x983e5152 case 25 => 0xa831c66d case 26 => 0xb00327c8 case 27 => 0xbf597fc7
    case 28 => 0xc6e00bf3 case 29 => 0xd5a79147 case 30 => 0x06ca6351 case 31 => 0x14292967
    case _ => 0
  }

  function K32(i: nat): Word {
    match i
    case 32 => 0x27b70a85 case 33 => 0x2e1b2138 case 34 => 0x4d2c6dfc case 35 => 0x53380d13
    case 36 => 0x650a7354 case 37 => 0x766a0abb case 38 => 0x81c2c92e case 39 => 0x92722c85
    case _ => 0
  }

  function K40(i: nat): Word {
    match i
    case 40 => 0xa2bfe8a1 case 41 => 0xa81a664b case 42 => 0xc24b8b70 case 43 => 0xc76c51a3
    case 44 => 0xd192e819 case 45 => 0xd6990624 case 46 => 0xf40e3585 case 47 => 0x106aa070
    case _ => 0
  }

  function K48(i: nat): Word {
    match i
    case 48 => 0x19a4c116 case 49 => 0x1e376c08 case 50 => 0x2748774c case 51 => 0x34b0bcb5
    case 52 => 0x391c0cb3 case 53 => 0x4ed8aa4a case 54 => 0x5b9cca4f case 55 => 0x682e6ff3
    case _ => 0
  }

  function K56(i: nat): Word {
    match i
    case 56 => 0x748f82ee case 57 => 0x78a5636f case 58 => 0x84c87814 case 59 => 0x8cc70208
    case 60 => 0x90befffa case 61 => 0xa4506ceb case 62 => 0xbef9a3f7 case 63 => 0xc67178f2
    case _ => 0
  }

  function K(i: nat): Word {
    if i < 8 then K0(i) else if i < 16 then K8(i) else if i < 24 then K16(i) else if i < 32 then K24(i)
    else if i < 40 then K32(i) else if i < 48 then K40(i) else if i < 56 then K48(i) else K56(i)
  }

  /** The first 64 primes. */
  function Prime(i: nat): nat {
    match i
    case 0 => 2 case 1 => 3 case 2 => 5 case 3 => 7 case 4 => 11 case 5 => 13
    case 6 => 17 case 7 => 19 case 8 => 23 case 9 => 29 case 10 => 31 case 11 => 37
    case 12 => 41 case 13 => 43 case 14 => 47 case 15 => 53 case 16 => 59 case 17 => 61
    case 18 => 67 case 19 => 71 case 20 => 73 case 21 => 79 case 22 => 83 case 23 => 89
    case 24 => 97 case 25 => 101 case 26 => 103 case 27 => 107 case 28 => 109 case 29 => 113
    case 30 => 127 case 31 => 131 case 32 => 137 case 33 => 139 case 34 => 149 case 35 => 151
    case 36 => 157 case 37 => 163 case 38 => 167 case 39 => 173 case 40 => 179 case 41 => 181
    case 42 => 191 case 43 => 193 case 44 => 197 case 45 => 199 case 46 => 211 case 47 => 223
    case 48 => 227 case 49 => 229 case 50 => 233 case 51 => 239 case 52 => 241 case 53 => 251
    case 54 => 257 case 55 => 263 case 56 => 269 case 57 => 271 case 58 => 277 case 59 => 281
    case 60 => 283 case 61 => 293 case 62 => 307 case 63 => 311
    case _ => 0
  }

  predicate IsPrime(p: nat) { p >= 2 && forall d :: 2 <= d < p ==> p % d != 0 }

  predicate SmallFactor(p: nat) {
    p % 2 == 0 || p % 3 == 0 || p % 5 == 0 || p % 7 == 0 || p % 11 == 0 || p % 13 == 0 || p % 17 == 0
  }

  lemma MultipleOf(p: nat, a: nat, b: nat)
    requires a > 0 && b > 0 && a * b > 0 && p % (a * b) == 0
    ensures p % a == 0
  {
    var q := p / (a * b);
    assert p == (a * b) * q == (b * q) * a;
    DivModUnique(p, a, b * q, 0);
  }

  lemma DividesSmall(p: nat, e: nat)
    requires 2 <= e <= 18 && p % e == 0
    ensures SmallFactor(p)
  {
    if e % 2 == 0 {
      MultipleOf(p, 2, e / 2);
    } else if e == 9 || e == 15 {
      MultipleOf(p, 3, e / 3);
    }
  }

  /** Below 19 * 19 a composite number has a factor of at most 17. */
  lemma FactorIsSmall(p: nat, d: nat)
    requires 2 <= d < p < 361 && p % d == 0
    ensures SmallFactor(p)
  {
    var q := p / d;
    assert p == d * q;
    if d <= 18 {
      DividesSmall(p, d);
    } else {
      if q >= 19 { MulMonotone(19, q, d); }
      if q <= 1 { MulMonotone(q, 1, d); }
      DivModUnique(p, q, d, 0);
      DividesSmall(p, q);
    }
  }

  lemma PrimeUnlessFactor(p: nat)
    requires 2 <= p < 361 && !SmallFactor(p)
    ensures IsPrime(p)
  {
    forall d | 2 <= d < p ensures p % d != 0 {
      if p % d == 0 { FactorIsSmall(p, d); }
    }
  }

  lemma FactorNotPrime(p: nat)
    requires p > 17 && SmallFactor(p)
    ensures !IsPrime(p)
  {
  }

  /** Every number strictly between `p` and `q` has a small factor. */
  predicate Gap(p: nat, q: nat)
    decreases q - p
  {
    p + 1 >= q || (SmallFactor(p + 1) && Gap(p + 1, q))
  }

  lemma {:induction false} GapCovers(p: nat, q: nat, x: nat)
    requires Gap(p, q) && p < x < q
    ensures SmallFactor(x)
    decreases q - p
  {
    if x > p + 1 { GapCovers(p + 1, q, x); }
  }

  /** `q` is the next prime after `p`. */
  predicate NextPrime(p: nat, q: nat) {
    p < q && IsPrime(q) && forall x :: p < x < q ==> !IsPrime(x)
  }

  lemma NextByFactors(p: nat, q: nat)
    requires 17 <= p < q < 361 && Gap(p, q) && !SmallFactor(q)
    ensures NextPrime(p, q)
  {
    PrimeUnlessFactor(q);
    forall x | p < x < q ensures !IsPrime(x) {
      GapCovers(p, q, x);
      FactorNotPrime(x);
    }
  }

  lemma FirstPrimes()
    ensures IsPrime(2) && NextPrime(2, 3) && NextPrime(3, 5) && NextPrime(5, 7)
    ensures NextPrime(7, 11) && NextPrime(11, 13) && NextPrime(13, 17)
  {
    assert 4 % 2 == 0 && 6 % 2 == 0 && 8 % 2 == 0 && 9 % 3 == 0 && 10 % 2 == 0;
    assert 12 % 2 == 0 && 14 % 2 == 0 && 15 % 3 == 0 && 16 % 2 == 0;
  }

  lemma PrimesFrom17(i: nat)
    requires 6 <= i < 13
    ensures NextPrime(Prime(i), Prime(i + 1))
  {
    match i
    case 6 => NextByFactors(17, 19);
    case 7 => NextByFactors(19, 23);
    case 8 => NextByFactors(23, 29);
    case 9 => NextByFactors(29, 31);
    case 10 => NextByFactors(31, 37);
    case 11 => NextByFactors(37, 41);
    case 12 => NextByFactors(41, 43);
  }

  lemma PrimesFrom43(i: nat)
    requires 13 <= i < 20
    ensures NextPrime(Prime(i), Prime(i + 1))
  {
    match i
    case 13 => NextByFactors(43, 47);
    case 14 => NextByFactors(47, 53);
    case 15 => NextByFactors(53, 59);
    case 16 => NextByFactors(59, 61);
    case 17 => NextByFactors(61, 67);
    case 18 => NextByFactors(67, 71);
    case 19 => NextByFactors(71, 73);
  }

  lemma PrimesFrom73(i: nat)
    requires 20 <= i < 27
    ensures NextPrime(Prime(i), Prime(i + 1))
  {
    match i
    case 20 => NextByFactors(73, 79);
    case 21 => NextByFactors(79, 83);
    case 22 => NextByFactors(83, 89);
    case 23 => NextByFactors(89, 97);
    case 24 => NextByFactors(97, 101);
    case 25 => NextByFactors(101, 103);
    case 26 => NextByFactors(103, 107);
  }

  lemma PrimesFrom107(i: nat)
    requires 27 <= i < 34
    ensures NextPrime(Prime(i), Prime(i + 1))
  {
    match i
    case 27 => NextByFactors(107, 109);
    case 28 => NextByFactors(109, 113);
    case 29 => NextByFactors(113, 127);
    case 30 => NextByFactors(127, 131);
    case 31 => NextByFactors(131, 137);
    case 32 => NextByFactors(137, 139);
    case 33 => NextByFactors(139, 149);
  }

  lemma PrimesFrom149(i: nat)
    requires 34 <= i < 41
    ensures NextPrime(Prime(i), Prime(i + 1))
  {
    match i
    case 34 => NextByFactors(149, 151);
    case 35 => NextByFactors(151, 157);
    case 36 => NextByFactors(157, 163);
    case 37 => NextByFactors(163, 167);
    case 38 => NextByFactors(167, 173);
    case 39 => NextByFactors(173, 179);
    case 40 => NextByFactors(179, 181);
  }

  lemma PrimesFrom181(i: nat)
    requires 41 <= i < 48
    ensures NextPrime(Prime(i), Prime(i + 1))
  {
    match i
    case 41 => NextByFactors(181, 191);
    case 42 => NextByFactors(191, 193);
    case 43 => NextByFactors(193, 197);
    case 44 => NextByFactors(197, 199);
    case 45 => NextByFactors(199, 211);
    case 46 => NextByFactors(211, 223);
    case 47 => NextByFactors(223, 227);
  }

  lemma PrimesFrom227(i: nat)
    requires 48 <= i < 55
    ensures NextPrime(Prime(i), Prime(i + 1))
  {
    match i
    case 48 => NextByFactors(227, 229);
    case 49 => NextByFactors(229, 233);
    case 50 => NextByFactors(233, 239);
    case 51 => NextByFactors(239, 241);
    case 52 => NextByFactors(241, 251);
    case 53 => NextByFactors(251, 257);
    case 54 => NextByFactors(257, 263);
  }

  lemma PrimesFrom263(i: nat)
    requires 55 <= i < 63
    ensures NextPrime(Prime(i), Prime(i + 1))
  {
    match i
    case 55 => NextByFactors(263, 269);
    case 56 => NextByFactors(269, 271);
    case 57 => NextByFactors(271, 277);
    case 58 => NextByFactors(277, 281);
    case 59 => NextByFactors(281, 283);
    case 60 => NextByFactors(283, 293);
    case 61 => NextByFactors(293, 307);
    case 62 => NextByFactors(307, 311);
  }

  /** The table is the list of all primes from 2 on. */
  lemma PrimeTable(i: nat)
    requires i < 63
    ensures Prime(0) == 2 && IsPrime(2) && NextPrime(Prime(i), Prime(i + 1))
  {
    FirstPrimes();
    if 6 <= i < 13 { PrimesFrom17(i); }
    if 13 <= i < 20 { PrimesFrom43(i); }
    if 20 <= i < 27 { PrimesFrom73(i); }
    if 27 <= i < 34 { PrimesFrom107(i); }
    if 34 <= i < 41 { PrimesFrom149(i); }
    if 41 <= i < 48 { PrimesFrom181(i); }
    if 48 <= i < 55 { PrimesFrom227(i); }
    if 55 <= i < 63 { PrimesFrom263(i); }
  }

  const TWO32: int := 0x1_0000_0000

  /** `k` is the first 32 bits of the fractional part of the cube root of `p`,
      whose whole part is `n`. */
  predicate CubeRoot(p: nat, n: nat, k: int) {
    var r := n * TWO32 + k;
    r * r * r <= p * (TWO32 * TWO32 * TWO32) < (r + 1) * (r + 1) * (r + 1)
  }

  predicate SquareRoot(p: nat, n: nat, k: int) {
    var r := n * TWO32 + k;
    r * r <= p * (TWO32 * TWO32) < (r + 1) * (r + 1)
  }

  predicate RootAt(i: nat, n: nat) { CubeRoot(Prime(i), n, K(i) as int) }

  lemma RootIs(i: nat, p: nat, n: nat, w: Word, k: int) returns (whole: nat)
    requires p == Prime(i) && w == K(i) && k == w as int && CubeRoot(p, n, k)
    ensures RootAt(i, whole)
  {
    whole := n;
  }

  lemma RootsFrom0(i: nat) returns (n: nat)
    requires 0 <= i < 4
    ensures RootAt(i, n)
  {
    match i
    case 0 => n := RootIs(0, 2, 1, 0x428a2f98, 0x428a2f98);
    case 1 => n := RootIs(1, 3, 1, 0x71374491, 0x71374491);
    case 2 => n := RootIs(2, 5, 1, 0xb5c0fbcf, 0xb5c0fbcf);
    case 3 => n := RootIs(3, 7, 1, 0xe9b5dba5, 0xe9b5dba5);
  }

  lemma RootsFrom4(i: nat) returns (n: nat)
    requires 4 <= i < 8
    ensures RootAt(i, n)
  {
    match i
    case 4 => n := RootIs(4, 11, 2, 0x3956c25b, 0x3956c25b);
    case 5 => n := RootIs(5, 13, 2, 0x59f111f1, 0x59f111f1);
    case 6 => n := RootIs(6, 17, 2, 0x923f82a4, 0x923f82a4);
    case 7 => n := RootIs(7, 19, 2, 0xab1c5ed5, 0xab1c5ed5);
  }

  lemma RootsFrom8(i: nat) returns (n: nat)
    requires 8 <= i < 12
    ensures RootAt(i, n)
  {
    match i
    case 8 => n := RootIs(8, 23, 2, 0xd807aa98, 0xd807aa98);
    case 9 => n := RootIs(9, 29, 3, 0x12835b01, 0x12835b01);
    case 10 => n := RootIs(10, 31, 3, 0x243185be, 0x243185be);
    case 11 => n := RootIs(11, 37, 3, 0x550c7dc3, 0x550c7dc3);
  }

  lemma RootsFrom12(i: nat) returns (n: nat)
    requires 12 <= i < 16
    ensures RootAt(i, n)
  {
    match i
    case 12 => n := RootIs(12, 41, 3, 0x72be5d74, 0x72be5d74);
    case 13 => n := RootIs(13, 43, 3, 0x80deb1fe, 0x80deb1fe);
    case 14 => n := RootIs(14, 47, 3, 0x9bdc06a7, 0x9bdc06a7);
    case 15 => n := RootIs(15, 53, 3, 0xc19bf174, 0xc19bf174);
  }

  lemma RootsFrom16(i: nat) returns (n: nat)
    requires 16 <= i < 20
    ensures RootAt(i, n)
  {
    match i
    case 16 => n := RootIs(16, 59, 3, 0xe49b69c1, 0xe49b69c1);
    case 17 => n := RootIs(17, 61, 3, 0xefbe4786, 0xefbe4786);
    case 18 => n := RootIs(18, 67, 4, 0x0fc19dc6, 0x0fc19dc6);
    case 19 => n := RootIs(19, 71, 4, 0x240ca1cc, 0x240ca1cc);
  }

  lemma RootsFrom20(i: nat) returns (n: nat)
    requires 20 <= i < 24
    ensures RootAt(i, n)
  {
    match i
    case 20 => n := RootIs(20, 73, 4, 0x2de92c6f, 0x2de92c6f);
    case 21 => n := RootIs(21, 79, 4, 0x4a7484aa, 0x4a7484aa);
    case 22 => n := RootIs(22, 83, 4, 0x5cb0a9dc, 0x5cb0a9dc);
    case 23 => n := RootIs(23, 89, 4, 0x76f988da, 0x76f988da);
  }

  lemma RootsFrom24(i: nat) returns (n: nat)
    requires 24 <= i < 28
    ensures RootAt(i, n)
  {
    match i
    case 24 => n := RootIs(24, 97, 4, 0x983e5152, 0x983e5152);
    case 25 => n := RootIs(25, 101, 4, 0xa831c66d, 0xa831c66d);
    case 26 => n := RootIs(26, 103, 4, 0xb00327c8, 0xb00327c8);
    case 27 => n := RootIs(27, 107, 4, 0xbf597fc7, 0xbf597fc7);
  }

  lemma RootsFrom28(i: nat) returns (n: nat)
    requires 28 <= i < 32
    ensures RootAt(i, n)
  {
    match i
    case 28 => n := RootIs(28, 109, 4, 0xc6e00bf3, 0xc6e00bf3);
    case 29 => n := RootIs(29, 113, 4, 0xd5a79147, 0xd5a79147);
    case 30 => n := RootIs(30, 127, 5, 0x06ca6351, 0x06ca6351);
    case 31 => n := RootIs(31, 131, 5, 0x14292967, 0x14292967);
  }

  lemma RootsFrom32(i: nat) returns (n: nat)
    requires 32 <= i < 36
    ensures RootAt(i, n)
  {
    match i
    case 32 => n := RootIs(32, 137, 5, 0x27b70a85, 0x27b70a85);
    case 33 => n := RootIs(33, 139, 5, 0x2e1b2138, 0x2e1b2138);
    case 34 => n := RootIs(34, 149, 5, 0x4d2c6dfc, 0x4d2c6dfc);
    case 35 => n := RootIs(35, 151, 5, 0x53380d13, 0x53380d13);
  }

  lemma RootsFrom36(i: nat) returns (n: nat)
    requires 36 <= i < 40
    ensures RootAt(i, n)
  {
    match i
    case 36 => n := RootIs(36, 157, 5, 0x650a7354, 0x650a7354);
    case 37 => n := RootIs(37, 163, 5, 0x766a0abb, 0x766a0abb);
    case 38 => n := RootIs(38, 167, 5, 0x81c2c92e, 0x81c2c92e);
    case 39 => n := RootIs(39, 173, 5, 0x92722c85, 0x92722c85);
  }

  lemma RootsFrom40(i: nat) returns (n: nat)
    requires 40 <= i < 44
    ensures RootAt(i, n)
  {
    match i
    case 40 => n := RootIs(40, 179, 5, 0xa2bfe8a1, 0xa2bfe8a1);
    case 41 => n := RootIs(41, 181, 5, 0xa81a664b, 0xa81a664b);
    case 42 => n := RootIs(42, 191, 5, 0xc24b8b70, 0xc24b8b70);
    case 43 => n := RootIs(43, 193, 5, 0xc76c51a3, 0xc76c51a3);
  }

  lemma RootsFrom44(i: nat) returns (n: nat)
    requires 44 <= i < 48
    ensures RootAt(i, n)
  {
    match i
    case 44 => n := RootIs(44, 197, 5, 0xd192e819, 0xd192e819);
    case 45 => n := RootIs(45, 199, 5, 0xd6990624, 0xd6990624);
    case 46 => n := RootIs(46, 211, 5, 0xf40e3585, 0xf40e3585);
    case 47 => n := RootIs(47, 223, 6, 0x106aa070, 0x106aa070);
  }

  lemma RootsFrom48(i: nat) returns (n: nat)
    requires 48 <= i < 52
    ensures RootAt(i, n)
  {
    match i
    case 48 => n := RootIs(48, 227, 6, 0x19a4c116, 0x19a4c116);
    case 49 => n := RootIs(49, 229, 6, 0x1e376c08, 0x1e376c08);
    case 50 => n := RootIs(50, 233, 6, 0x2748774c, 0x2748774c);
    case 51 => n := RootIs(51, 239, 6, 0x34b0bcb5, 0x34b0bcb5);
  }

  lemma RootsFrom52(i: nat) returns (n: nat)
    requires 52 <= i < 56
    ensures RootAt(i, n)
  {
    match i
    case 52 => n := RootIs(52, 241, 6, 0x391c0cb3, 0x391c0cb3);
    case 53 => n := RootIs(53, 251, 6, 0x4ed8aa4a, 0x4ed8aa4a);
    case 54 => n := RootIs(54, 257, 6, 0x5b9cca4f, 0x5b9cca4f);
    case 55 => n := RootIs(55, 263, 6, 0x682e6ff3, 0x682e6ff3);
  }

  lemma RootsFrom56(i: nat) returns (n: nat)
    requires 56 <= i < 60
    ensures RootAt(i, n)
  {
    match i
    case 56 => n := RootIs(56, 269, 6, 0x748f82ee, 0x748f82ee);
    case 57 => n := RootIs(57, 271, 6, 0x78a5636f, 0x78a5636f);
    case 58 => n := RootIs(58, 277, 6, 0x84c87814, 0x84c87814);
    case 59 => n := RootIs(59, 281, 6, 0x8cc70208, 0x8cc70208);
  }

  lemma RootsFrom60(i: nat) returns (n: nat)
    requires 60 <= i < 64
    ensures RootAt(i, n)
  {
    match i
    case 60 => n := RootIs(60, 283, 6, 0x90befffa, 0x90befffa);
    case 61 => n := RootIs(61, 293, 6, 0xa4506ceb, 0xa4506ceb);
    case 62 => n := RootIs(62, 307, 6, 0xbef9a3f7, 0xbef9a3f7);
    case 63 => n := RootIs(63, 311, 6, 0xc67178f2, 0xc67178f2);
  }

  /** Each constant is the first 32 bits of the fractional part of the cube root
      of a prime. */
  lemma ConstantIsCubeRoot(i: nat) returns (n: nat)
    requires i < 64
    ensures CubeRoot(Prime(i), n, K(i) as int)
  {
    if i < 4 {
      n := RootsFrom0(i);
    } else if i < 8 {
      n := RootsFrom4(i);
    } else if i < 12 {
      n := RootsFrom8(i);
    } else if i < 16 {
      n := RootsFrom12(i);
    } else if i < 20 {
      n := RootsFrom16(i);
    } else if i < 24 {
      n := RootsFrom20(i);
    } else if i < 28 {
      n := RootsFrom24(i);
    } else if i < 32 {
      n := RootsFrom28(i);
    } else if i < 36 {
      n := RootsFrom32(i);
    } else if i < 40 {
      n := RootsFrom36(i);
    } else if i < 44 {
      n := RootsFrom40(i);
    } else if i < 48 {
      n := RootsFrom44(i);
    } else if i < 52 {
      n := RootsFrom48(i);
    } else if i < 56 {
      n := RootsFrom52(i);
    } else if i < 60 {
      n := RootsFrom56(i);
    } else {
      n := RootsFrom60(i);
    }
  }
}
