/** The constants and the functions of SHA-256 against what FIPS 180-4 says they are: sections 4.1.2,
    4.2.2 and 5.3.3, and the byte order of section 3.1. */
module FipsConstants {
  import opened Bytes
  import opened Bits
  import opened Fips180

  // ---- The first primes --------------------------------------------------------------------

  ghost predicate IsPrime(n: nat) { n >= 2 && forall d :: 2 <= d < n ==> n % d != 0 }

  ghost function PrimesBelow(n: nat): nat
  {
    if n == 0 then 0 else PrimesBelow(n - 1) + if IsPrime(n - 1) then 1 else 0
  }

  /** The prime with t primes below it. */
  ghost predicate IsNthPrime(p: nat, t: nat) { IsPrime(p) && PrimesBelow(p) == t }

  // Not a multiple of a smaller prime up to 17.
  predicate Rough(n: nat)
  {
    && n >= 2 && (n == 2 || n % 2 != 0) && (n == 3 || n % 3 != 0) && (n == 5 || n % 5 != 0) && (n == 7 || n % 7 != 0)
    && (n == 11 || n % 11 != 0) && (n == 13 || n % 13 != 0) && (n == 17 || n % 17 != 0)
  }

  function RoughBelow(n: nat): nat
  {
    if n == 0 then 0 else RoughBelow(n - 1) + if Rough(n - 1) then 1 else 0
  }

  lemma SmallDivisor(n: nat, d: nat)
    requires 2 <= d <= 18 && d < n && n % d == 0
    ensures !Rough(n)
  {
    var e := n / d;
    assert n == d * e;
    var p := if d % 2 == 0 then 2 else if d % 3 == 0 then 3 else d;
    assert d == 2 || d == 3 || d == 4 || d == 5 || d == 6 || d == 7 || d == 8 || d == 9 || d == 10
        || d == 11 || d == 12 || d == 13 || d == 14 || d == 15 || d == 16 || d == 17 || d == 18;
    assert n % p == 0 by { DividesToo(n, d, p); }
  }

  lemma DividesToo(n: nat, d: nat, p: nat)
    requires d > 0 && p > 0 && n % d == 0 && d % p == 0
    ensures n % p == 0
  {
    var e, f := n / d, d / p;
    assert n == (f * e) * p + 0 by {
      assert n == d * e && d == f * p;
      assert d * e == f * p * e == (f * e) * p;
    }
    QuotientUnique(n, p, f * e, 0);
  }

  // A number below 19 * 19 with a divisor has one up to 18.
  lemma RoughIsPrime(n: nat)
    requires n < 361
    ensures IsPrime(n) <==> Rough(n)
  {
    if Rough(n) {
      forall d | 2 <= d < n
        ensures n % d != 0
      {
        if n % d == 0 {
          CoDivisor(n, d);
          SmallDivisor(n, if d <= 18 then d else n / d);
        }
      }
    }
  }

  lemma CoDivisor(n: nat, d: nat)
    requires 2 <= d < n < 361 && n % d == 0
    ensures d <= 18 || (2 <= n / d <= 18 && n / d < n && n % (n / d) == 0)
  {
    var e := n / d;
    assert n == d * e;
    assert e <= 1 ==> d * e <= d;
    assert d >= 19 && e >= 19 ==> d * e >= 19 * e;
    if d > 18 {
      QuotientUnique(n, e, d, 0);
    }
  }

  lemma {:induction false} CountsPrimes(n: nat)
    requires n <= 361
    ensures PrimesBelow(n) == RoughBelow(n)
  {
    hide IsPrime, Rough;
    if n != 0 {
      CountsPrimes(n - 1);
      RoughIsPrime(n - 1);
    }
  }

  // The first 64 primes.
  function PrimeAt(t: nat): (p: nat)
    ensures p < 361
  {
    match t
    case 0 => 2 case 1 => 3 case 2 => 5 case 3 => 7 case 4 => 11 case 5 => 13 case 6 => 17 case 7 => 19
    case 8 => 23 case 9 => 29 case 10 => 31 case 11 => 37 case 12 => 41 case 13 => 43 case 14 => 47 case 15 => 53
    case 16 => 59 case 17 => 61 case 18 => 67 case 19 => 71 case 20 => 73 case 21 => 79 case 22 => 83 case 23 => 89
    case 24 => 97 case 25 => 101 case 26 => 103 case 27 => 107 case 28 => 109 case 29 => 113 case 30 => 127 case 31 => 131
    case 32 => 137 case 33 => 139 case 34 => 149 case 35 => 151 case 36 => 157 case 37 => 163 case 38 => 167 case 39 => 173
    case 40 => 179 case 41 => 181 case 42 => 191 case 43 => 193 case 44 => 197 case 45 => 199 case 46 => 211 case 47 => 223
    case 48 => 227 case 49 => 229 case 50 => 233 case 51 => 239 case 52 => 241 case 53 => 251 case 54 => 257 case 55 => 263
    case 56 => 269 case 57 => 271 case 58 => 277 case 59 => 281 case 60 => 283 case 61 => 293 case 62 => 307 case 63 => 311
    case _ => 0
  }

  predicate NoneRough(a: nat, b: nat)
    decreases if a < b then b - a else 0
  {
    a + 1 >= b || (!Rough(a + 1) && NoneRough(a + 1, b))
  }

  // An entry is rough and the next rough number after the entry before it.
  predicate PrimeOk(t: nat)
  {
    Rough(PrimeAt(t)) && (t > 0 ==> PrimeAt(t - 1) < PrimeAt(t) && NoneRough(PrimeAt(t - 1), PrimeAt(t)))
  }

  predicate PrimesOk(n: nat) { n == 0 || (PrimesOk(n - 1) && PrimeOk(n - 1)) }

  lemma Gaps0()
    ensures Rough(2) && NoneRough(2, 3) && Rough(3) && NoneRough(3, 5) && Rough(5) && NoneRough(5, 7) && Rough(7)
    ensures NoneRough(7, 11) && Rough(11) && NoneRough(11, 13) && Rough(13)
    ensures NoneRough(13, 17) && Rough(17) && NoneRough(17, 19) && Rough(19)
    ensures NoneRough(19, 23) && Rough(23) && NoneRough(23, 29) && Rough(29)
    ensures NoneRough(29, 31) && Rough(31) && NoneRough(31, 37) && Rough(37)
    ensures NoneRough(37, 41) && Rough(41) && NoneRough(41, 43) && Rough(43)
    ensures NoneRough(43, 47) && Rough(47) && NoneRough(47, 53) && Rough(53)
  {
  }

  lemma PrimesTo16()
    ensures PrimesOk(16)
  {
    hide Rough, NoneRough;
    Gaps0();
    assert PrimesOk(4) && PrimesOk(8) && PrimesOk(12);
  }

  lemma Gaps16()
    ensures NoneRough(53, 59) && Rough(59) && NoneRough(59, 61) && Rough(61)
    ensures NoneRough(61, 67) && Rough(67) && NoneRough(67, 71) && Rough(71)
    ensures NoneRough(71, 73) && Rough(73) && NoneRough(73, 79) && Rough(79)
    ensures NoneRough(79, 83) && Rough(83) && NoneRough(83, 89) && Rough(89)
    ensures NoneRough(89, 97) && Rough(97) && NoneRough(97, 101) && Rough(101)
    ensures NoneRough(101, 103) && Rough(103) && NoneRough(103, 107) && Rough(107)
    ensures NoneRough(107, 109) && Rough(109) && NoneRough(109, 113) && Rough(113)
    ensures NoneRough(113, 127) && Rough(127) && NoneRough(127, 131) && Rough(131)
  {
  }

  lemma PrimesTo32()
    ensures PrimesOk(32)
  {
    hide Rough, NoneRough;
    PrimesTo16();
    Gaps16();
    assert PrimesOk(20) && PrimesOk(24) && PrimesOk(28);
  }

  lemma Gaps32()
    ensures NoneRough(131, 137) && Rough(137) && NoneRough(137, 139) && Rough(139)
    ensures NoneRough(139, 149) && Rough(149) && NoneRough(149, 151) && Rough(151)
    ensures NoneRough(151, 157) && Rough(157) && NoneRough(157, 163) && Rough(163)
    ensures NoneRough(163, 167) && Rough(167) && NoneRough(167, 173) && Rough(173)
    ensures NoneRough(173, 179) && Rough(179) && NoneRough(179, 181) && Rough(181)
    ensures NoneRough(181, 191) && Rough(191) && NoneRough(191, 193) && Rough(193)
    ensures NoneRough(193, 197) && Rough(197) && NoneRough(197, 199) && Rough(199)
    ensures NoneRough(199, 211) && Rough(211) && NoneRough(211, 223) && Rough(223)
  {
  }

  lemma PrimesTo48()
    ensures PrimesOk(48)
  {
    hide Rough, NoneRough;
    PrimesTo32();
    Gaps32();
    assert PrimesOk(36) && PrimesOk(40) && PrimesOk(44);
  }

  lemma Gaps48()
    ensures NoneRough(223, 227) && Rough(227) && NoneRough(227, 229) && Rough(229)
    ensures NoneRough(229, 233) && Rough(233) && NoneRough(233, 239) && Rough(239)
    ensures NoneRough(239, 241) && Rough(241) && NoneRough(241, 251) && Rough(251)
    ensures NoneRough(251, 257) && Rough(257) && NoneRough(257, 263) && Rough(263)
    ensures NoneRough(263, 269) && Rough(269) && NoneRough(269, 271) && Rough(271)
    ensures NoneRough(271, 277) && Rough(277) && NoneRough(277, 281) && Rough(281)
    ensures NoneRough(281, 283) && Rough(283) && NoneRough(283, 293) && Rough(293)
    ensures NoneRough(293, 307) && Rough(307) && NoneRough(307, 311) && Rough(311)
  {
  }

  lemma PrimesTo64()
    ensures PrimesOk(64)
  {
    hide Rough, NoneRough;
    PrimesTo48();
    Gaps48();
    assert PrimesOk(52) && PrimesOk(56) && PrimesOk(60);
  }

  // ---- Cube roots --------------------------------------------------------------------------

  // The first 32 bits of the fractional part of the cube root of p.
  predicate CubeRootBits(bits: nat, p: nat)
  {
    var whole := if p < 8 then 1 else if p < 27 then 2 else if p < 64 then 3 else if p < 125 then 4 else if p < 216 then 5 else 6;
    var n := whole * 0x1_0000_0000 + bits;
    && bits < 0x1_0000_0000
    && n * n * n <= p * 0x1_0000_0000_0000_0000_0000_0000 < (n + 1) * (n + 1) * (n + 1)
  }

  lemma CubeRoots0()
    ensures CubeRootBits(0x428a2f98, 2) && CubeRootBits(0x71374491, 3)
    ensures CubeRootBits(0xb5c0fbcf, 5) && CubeRootBits(0xe9b5dba5, 7)
    ensures CubeRootBits(0x3956c25b, 11) && CubeRootBits(0x59f111f1, 13)
    ensures CubeRootBits(0x923f82a4, 17) && CubeRootBits(0xab1c5ed5, 19)
    ensures CubeRootBits(0xd807aa98, 23) && CubeRootBits(0x12835b01, 29)
    ensures CubeRootBits(0x243185be, 31) && CubeRootBits(0x550c7dc3, 37)
    ensures CubeRootBits(0x72be5d74, 41) && CubeRootBits(0x80deb1fe, 43)
    ensures CubeRootBits(0x9bdc06a7, 47) && CubeRootBits(0xc19bf174, 53)
  {
  }

  lemma CubeRoots16()
    ensures CubeRootBits(0xe49b69c1, 59) && CubeRootBits(0xefbe4786, 61)
    ensures CubeRootBits(0x0fc19dc6, 67) && CubeRootBits(0x240ca1cc, 71)
    ensures CubeRootBits(0x2de92c6f, 73) && CubeRootBits(0x4a7484aa, 79)
    ensures CubeRootBits(0x5cb0a9dc, 83) && CubeRootBits(0x76f988da, 89)
    ensures CubeRootBits(0x983e5152, 97) && CubeRootBits(0xa831c66d, 101)
    ensures CubeRootBits(0xb00327c8, 103) && CubeRootBits(0xbf597fc7, 107)
    ensures CubeRootBits(0xc6e00bf3, 109) && CubeRootBits(0xd5a79147, 113)
    ensures CubeRootBits(0x06ca6351, 127) && CubeRootBits(0x14292967, 131)
  {
  }

  lemma CubeRoots32()
    ensures CubeRootBits(0x27b70a85, 137) && CubeRootBits(0x2e1b2138, 139)
    ensures CubeRootBits(0x4d2c6dfc, 149) && CubeRootBits(0x53380d13, 151)
    ensures CubeRootBits(0x650a7354, 157) && CubeRootBits(0x766a0abb, 163)
    ensures CubeRootBits(0x81c2c92e, 167) && CubeRootBits(0x92722c85, 173)
    ensures CubeRootBits(0xa2bfe8a1, 179) && CubeRootBits(0xa81a664b, 181)
    ensures CubeRootBits(0xc24b8b70, 191) && CubeRootBits(0xc76c51a3, 193)
    ensures CubeRootBits(0xd192e819, 197) && CubeRootBits(0xd6990624, 199)
    ensures CubeRootBits(0xf40e3585, 211) && CubeRootBits(0x106aa070, 223)
  {
  }

  lemma CubeRoots48()
    ensures CubeRootBits(0x19a4c116, 227) && CubeRootBits(0x1e376c08, 229)
    ensures CubeRootBits(0x2748774c, 233) && CubeRootBits(0x34b0bcb5, 239)
    ensures CubeRootBits(0x391c0cb3, 241) && CubeRootBits(0x4ed8aa4a, 251)
    ensures CubeRootBits(0x5b9cca4f, 257) && CubeRootBits(0x682e6ff3, 263)
    ensures CubeRootBits(0x748f82ee, 269) && CubeRootBits(0x78a5636f, 271)
    ensures CubeRootBits(0x84c87814, 277) && CubeRootBits(0x8cc70208, 281)
    ensures CubeRootBits(0x90befffa, 283) && CubeRootBits(0xa4506ceb, 293)
    ensures CubeRootBits(0xbef9a3f7, 307) && CubeRootBits(0xc67178f2, 311)
  {
  }

  predicate RootsOk(n: nat)
    requires n <= 64
  {
    n == 0 || (RootsOk(n - 1) && CubeRootBits(K[n - 1] as nat, PrimeAt(n - 1)))
  }

  lemma RootsTo8()
    ensures RootsOk(8)
  {
    hide CubeRootBits;
    CubeRoots0();
    assert RootsOk(4);
  }

  lemma RootsTo16()
    ensures RootsOk(16)
  {
    hide CubeRootBits;
    RootsTo8();
    CubeRoots0();
    assert RootsOk(12);
  }

  lemma RootsTo24()
    ensures RootsOk(24)
  {
    hide CubeRootBits;
    RootsTo16();
    CubeRoots16();
    assert RootsOk(20);
  }

  lemma RootsTo32()
    ensures RootsOk(32)
  {
    hide CubeRootBits;
    RootsTo24();
    CubeRoots16();
    assert RootsOk(28);
  }

  lemma RootsTo40()
    ensures RootsOk(40)
  {
    hide CubeRootBits;
    RootsTo32();
    CubeRoots32();
    assert RootsOk(36);
  }

  lemma RootsTo48()
    ensures RootsOk(48)
  {
    hide CubeRootBits;
    RootsTo40();
    CubeRoots32();
    assert RootsOk(44);
  }

  lemma RootsTo56()
    ensures RootsOk(56)
  {
    hide CubeRootBits;
    RootsTo48();
    CubeRoots48();
    assert RootsOk(52);
  }

  lemma RootsTo64()
    ensures RootsOk(64)
  {
    hide CubeRootBits;
    RootsTo56();
    CubeRoots48();
    assert RootsOk(60);
  }

  // Nothing rough strictly between two numbers.
  lemma {:induction false} CountsNothing(a: nat, b: nat)
    requires a < b && NoneRough(a, b)
    ensures RoughBelow(b) == RoughBelow(a + 1)
    decreases b - a
  {
    hide Rough;
    if a + 1 < b {
      CountsNothing(a + 1, b);
    }
  }

  lemma {:induction false} PrimesCounted(n: nat, t: nat)
    requires PrimesOk(n) && t < n
    ensures Rough(PrimeAt(t)) && RoughBelow(PrimeAt(t)) == t
    decreases n, t
  {
    hide Rough, PrimeAt, NoneRough;
    if t + 1 < n {
      PrimesCounted(n - 1, t);
    } else if t > 0 {
      PrimesCounted(n - 1, t - 1);
      CountsNothing(PrimeAt(t - 1), PrimeAt(t));
    } else {
      FirstPrime();
    }
  }

  lemma FirstPrime()
    ensures PrimeAt(0) == 2 && RoughBelow(2) == 0
  {
  }

  lemma NthPrime(t: nat)
    requires t < 64
    ensures IsNthPrime(PrimeAt(t), t)
  {
    hide IsPrime, Rough, PrimeAt, PrimesOk;
    PrimesTo64();
    PrimesCounted(64, t);
    RoughIsPrime(PrimeAt(t));
    CountsPrimes(PrimeAt(t));
  }

  // ---- Sections 4.2.2 and 5.3.3 ------------------------------------------------------------

  const TWO_32: nat := 0x1_0000_0000

  /** The first 32 bits of the fractional part of the cube root of p: root is floor(2^32 * cbrt(p)). */
  ghost predicate IsCubeRootFraction(bits: nat, p: nat)
  {
    exists root: nat :: bits == root % TWO_32 && IsRoot3(root, p)
  }

  predicate IsRoot3(root: nat, p: nat)
  {
    root * root * root <= p * (TWO_32 * TWO_32 * TWO_32) < (root + 1) * (root + 1) * (root + 1)
  }

  /** The first 32 bits of the fractional part of the square root of p: root is floor(2^32 * sqrt(p)). */
  ghost predicate IsSquareRootFraction(bits: nat, p: nat)
  {
    exists root: nat :: bits == root % TWO_32 && IsRoot2(root, p)
  }

  predicate IsRoot2(root: nat, p: nat)
  {
    root * root <= p * (TWO_32 * TWO_32) < (root + 1) * (root + 1)
  }

  lemma BitsAreFraction(bits: nat, p: nat)
    requires CubeRootBits(bits, p)
    ensures IsCubeRootFraction(bits, p)
  {
    var whole := if p < 8 then 1 else if p < 27 then 2 else if p < 64 then 3 else if p < 125 then 4 else if p < 216 then 5 else 6;
    assert IsRoot3(whole * TWO_32 + bits, p);
  }

  lemma {:induction false} RootsExtract(n: nat, t: nat)
    requires n <= 64 && RootsOk(n) && t < n
    ensures CubeRootBits(K[t] as nat, PrimeAt(t))
  {
    hide CubeRootBits, PrimeAt;
    if t + 1 < n {
      RootsExtract(n - 1, t);
    }
  }

  /** Section 4.2.2: K[t] holds the first 32 bits of the fractional part of the cube root of the t-th prime. */
  lemma RoundConstants(t: nat) returns (p: nat)
    requires t < 64
    ensures |K| == 64 && IsNthPrime(p, t) && IsCubeRootFraction(K[t] as nat, p)
  {
    hide CubeRootBits, PrimeAt, RootsOk, IsNthPrime, IsCubeRootFraction;
    p := PrimeAt(t);
    NthPrime(t);
    RootsTo64();
    RootsExtract(64, t);
    BitsAreFraction(K[t] as nat, p);
  }

  /** Section 5.3.3: the initial hash value holds the square root fractions of the first eight primes. */
  lemma InitialHashValue(t: nat) returns (p: nat)
    requires t < 8
    ensures |H0| == 8 && IsNthPrime(p, t) && IsSquareRootFraction(H0[t] as nat, p)
  {
    p := PrimeAt(t);
    assert IsNthPrime(p, t) by {
      hide IsNthPrime, PrimeAt;
      NthPrime(t);
    }
    var whole := match t case 0 => 1 case 1 => 1 case 2 => 2 case 3 => 2 case 4 => 3 case 5 => 3 case _ => 4;
    assert IsRoot2(whole * TWO_32 + H0[t] as nat, p);
  }

  // ---- Sections 4.1.2 and 3.1 --------------------------------------------------------------

  /** Ch chooses, on any set of bits given as a mask. */
  lemma Chooses(x: Word, y: Word, z: Word, mask: Word)
    ensures x & mask == mask ==> Ch(x, y, z) & mask == y & mask
    ensures x & mask == 0 ==> Ch(x, y, z) & mask == z & mask
  {
  }

  lemma MajorityMasked(x: Word, y: Word, z: Word, mask: Word)
    ensures Maj(x, y, z) & mask == Maj(x & mask, y & mask, z & mask)
  {
  }

  lemma MajorityOfTwo(x: Word, y: Word)
    ensures Maj(x, x, y) == x && Maj(x, y, x) == x && Maj(y, x, x) == x
  {
  }

  /** Maj takes the majority, on any set of bits given as a mask. */
  lemma Majority(x: Word, y: Word, z: Word, mask: Word)
    ensures x & mask == y & mask ==> Maj(x, y, z) & mask == x & mask
    ensures x & mask == z & mask ==> Maj(x, y, z) & mask == x & mask
    ensures y & mask == z & mask ==> Maj(x, y, z) & mask == y & mask
  {
    hide Maj;
    MajorityMasked(x, y, z, mask);
    MajorityOfTwo(x & mask, y & mask);
    MajorityOfTwo(x & mask, z & mask);
    MajorityOfTwo(y & mask, x & mask);
  }

  /** A word is its four bytes, most significant first. */
  lemma BytesOfWord(b: seq<Byte>)
    requires |b| == 4
    ensures WordOf(b) as nat == 0x100_0000 * b[0] as nat + 0x1_0000 * b[1] as nat + 0x100 * b[2] as nat + b[3] as nat
    ensures BytesOf(WordOf(b)) == b
  {
    hide WordOf, BigEndian, ValueOf;
    WordIsValue(b);
    BigEndianOfValue(b);
    FourBytes(b);
  }

  lemma WordIsValue(b: seq<Byte>)
    requires |b| == 4
    ensures WordOf(b) as nat == ValueOf(b)
  {
    Pow256Values();
    var w := WordWithValue(ValueOf(b));
    assert (w as nat) as Word == w;
  }

  // Every number below 2^32 is the value of a word, built bit by bit.
  lemma {:induction false} WordWithValue(n: nat) returns (w: Word)
    requires n < TWO_32
    ensures w as nat == n
  {
    if n == 0 {
      w := 0;
    } else {
      var half := WordWithValue(n / 2);
      NotTopBit(half);
      Shifted(half);
      w := if n % 2 == 0 then half << 1 else (half << 1) | 1;
    }
  }

  lemma NotTopBit(w: Word)
    requires w as nat < 0x8000_0000
    ensures w < 0x8000_0000
  {
  }

  lemma Shifted(w: Word)
    requires w < 0x8000_0000
    ensures (w << 1) as nat == 2 * (w as nat)
    ensures ((w << 1) | 1) as nat == 2 * (w as nat) + 1
  {
  }

  lemma FourBytes(b: seq<Byte>)
    requires |b| == 4
    ensures ValueOf(b) == 0x100_0000 * b[0] as nat + 0x1_0000 * b[1] as nat + 0x100 * b[2] as nat + b[3] as nat
  {
    assert b[..3][..2] == b[..2] && b[..2][..1] == b[..1] && b[..1][..0] == [];
    assert ValueOf(b[..1]) == b[0] as nat;
    assert ValueOf(b[..2]) == 0x100 * b[0] as nat + b[1] as nat;
    assert ValueOf(b[..3]) == 0x1_0000 * b[0] as nat + 0x100 * b[1] as nat + b[2] as nat;
  }

  lemma WordOfBytes(w: Word)
    ensures WordOf(BytesOf(w)) == w
  {
    Pow256Values();
    ValueOfBigEndian(w as nat, 4);
  }
}
