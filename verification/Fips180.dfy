/** SHA-256 as FIPS 180-4 defines it, on whole messages: the functions of section 4.1.2, the
    constants of section 4.2.2, the padding of section 5.1.1, the initial hash value of section
    5.3.3 and the hash computation of section 6.2.2.  Nothing here is incremental or in place. */
module Fips180 {
  import opened Bytes

  type Word = bv32
  type HashValue = h: seq<Word> | |h| == 8 witness H0
  type Block = b: seq<Byte> | |b| == 64 witness seq(64, _ => 0)

  const TWO_64: nat := 0x1_0000_0000_0000_0000
  const TWO_61: nat := 0x2000_0000_0000_0000

  const H0: seq<Word> := [
    0x6a09e667, 0xbb67ae85, 0x3c6ef372, 0xa54ff53a, 0x510e527f, 0x9b05688c, 0x1f83d9ab, 0x5be0cd19]

  const K: seq<Word> :=
    [0x428a2f98, 0x71374491, 0xb5c0fbcf, 0xe9b5dba5, 0x3956c25b, 0x59f111f1, 0x923f82a4, 0xab1c5ed5] +
    [0xd807aa98, 0x12835b01, 0x243185be, 0x550c7dc3, 0x72be5d74, 0x80deb1fe, 0x9bdc06a7, 0xc19bf174] +
    [0xe49b69c1, 0xefbe4786, 0x0fc19dc6, 0x240ca1cc, 0x2de92c6f, 0x4a7484aa, 0x5cb0a9dc, 0x76f988da] +
    [0x983e5152, 0xa831c66d, 0xb00327c8, 0xbf597fc7, 0xc6e00bf3, 0xd5a79147, 0x06ca6351, 0x14292967] +
    [0x27b70a85, 0x2e1b2138, 0x4d2c6dfc, 0x53380d13, 0x650a7354, 0x766a0abb, 0x81c2c92e, 0x92722c85] +
    [0xa2bfe8a1, 0xa81a664b, 0xc24b8b70, 0xc76c51a3, 0xd192e819, 0xd6990624, 0xf40e3585, 0x106aa070] +
    [0x19a4c116, 0x1e376c08, 0x2748774c, 0x34b0bcb5, 0x391c0cb3, 0x4ed8aa4a, 0x5b9cca4f, 0x682e6ff3] +
    [0x748f82ee, 0x78a5636f, 0x84c87814, 0x8cc70208, 0x90befffa, 0xa4506ceb, 0xbef9a3f7, 0xc67178f2]

  // Addition modulo 2^32.
  function Add(x: Word, y: Word): Word { x + y }

  // Section 4.1.2; ROTR^n(x) is (x >> n) | (x << 32 - n).
  function Ch(x: Word, y: Word, z: Word): Word { (x & y) ^ (!x & z) }
  function Maj(x: Word, y: Word, z: Word): Word { (x & y) ^ (x & z) ^ (y & z) }
  function BigSigma0(x: Word): Word { ((x >> 2) | (x << 30)) ^ ((x >> 13) | (x << 19)) ^ ((x >> 22) | (x << 10)) }
  function BigSigma1(x: Word): Word { ((x >> 6) | (x << 26)) ^ ((x >> 11) | (x << 21)) ^ ((x >> 25) | (x << 7)) }
  function SmallSigma0(x: Word): Word { ((x >> 7) | (x << 25)) ^ ((x >> 18) | (x << 14)) ^ (x >> 3) }
  function SmallSigma1(x: Word): Word { ((x >> 17) | (x << 15)) ^ ((x >> 19) | (x << 13)) ^ (x >> 10) }

  // Words are the big-endian numbers of four bytes.
  function WordOf(b: seq<Byte>): Word
    requires |b| == 4
  {
    Pow256Values();
    ValueOf(b) as Word
  }

  function BytesOf(w: Word): (b: seq<Byte>)
    ensures |b| == 4
  {
    BigEndian(w as nat, 4)
  }

  /** The message schedule W_t, a recursion on t. */
  function Schedule(block: Block, t: nat): Word
  {
    if t < 16 then WordOf(block[4 * t..4 * t + 4])
    else Add(Add(Add(SmallSigma1(Schedule(block, t - 2)), Schedule(block, t - 7)),
                 SmallSigma0(Schedule(block, t - 15))), Schedule(block, t - 16))
  }

  datatype Vars = Vars(a: Word, b: Word, c: Word, d: Word, e: Word, f: Word, g: Word, h: Word)

  function Round(v: Vars, k: Word, w: Word): Vars
  {
    var t1 := Add(Add(Add(Add(v.h, BigSigma1(v.e)), Ch(v.e, v.f, v.g)), k), w);
    var t2 := Add(BigSigma0(v.a), Maj(v.a, v.b, v.c));
    Vars(Add(t1, t2), v.a, v.b, v.c, Add(v.d, t1), v.e, v.f, v.g)
  }

  /** The working variables after the first t of the 64 rounds. */
  function Rounds(v: Vars, block: Block, t: nat): Vars
    requires t <= 64
    decreases t
  {
    if t == 0 then v else Round(Rounds(v, block, t - 1), K[t - 1], Schedule(block, t - 1))
  }

  function InitialVars(h: HashValue): Vars { Vars(h[0], h[1], h[2], h[3], h[4], h[5], h[6], h[7]) }

  function Compress(h: HashValue, block: Block): HashValue
  {
    var v := Rounds(InitialVars(h), block, 64);
    [Add(h[0], v.a), Add(h[1], v.b), Add(h[2], v.c), Add(h[3], v.d),
     Add(h[4], v.e), Add(h[5], v.f), Add(h[6], v.g), Add(h[7], v.h)]
  }

  /** The hash value after the blocks of data, whose length is a whole number of blocks. */
  function HashBlocks(data: seq<Byte>): HashValue
    requires |data| % 64 == 0
  {
    if data == [] then H0
    else Compress(HashBlocks(data[..|data| - 64]), data[|data| - 64..])
  }

  function Zeros(n: nat): (z: seq<Byte>)
    ensures |z| == n
  {
    seq(n, _ => 0)
  }

  /** The number of zero bytes between the 0x80 byte and the length field. */
  function PadZeros(length: nat): (k: nat)
    ensures k < 64 && (length + 1 + k + 8) % 64 == 0
  {
    (55 - length) % 64
  }

  /** The padded message.  The length field holds the bit length modulo 2^64; section 5.1.1 speaks
      only of messages below 2^64 bits, and there the field is the bit length itself. */
  function Pad(message: seq<Byte>): (p: seq<Byte>)
    ensures |p| % 64 == 0
  {
    message + [0x80] + Zeros(PadZeros(|message|)) + BigEndian(8 * |message| % TWO_64, 8)
  }

  function DigestBytes(h: seq<Word>): (d: seq<Byte>)
    ensures |d| == 4 * |h|
  {
    if h == [] then [] else DigestBytes(h[..|h| - 1]) + BytesOf(h[|h| - 1])
  }

  function Sha256(message: seq<Byte>): (d: seq<Byte>)
    ensures |d| == 32
  {
    DigestBytes(HashBlocks(Pad(message)))
  }

  /** Section 5.1.1: the padded message is the message, a one bit, the least number of zero bits
      that leaves 64 bits to a multiple of 512, and the bit length as a 64-bit number. */
  lemma {:induction false} PadIsFips(message: seq<Byte>)
    requires |message| < TWO_61
    ensures message <= Pad(message) && Pad(message)[|message|] == 0x80
    ensures forall i :: |message| < i < |Pad(message)| - 8 ==> Pad(message)[i] == 0
    ensures |Pad(message)| - 64 < |message| + 9 <= |Pad(message)|
    ensures ValueOf(Pad(message)[|Pad(message)| - 8..]) == 8 * |message|
  {
    hide BigEndian, ValueOf;
    assert Pad(message)[|Pad(message)| - 8..] == BigEndian(8 * |message|, 8);
    Pow256Values();
    ValueOfBigEndian(8 * |message|, 8);
  }

  lemma {:induction false} HashBlocksAppend(data: seq<Byte>, block: Block)
    requires |data| % 64 == 0
    ensures HashBlocks(data + block) == Compress(HashBlocks(data), block)
  {
    var all := data + block;
    assert all[..|all| - 64] == data && all[|all| - 64..] == block;
  }
}
