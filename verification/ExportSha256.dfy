/** The incremental hasher of the client's export download: partial-block buffering, in-place message
    schedule, rotated working variables and one-or-two-block padding, proved against Fips180. */
module ExportSha256 {
  import opened Bytes
  import opened Fips180

  // Addition modulo 2^32 is a commutative group operation; the code adds the schedule terms in the
  // opposite order to section 6.2.2.
  lemma AddCommutes(x: Word, y: Word)
    ensures Add(x, y) == Add(y, x)
  {
  }

  lemma AddAssociates(x: Word, y: Word, z: Word)
    ensures Add(Add(x, y), z) == Add(x, Add(y, z))
  {
    calc {
      Add(Add(x, y), z);
      Add(x + y, z);
      (x + y) + z;
      x + (y + z);
      Add(x, y + z);
      Add(x, Add(y, z));
    }
  }

  lemma AddReverses(a: Word, b: Word, c: Word, d: Word)
    ensures Add(Add(Add(a, b), c), d) == Add(Add(Add(d, c), b), a)
  {
    hide Add;
    AddAssociates(a, b, c);
    AddCommutes(b, c);
    AddCommutes(a, Add(b, c));
    AddCommutes(Add(Add(c, b), a), d);
    AddAssociates(d, Add(c, b), a);
    AddAssociates(d, c, b);
  }

  // The expressions of the source, with its rotate_right, against the functions of section 4.1.2.
  method ScheduleSigma0(x: Word) returns (s: Word)
    ensures s == SmallSigma0(x)
  {
    s := x.RotateRight(7) ^ x.RotateRight(18) ^ (x >> 3);
  }

  method ScheduleSigma1(x: Word) returns (s: Word)
    ensures s == SmallSigma1(x)
  {
    s := x.RotateRight(17) ^ x.RotateRight(19) ^ (x >> 10);
  }

  method RoundSum1(e: Word) returns (s: Word)
    ensures s == BigSigma1(e)
  {
    s := e.RotateRight(6) ^ e.RotateRight(11) ^ e.RotateRight(25);
  }

  method RoundSum0(a: Word) returns (s: Word)
    ensures s == BigSigma0(a)
  {
    s := a.RotateRight(2) ^ a.RotateRight(13) ^ a.RotateRight(22);
  }

  /** The 64-entry schedule, filled in place. */
  method FillSchedule(block: Block) returns (schedule: array<Word>)
    ensures fresh(schedule) && schedule.Length == 64
    ensures forall t :: 0 <= t < 64 ==> schedule[t] == Schedule(block, t)
  {
    hide Add, SmallSigma0, SmallSigma1, WordOf;
    schedule := new Word[64];
    for index := 0 to 16
      invariant forall t :: 0 <= t < index ==> schedule[t] == Schedule(block, t)
    {
      schedule[index] := WordOf(block[4 * index..4 * index + 4]);
    }
    for index := 16 to 64
      invariant forall t :: 0 <= t < index ==> schedule[t] == Schedule(block, t)
    {
      var s0 := ScheduleSigma0(schedule[index - 15]);
      var s1 := ScheduleSigma1(schedule[index - 2]);
      AddReverses(schedule[index - 16], s0, schedule[index - 7], s1);
      schedule[index] := Add(Add(Add(schedule[index - 16], s0), schedule[index - 7]), s1);
    }
  }

  lemma RoundsStep(v: Vars, block: Block, t: nat)
    requires t < 64
    ensures Rounds(v, block, t + 1) == Round(Rounds(v, block, t), K[t], Schedule(block, t))
  {
    hide Round, Schedule;
  }

  /** The 64 rounds on eight rotating variables. */
  method RunRounds(state: HashValue, block: Block) returns (v: Vars)
    ensures v == Rounds(InitialVars(state), block, 64)
  {
    hide Add, Ch, Maj, BigSigma0, BigSigma1, Schedule;
    var schedule := FillSchedule(block);
    var a, b, c, d := state[0], state[1], state[2], state[3];
    var e, f, g, h := state[4], state[5], state[6], state[7];
    for index := 0 to 64
      invariant forall t :: 0 <= t < 64 ==> schedule[t] == Schedule(block, t)
      invariant Vars(a, b, c, d, e, f, g, h) == Rounds(InitialVars(state), block, index)
    {
      RoundsStep(InitialVars(state), block, index);
      var sum1 := RoundSum1(e);
      var ch := Ch(e, f, g);
      var temp1 := Add(Add(Add(Add(h, sum1), ch), K[index]), schedule[index]);
      var sum0 := RoundSum0(a);
      var maj := Maj(a, b, c);
      var temp2 := Add(sum0, maj);
      h := g;
      g := f;
      f := e;
      e := Add(d, temp1);
      d := c;
      c := b;
      b := a;
      a := Add(temp1, temp2);
    }
    v := Vars(a, b, c, d, e, f, g, h);
  }

  // A message is its whole blocks followed by the bytes still waiting for a full block.
  ghost function Whole(message: seq<Byte>): (w: seq<Byte>)
    ensures |w| % 64 == 0
  {
    message[..|message| - |message| % 64]
  }

  ghost function Tail(message: seq<Byte>): (t: seq<Byte>)
    ensures |t| < 64 && Whole(message) + t == message
  {
    message[|message| - |message| % 64..]
  }

  lemma TailGrows(message: seq<Byte>, more: seq<Byte>)
    requires |Tail(message)| + |more| < 64
    ensures Whole(message + more) == Whole(message) && Tail(message + more) == Tail(message) + more
  {
  }

  lemma TailFills(message: seq<Byte>, more: seq<Byte>)
    requires |Tail(message)| + |more| == 64
    ensures Tail(message + more) == []
    ensures HashBlocks(Whole(message + more)) == Compress(HashBlocks(Whole(message)), Tail(message) + more)
  {
    hide Compress, HashBlocks;
    assert Whole(message + more) == Whole(message) + (Tail(message) + more);
    HashBlocksAppend(Whole(message), Tail(message) + more);
  }

  // The wrapping 64-bit byte count.
  lemma LengthGrows(length: nat, more: nat)
    ensures (length % TWO_64 + more) % TWO_64 == (length + more) % TWO_64
  {
  }

  lemma BitLength(length: nat)
    ensures length % TWO_64 * 8 % TWO_64 == 8 * length % TWO_64
  {
    var q := length / TWO_64;
    assert 8 * length == length % TWO_64 * 8 + 8 * q * TWO_64;
  }

  class Hasher {
    const state: array<Word>
    var len: nat
    const buffer: array<Byte>
    var bufferLen: nat

    /** Every byte given to Update so far, in order. */
    ghost var absorbed: seq<Byte>

    ghost predicate Shape()
    {
      state.Length == 8 && buffer.Length == 64
    }

    /** The blocks are hashed and the rest is buffered.  Bytes past bufferLen are unconstrained. */
    ghost predicate Buffered()
      reads this`absorbed, this`bufferLen, state, buffer
    {
      && Shape()
      && bufferLen == |Tail(absorbed)|
      && buffer[..bufferLen] == Tail(absorbed)
      && state[..] == HashBlocks(Whole(absorbed))
    }

    ghost predicate Valid()
      reads this, state, buffer
    {
      Buffered() && len == |absorbed| % TWO_64
    }

    constructor ()
      ensures Valid() && fresh(state) && fresh(buffer) && absorbed == []
    {
      state := new Word[8](i requires 0 <= i < 8 => H0[i]);
      len := 0;
      buffer := new Byte[64](_ => 0);
      bufferLen := 0;
      absorbed := [];
      new;
      assert state[..] == H0;
    }

    method CompressBlock(block: Block)
      requires Shape()
      modifies state
      ensures state[..] == Compress(old(state[..]), block)
    {
      hide Add, Rounds;
      var h := state[..];
      var v := RunRounds(h, block);
      var sum := [Add(h[0], v.a), Add(h[1], v.b), Add(h[2], v.c), Add(h[3], v.d),
                  Add(h[4], v.e), Add(h[5], v.f), Add(h[6], v.g), Add(h[7], v.h)];
      for slot := 0 to 8
        invariant forall i :: 0 <= i < slot ==> state[i] == sum[i]
      {
        state[slot] := sum[slot];
      }
      assert state[..] == sum;
    }

    // Copies the bytes into the buffer from position at.
    method CopyInto(at: nat, bytes: seq<Byte>)
      requires Shape() && at + |bytes| <= 64
      modifies buffer
      ensures buffer[..] == old(buffer[..at]) + bytes + old(buffer[at + |bytes|..])
    {
      forall i | 0 <= i < |bytes| {
        buffer[at + i] := bytes[i];
      }
    }

    // The bytes that complete or extend the partial block; the rest is left to the caller.
    method TopUp(input: seq<Byte>) returns (rest: seq<Byte>)
      requires Buffered() && bufferLen != 0
      modifies this`absorbed, this`bufferLen, state, buffer
      ensures Buffered() && absorbed + rest == old(absorbed) + input
      ensures bufferLen == 0 || rest == []
    {
      hide Compress, HashBlocks;
      var needed := 64 - bufferLen;
      var take := if needed < |input| then needed else |input|;
      ghost var tail := Tail(absorbed);
      CopyInto(bufferLen, input[..take]);
      bufferLen := bufferLen + take;
      rest := input[take..];
      assert buffer[..bufferLen] == tail + input[..take];
      if bufferLen == 64 {
        TailFills(absorbed, input[..take]);
        assert buffer[..64] == buffer[..];
        CompressBlock(buffer[..]);
        bufferLen := 0;
      } else {
        TailGrows(absorbed, input[..take]);
      }
      absorbed := absorbed + input[..take];
    }

    // The whole blocks of the input, straight from it.
    method AbsorbBlocks(input: seq<Byte>) returns (rest: seq<Byte>)
      requires Buffered() && (bufferLen == 0 || input == [])
      modifies this`absorbed, state
      ensures Buffered() && absorbed + rest == old(absorbed) + input
      ensures |rest| < 64 && (bufferLen == 0 || rest == [])
    {
      hide Compress, HashBlocks;
      ghost var before := absorbed;
      rest := input;
      while |rest| >= 64
        invariant Buffered() && absorbed + rest == before + input
        invariant bufferLen == 0 || rest == []
      {
        var block := rest[..64];
        TailFills(absorbed, block);
        assert Tail(absorbed) + block == block;
        CompressBlock(block);
        absorbed := absorbed + block;
        rest := rest[64..];
      }
    }

    // The bytes that do not fill a block.
    method Stash(rest: seq<Byte>)
      requires Buffered() && |rest| < 64 && (bufferLen == 0 || rest == [])
      modifies this`absorbed, this`bufferLen, buffer
      ensures Buffered() && absorbed == old(absorbed) + rest
    {
      hide Compress, HashBlocks;
      if rest != [] {
        TailGrows(absorbed, rest);
        CopyInto(0, rest);
        bufferLen := |rest|;
        absorbed := absorbed + rest;
      } else {
        assert absorbed + rest == absorbed;
      }
    }

    /** Absorbs the input: whatever the cut, the hasher stands for the concatenation. */
    method Update(input: seq<Byte>)
      requires Valid()
      modifies this, state, buffer
      ensures Valid() && absorbed == old(absorbed) + input
    {
      hide Compress, HashBlocks, Whole, Tail;
      len := (len + |input|) % TWO_64;
      LengthGrows(|absorbed|, |input|);
      var rest := input;
      if bufferLen != 0 {
        rest := TopUp(input);
      }
      rest := AbsorbBlocks(rest);
      Stash(rest);
    }

    // The 0x80 byte, and the block it completes when the length field no longer fits behind it.
    method PadMark() returns (ghost fill: seq<Byte>)
      requires Buffered()
      modifies this`absorbed, this`bufferLen, state, buffer
      ensures Buffered() && bufferLen <= 56
      ensures absorbed == old(absorbed) + ([0x80] + fill)
      ensures old(bufferLen) + 1 > 56 ==> fill == Zeros(63 - old(bufferLen)) && bufferLen == 0
      ensures old(bufferLen) + 1 <= 56 ==> fill == [] && bufferLen == old(bufferLen) + 1
    {
      hide Compress, HashBlocks;
      ghost var message := absorbed;
      CopyInto(bufferLen, [0x80]);
      bufferLen := bufferLen + 1;
      assert buffer[..bufferLen] == Tail(message) + [0x80];
      if bufferLen > 56 {
        var zeros := Zeros(64 - bufferLen);
        CopyInto(bufferLen, zeros);
        fill := zeros;
        assert buffer[..] == Tail(message) + ([0x80] + fill);
        TailFills(message, [0x80] + fill);
        CompressBlock(buffer[..]);
        bufferLen := 0;
      } else {
        fill := [];
        assert [0x80] + fill == [0x80];
        TailGrows(message, [0x80]);
      }
      absorbed := message + ([0x80] + fill);
    }

    // The zeros up to byte 56 of the last block and the length field.
    method PadLength(bitLen: nat)
      requires Buffered() && bufferLen <= 56
      modifies state, buffer
      ensures state[..] == HashBlocks(Whole(absorbed + (Zeros(56 - bufferLen) + BigEndian(bitLen, 8))))
      ensures Tail(absorbed + (Zeros(56 - bufferLen) + BigEndian(bitLen, 8))) == []
    {
      hide Compress, HashBlocks, BigEndian;
      var zeros, length := Zeros(56 - bufferLen), BigEndian(bitLen, 8);
      CopyInto(bufferLen, zeros);
      CopyInto(56, length);
      assert buffer[..] == Tail(absorbed) + (zeros + length);
      TailFills(absorbed, zeros + length);
      CompressBlock(buffer[..]);
    }

    /** Pads with one block or two and returns the digest of everything absorbed. */
    method Finalize() returns (digest: seq<Byte>)
      requires Valid()
      modifies this, state, buffer
      ensures digest == Sha256(old(absorbed))
    {
      hide Compress, HashBlocks, DigestBytes, BigEndian;
      ghost var message := absorbed;
      var bitLen := len * 8 % TWO_64;
      BitLength(|message|);
      ghost var fill := PadMark();
      PadLength(bitLen);
      PadCount(|message|, |fill|, bufferLen);
      PaddingMatches(message, |fill|, bufferLen, BigEndian(bitLen, 8));
      assert Whole(Pad(message)) == Pad(message);
      digest := DigestOf(state[..]);
    }
  }

  lemma ZerosJoin(m: nat, n: nat)
    ensures Zeros(m) + Zeros(n) == Zeros(m + n)
  {
  }

  lemma Regroup(m: seq<Byte>, x: seq<Byte>, y: seq<Byte>, z: seq<Byte>, w: seq<Byte>)
    ensures m + (x + y) + (z + w) == m + x + (y + z) + w
  {
  }

  // The code pads with the zeros section 5.1.1 asks for, in one block or in two.
  lemma PadCount(length: nat, fill: nat, bufferLen: nat)
    requires var t := length % 64; if t + 1 > 56 then fill == 63 - t && bufferLen == 0 else fill == 0 && bufferLen == t + 1
    ensures fill + (56 - bufferLen) == PadZeros(length)
  {
  }

  lemma PaddingMatches(message: seq<Byte>, fill: nat, bufferLen: nat, length: seq<Byte>)
    requires bufferLen <= 56 && fill + (56 - bufferLen) == PadZeros(|message|)
    ensures message + ([0x80] + Zeros(fill)) + (Zeros(56 - bufferLen) + length)
         == message + [0x80] + Zeros(PadZeros(|message|)) + length
  {
    ZerosJoin(fill, 56 - bufferLen);
    Regroup(message, [0x80], Zeros(fill), Zeros(56 - bufferLen), length);
  }

  method DigestOf(state: seq<Word>) returns (out: seq<Byte>)
    ensures out == DigestBytes(state)
  {
    hide BytesOf;
    out := [];
    for i := 0 to |state|
      invariant out == DigestBytes(state[..i])
    {
      out := out + BytesOf(state[i]);
      assert state[..i + 1][..i] == state[..i];
    }
    assert state[..|state|] == state;
  }

  /** However a message is cut into pieces, hashing the pieces in order gives its SHA-256. */
  method HashPieces(pieces: seq<seq<Byte>>) returns (digest: seq<Byte>)
    ensures digest == Sha256(Concat(pieces))
  {
    hide Sha256, Hasher.Valid, HashBlocks;
    var hasher := new Hasher();
    for i := 0 to |pieces|
      invariant hasher.Valid() && hasher.absorbed == Concat(pieces[..i])
      invariant fresh(hasher) && fresh(hasher.state) && fresh(hasher.buffer)
    {
      hasher.Update(pieces[i]);
      assert pieces[..i + 1][..i] == pieces[..i];
    }
    assert pieces[..|pieces|] == pieces;
    digest := hasher.Finalize();
  }
}
