/** The rolling audit of the storage experiments: a rotate-and-xor fold over batches whose pieces can be
    combined, and the check that a recovered audit extends an acknowledged one. */
module AuditDigest {
  import opened Options
  import opened Bits
  import opened Bytes

  /** rotate_left on Python integers. */
  function RotateLeft(value: nat, amount: int): nat
  {
    var a := amount % 64;
    And(Or(Shl(value, a), Shr(value, (64 - a) % 64)), MASK64)
  }

  lemma RotateFits(value: nat, amount: int)
    ensures RotateLeft(value, amount) <= MASK64
  {
    var a := amount % 64;
    MaskedFits(Or(Shl(value, a), Shr(value, (64 - a) % 64)));
  }

  // Where bit i comes from, in plain numbers.
  lemma RotatedIndex(i: nat, amount: int)
    requires i < 64
    ensures (i - amount) % 64 == var a := amount % 64; if i < a then i + (64 - a) else i - a
  {
    var a := amount % 64;
    assert i - amount == i - a - 64 * (amount / 64);
  }

  // The two shifts, bit by bit.
  lemma BitShifted(value: nat, a: nat, i: nat)
    requires value <= MASK64 && a < 64
    ensures Bit(And(Or(Shl(value, a), Shr(value, (64 - a) % 64)), MASK64), i)
         == (i < 64 && Bit(value, if i < a then i + (64 - a) else i - a))
  {
    hide And, Or, Shl, Shr, Bit;
    var down := if a == 0 then 0 else 64 - a;
    assert (64 - a) % 64 == down;
    BitMask(Or(Shl(value, a), Shr(value, down)), i);
    BitOr(Shl(value, a), Shr(value, down), i);
    BitShl(value, a, i);
    BitShr(value, down, i);
    if 0 < a <= i {
      BitFits(value, i + down);
    }
  }

  /** On a 64-bit value it is a rotation: bit i comes from bit i - amount, modulo 64. */
  lemma BitRotate(value: nat, amount: int, i: nat)
    requires value <= MASK64
    ensures Bit(RotateLeft(value, amount), i) == (i < 64 && Bit(value, (i - amount) % 64))
  {
    hide And, Or, Shl, Shr, Bit;
    BitShifted(value, amount % 64, i);
    if i < 64 {
      RotatedIndex(i, amount);
    }
  }

  lemma RotateAdds(value: nat, a: int, b: int)
    requires value <= MASK64
    ensures RotateLeft(RotateLeft(value, a), b) == RotateLeft(value, a + b)
  {
    hide RotateLeft, Bit;
    RotateFits(value, a);
    forall i: nat
      ensures Bit(RotateLeft(RotateLeft(value, a), b), i) == Bit(RotateLeft(value, a + b), i)
    {
      BitRotate(RotateLeft(value, a), b, i);
      BitRotate(value, a + b, i);
      if i < 64 {
        BitRotate(value, a, (i - b) % 64);
        ModSubtracts(i, a, b);
      }
    }
    Extensional(RotateLeft(RotateLeft(value, a), b), RotateLeft(value, a + b));
  }

  lemma ModSubtracts(i: int, a: int, b: int)
    ensures ((i - b) % 64 - a) % 64 == (i - (a + b)) % 64
  {
  }

  lemma RotateXor(x: nat, y: nat, a: int)
    requires x <= MASK64 && y <= MASK64
    ensures RotateLeft(Xor(x, y), a) == Xor(RotateLeft(x, a), RotateLeft(y, a))
  {
    hide RotateLeft, Bit, Xor;
    XorFits(x, y);
    forall i: nat
      ensures Bit(RotateLeft(Xor(x, y), a), i) == Bit(Xor(RotateLeft(x, a), RotateLeft(y, a)), i)
    {
      BitRotate(Xor(x, y), a, i);
      BitRotate(x, a, i);
      BitRotate(y, a, i);
      BitXor(RotateLeft(x, a), RotateLeft(y, a), i);
      if i < 64 {
        BitXor(x, y, (i - a) % 64);
      }
    }
    Extensional(RotateLeft(Xor(x, y), a), Xor(RotateLeft(x, a), RotateLeft(y, a)));
  }

  lemma RotateNothing(value: nat)
    requires value <= MASK64
    ensures RotateLeft(value, 0) == value && RotateLeft(0, 7) == 0
  {
    forall i: nat
      ensures Bit(RotateLeft(value, 0), i) == Bit(value, i)
    {
      BitRotate(value, 0, i);
      if i >= 64 {
        BitFits(value, i);
      }
    }
    Extensional(RotateLeft(value, 0), value);
    forall i: nat
      ensures Bit(RotateLeft(0, 7), i) == Bit(0, i)
    {
      BitRotate(0, 7, i);
      BitZero(i);
      BitZero((i - 7) % 64);
    }
    Extensional(RotateLeft(0, 7), 0);
  }

  // ---- Audits ------------------------------------------------------------------------------

  /** An audit; an empty one has no first and no last sequence. */
  datatype Audit = Audit(batches: nat, records: nat, payloadBytes: nat, digest: nat,
                         first: Option<nat>, last: Option<nat>)

  datatype BatchInfo = BatchInfo(shard: nat, sequence: nat, records: nat, payloadBytes: nat, checksum: nat)

  const GOLDEN: nat := 0x9e37_79b9_7f4a_7c15
  const EMPTY := Audit(0, 0, 0, 0, None, None)

  /** What one batch adds to a digest: order of the xors as in the check. */
  function Extended(digest: nat, b: BatchInfo): nat
  {
    Xor(Xor(Xor(RotateLeft(digest, 7), b.checksum), And(b.sequence * GOLDEN, MASK64)), b.shard)
  }

  /** The audit after one more batch. */
  function Observe(a: Audit, b: BatchInfo): Audit
  {
    Audit(a.batches + 1, a.records + b.records, a.payloadBytes + b.payloadBytes, Extended(a.digest, b),
          if a.first.None? then Some(b.sequence) else a.first, Some(b.sequence))
  }

  function AuditOf(batches: seq<BatchInfo>): Audit
  {
    if batches == [] then EMPTY else Observe(AuditOf(batches[..|batches| - 1]), batches[|batches| - 1])
  }

  // 32-bit checksums and shards below 2^64.
  predicate Sized(b: BatchInfo) { b.checksum <= MASK64 && b.shard <= MASK64 }

  ghost predicate AllSized(batches: seq<BatchInfo>) { forall i :: 0 <= i < |batches| ==> Sized(batches[i]) }

  /** combine; None where the source raises. */
  function Combine(a: Audit, b: Audit): Option<Audit>
  {
    if a.last.None? || b.first.None? || a.last.value + 1 != b.first.value then None
    else Some(Audit(a.batches + b.batches, a.records + b.records, a.payloadBytes + b.payloadBytes,
                    Xor(RotateLeft(a.digest, 7 * b.batches), b.digest), a.first, b.last))
  }

  function Chain(a: Option<Audit>, b: Option<Audit>): Option<Audit>
  {
    if a.None? || b.None? then None else Combine(a.value, b.value)
  }

  /** What one batch adds does not depend on the digest it is added to. */
  function Delta(b: BatchInfo): nat { Xor(Xor(b.checksum, And(b.sequence * GOLDEN, MASK64)), b.shard) }

  lemma ExtendedIsRotateAndAdd(digest: nat, b: BatchInfo)
    requires Sized(b)
    ensures Extended(digest, b) == Xor(RotateLeft(digest, 7), Delta(b)) <= MASK64 && Delta(b) <= MASK64
  {
    var r, m := RotateLeft(digest, 7), And(b.sequence * GOLDEN, MASK64);
    XorAssociates(r, b.checksum, m);
    XorAssociates(r, Xor(b.checksum, m), b.shard);
    RotateFits(digest, 7);
    MaskedFits(b.sequence * GOLDEN);
    XorFits(b.checksum, m);
    XorFits(Xor(b.checksum, m), b.shard);
    XorFits(r, Delta(b));
  }

  /** Every digest stays below 2^64. */
  lemma {:induction false} DigestFits(batches: seq<BatchInfo>)
    requires AllSized(batches)
    ensures AuditOf(batches).digest <= MASK64
  {
    if batches != [] {
      ExtendedIsRotateAndAdd(AuditOf(batches[..|batches| - 1]).digest, batches[|batches| - 1]);
    }
  }

  lemma {:induction false} AuditShape(batches: seq<BatchInfo>)
    ensures AuditOf(batches).batches == |batches|
    ensures batches != [] ==> AuditOf(batches).first == Some(batches[0].sequence)
    ensures batches != [] ==> AuditOf(batches).last == Some(batches[|batches| - 1].sequence)
  {
    if batches != [] {
      AuditShape(batches[..|batches| - 1]);
    }
  }

  // The digest law behind combine.
  lemma {:induction false} DigestCombines(xs: seq<BatchInfo>, ys: seq<BatchInfo>)
    requires AllSized(xs) && AllSized(ys)
    ensures AuditOf(xs + ys).digest == Xor(RotateLeft(AuditOf(xs).digest, 7 * |ys|), AuditOf(ys).digest)
  {
    hide Xor, RotateLeft, Extended, Delta;
    DigestFits(xs);
    var d := AuditOf(xs).digest;
    if ys == [] {
      assert xs + ys == xs;
      RotateNothing(d);
      XorNothing(d);
    } else {
      var front, b := ys[..|ys| - 1], ys[|ys| - 1];
      assert (xs + ys)[..|xs + ys| - 1] == xs + front;
      DigestCombines(xs, front);
      DigestFits(front);
      var e, r := AuditOf(front).digest, RotateLeft(d, 7 * |front|);
      ExtendedIsRotateAndAdd(Xor(r, e), b);
      ExtendedIsRotateAndAdd(e, b);
      RotateFits(d, 7 * |front|);
      RotateXor(r, e, 7);
      RotateAdds(d, 7 * |front|, 7);
      XorAssociates(RotateLeft(d, 7 * |ys|), RotateLeft(e, 7), Delta(b));
    }
  }

  lemma XorNothing(x: nat)
    ensures Xor(x, 0) == x
  {
    forall i: nat
      ensures Bit(Xor(x, 0), i) == Bit(x, i)
    {
      BitXor(x, 0, i);
      BitZero(i);
    }
    Extensional(Xor(x, 0), x);
  }

  lemma {:induction false} CountsCombine(xs: seq<BatchInfo>, ys: seq<BatchInfo>)
    ensures AuditOf(xs + ys).records == AuditOf(xs).records + AuditOf(ys).records
    ensures AuditOf(xs + ys).payloadBytes == AuditOf(xs).payloadBytes + AuditOf(ys).payloadBytes
  {
    hide Extended;
    if ys == [] {
      assert xs + ys == xs;
    } else {
      assert (xs + ys)[..|xs + ys| - 1] == xs + ys[..|ys| - 1];
      CountsCombine(xs, ys[..|ys| - 1]);
    }
  }

  /** Folding two adjacent ranges in one pass equals combining their separate audits; ranges that are not
      adjacent do not combine. */
  lemma CombineIsOnePass(xs: seq<BatchInfo>, ys: seq<BatchInfo>)
    requires AllSized(xs) && AllSized(ys)
    ensures Combine(AuditOf(xs), AuditOf(ys))
         == if xs != [] && ys != [] && xs[|xs| - 1].sequence + 1 == ys[0].sequence then Some(AuditOf(xs + ys)) else None
  {
    hide Xor, RotateLeft, Observe, AllSized;
    AuditShape(xs);
    AuditShape(ys);
    AuditShape(xs + ys);
    DigestCombines(xs, ys);
    CountsCombine(xs, ys);
  }

  /** combine is associative, errors included. */
  lemma CombineAssociates(a: Audit, b: Audit, c: Audit)
    requires a.digest <= MASK64 && b.digest <= MASK64
    ensures Chain(Combine(a, b), Some(c)) == Chain(Some(a), Combine(b, c))
  {
    hide Xor, RotateLeft;
    var r := RotateLeft(a.digest, 7 * b.batches);
    RotateFits(a.digest, 7 * b.batches);
    RotateXor(r, b.digest, 7 * c.batches);
    RotateAdds(a.digest, 7 * b.batches, 7 * c.batches);
    XorAssociates(RotateLeft(a.digest, 7 * (b.batches + c.batches)), RotateLeft(b.digest, 7 * c.batches), c.digest);
  }

  // ---- What a digest tells -----------------------------------------------------------------

  /** One more batch: the counts add up, and bit i of the digest is the parity of the bit seven places below it in the digest so far,
      round the 64 bits, and of bit i of the checksum, of the sequence times the golden-ratio constant, and
      of the shard. */
  lemma DigestBits(batches: seq<BatchInfo>, b: BatchInfo, i: nat)
    requires AllSized(batches) && i < 64
    ensures var a, c := AuditOf(batches), AuditOf(batches + [b]);
      c.batches == a.batches + 1 && c.records == a.records + b.records && c.payloadBytes == a.payloadBytes + b.payloadBytes
    ensures Bit(AuditOf(batches + [b]).digest, i)
         == (Bit(AuditOf(batches).digest, (i + 57) % 64)
             != (Bit(b.checksum, i) != (Bit(b.sequence * 0x9e37_79b9_7f4a_7c15, i) != Bit(b.shard, i))))
  {
    hide Bit, Xor, RotateLeft, And;
    assert (batches + [b])[..|batches|] == batches;
    var d, m := AuditOf(batches).digest, And(b.sequence * GOLDEN, MASK64);
    DigestFits(batches);
    BitRotate(d, 7, i);
    BitMask(b.sequence * GOLDEN, i);
    BitXor(RotateLeft(d, 7), b.checksum, i);
    BitXor(Xor(RotateLeft(d, 7), b.checksum), m, i);
    BitXor(Xor(Xor(RotateLeft(d, 7), b.checksum), m), b.shard, i);
    assert (i - 7) % 64 == (i + 57) % 64;
  }

  lemma XorCancels(x: nat, y: nat, z: nat)
    requires Xor(x, z) == Xor(y, z) || Xor(z, x) == Xor(z, y)
    ensures x == y
  {
    hide Bit, Xor;
    forall i: nat
      ensures Bit(x, i) == Bit(y, i)
    {
      BitXor(x, z, i);
      BitXor(y, z, i);
      BitXor(z, x, i);
      BitXor(z, y, i);
    }
    Extensional(x, y);
  }

  lemma RotateCancels(d: nat, e: nat)
    requires d <= MASK64 && e <= MASK64 && RotateLeft(d, 7) == RotateLeft(e, 7)
    ensures d == e
  {
    hide RotateLeft;
    RotateAdds(d, 7, 57);
    RotateAdds(e, 7, 57);
    RotateAround(d);
    RotateAround(e);
  }

  lemma RotateAround(d: nat)
    requires d <= MASK64
    ensures RotateLeft(d, 64) == d
  {
    assert RotateLeft(d, 64) == RotateLeft(d, 0) by { hide And, Or, Shl, Shr; }
    hide RotateLeft;
    RotateNothing(d);
  }

  // Digests that differ still differ after the same batch.
  lemma StillApart(d: nat, e: nat, b: BatchInfo)
    requires d <= MASK64 && e <= MASK64 && Sized(b) && d != e
    ensures Extended(d, b) != Extended(e, b)
  {
    hide Xor, RotateLeft, Extended, Delta;
    ExtendedIsRotateAndAdd(d, b);
    ExtendedIsRotateAndAdd(e, b);
    if Extended(d, b) == Extended(e, b) {
      XorCancels(RotateLeft(d, 7), RotateLeft(e, 7), Delta(b));
      RotateCancels(d, e);
    }
  }

  lemma DeltasApart(b: BatchInfo, c: BatchInfo)
    requires b.sequence == c.sequence
    requires if b.shard == c.shard then b.checksum != c.checksum else b.checksum == c.checksum
    ensures Delta(b) != Delta(c)
  {
    hide Xor, And;
    var m := And(b.sequence * GOLDEN, MASK64);
    if Delta(b) == Delta(c) {
      if b.shard == c.shard {
        XorCancels(Xor(b.checksum, m), Xor(c.checksum, m), b.shard);
        XorCancels(b.checksum, c.checksum, m);
      } else {
        XorCancels(b.shard, c.shard, Xor(b.checksum, m));
      }
    }
  }

  /** Batch sequences that differ in the shard or in the checksum of one batch have different digests,
      whatever comes before and after it. */
  lemma {:induction false} DigestTellsApart(xs: seq<BatchInfo>, b: BatchInfo, c: BatchInfo, zs: seq<BatchInfo>)
    requires AllSized(xs) && Sized(b) && Sized(c) && AllSized(zs) && b.sequence == c.sequence
    requires if b.shard == c.shard then b.checksum != c.checksum else b.checksum == c.checksum
    ensures AuditOf(xs + [b] + zs).digest != AuditOf(xs + [c] + zs).digest
  {
    hide Extended, Delta;
    if zs == [] {
      assert xs + [b] + [] == xs + [b] && xs + [c] + [] == xs + [c];
      assert (xs + [b])[..|xs|] == xs && (xs + [c])[..|xs|] == xs;
      var d := AuditOf(xs).digest;
      DeltasApart(b, c);
      ExtendedIsRotateAndAdd(d, b);
      ExtendedIsRotateAndAdd(d, c);
      if Extended(d, b) == Extended(d, c) {
        XorCancels(Delta(b), Delta(c), RotateLeft(d, 7));
      }
    } else {
      var front, z := zs[..|zs| - 1], zs[|zs| - 1];
      DigestTellsApart(xs, b, c, front);
      DigestFits(xs + [b] + front);
      DigestFits(xs + [c] + front);
      StillApart(AuditOf(xs + [b] + front).digest, AuditOf(xs + [c] + front).digest, z);
      assert (xs + [b] + zs)[..|xs + [b] + zs| - 1] == xs + [b] + front;
      assert (xs + [c] + zs)[..|xs + [c] + zs| - 1] == xs + [c] + front;
    }
  }

  // ---- generated_checksum ------------------------------------------------------------------

  const MAX_PAYLOAD: nat := 8 * 1024 * 1024

  function Seed(shard: nat, sequence: nat): nat
  {
    And(sequence + GOLDEN + shard * 0xd1b5_4a32_d192_ed03, MASK64)
  }

  /** One step of the generator. */
  function NextState(s0: nat): nat
  {
    var s1 := Xor(s0, Shr(s0, 12));
    var s2 := Xor(s1, And(Shl(s1, 25), MASK64));
    Xor(s2, Shr(s2, 27))
  }

  function StateAfter(seed: nat, steps: nat): nat
  {
    if steps == 0 then seed else NextState(StateAfter(seed, steps - 1))
  }

  // Byte j of a word, least significant first.
  function WordByte(word: nat, j: nat): Byte { word / Pow256(j) % 256 }

  /** Byte i of the generated payload: byte i % 8 of word i / 8. */
  function PayloadByte(seed: nat, i: nat): Byte
  {
    WordByte(And(StateAfter(seed, i / 8 + 1) * 0x2545_f491_4f6c_dd1d, MASK64), i % 8)
  }

  function Payload(seed: nat, length: nat): seq<Byte>
  {
    seq(length, i requires 0 <= i < length => PayloadByte(seed, i))
  }

  // The first xorshift, and the second on top of it, bit by bit.
  predicate Shifted12(s0: nat, j: nat) { Bit(s0, j) != Bit(s0, j + 12) }
  predicate Shifted25(s0: nat, j: nat) { Shifted12(s0, j) != (25 <= j < 64 && Shifted12(s0, j - 25)) }

  /** A generator step is three xorshifts: right by 12, left by 25 within 64 bits, right by 27. */
  lemma NextStateBits(s0: nat, i: nat)
    ensures Bit(NextState(s0), i) == (Shifted25(s0, i) != Shifted25(s0, i + 27))
  {
    hide Bit, Xor, And, Shl, Shr;
    var s1 := Xor(s0, Shr(s0, 12));
    var s2 := Xor(s1, And(Shl(s1, 25), MASK64));
    BitXor(s2, Shr(s2, 27), i);
    BitShr(s2, 27, i);
    SecondShift(s0, i);
    SecondShift(s0, i + 27);
  }

  lemma SecondShift(s0: nat, j: nat)
    ensures var s1 := Xor(s0, Shr(s0, 12)); Bit(Xor(s1, And(Shl(s1, 25), MASK64)), j) == Shifted25(s0, j)
  {
    hide Bit, Xor, And, Shl, Shr;
    var s1 := Xor(s0, Shr(s0, 12));
    BitXor(s1, And(Shl(s1, 25), MASK64), j);
    BitMask(Shl(s1, 25), j);
    BitShl(s1, 25, j);
    FirstShift(s0, j);
    if j >= 25 {
      FirstShift(s0, j - 25);
    }
  }

  lemma FirstShift(s0: nat, j: nat)
    ensures Bit(Xor(s0, Shr(s0, 12)), j) == Shifted12(s0, j)
  {
    hide Bit, Xor, Shr;
    BitXor(s0, Shr(s0, 12), j);
    BitShr(s0, 12, j);
  }

  /** Seeds and words are taken modulo 2^64, and words are little-endian. */
  lemma GeneratorWords(shard: nat, sequence: nat, seed: nat, i: nat)
    ensures Seed(shard, sequence)
         == (sequence + 0x9e37_79b9_7f4a_7c15 + shard * 0xd1b5_4a32_d192_ed03) % 0x1_0000_0000_0000_0000
    ensures PayloadByte(seed, i)
         == StateAfter(seed, i / 8 + 1) * 0x2545_f491_4f6c_dd1d % 0x1_0000_0000_0000_0000 / Pow256(i % 8) % 256
  {
    hide And, StateAfter;
    MaskIsOnes();
    AndOnes(sequence + GOLDEN + shard * 0xd1b5_4a32_d192_ed03, 64);
    AndOnes(StateAfter(seed, i / 8 + 1) * 0x2545_f491_4f6c_dd1d, 64);
  }

  /** The checksum of a generated batch; None where the source raises ValueError. */
  function GeneratedChecksum(crc: seq<Byte> -> nat, shard: nat, sequence: nat, records: nat, recordBytes: nat): Option<nat>
  {
    if 0 < records * recordBytes <= MAX_PAYLOAD then Some(crc(Payload(Seed(shard, sequence), records * recordBytes))) else None
  }

  /** The word-by-word loop produces the payload; the last word may be cut. */
  method Generate(crc: seq<Byte> -> nat, shard: nat, sequence: nat, records: nat, recordBytes: nat) returns (c: Option<nat>)
    ensures c == GeneratedChecksum(crc, shard, sequence, records, recordBytes)
  {
    hide Xor, And, Shl, Shr, Seed, WordByte;
    var length := records * recordBytes;
    if !(0 < length <= MAX_PAYLOAD) {
      return None;
    }
    ghost var seed := Seed(shard, sequence);
    var state := Seed(shard, sequence);
    var payload: seq<Byte> := [];
    ghost var words := 0;
    while |payload| < length
      invariant |payload| <= length && (|payload| < length ==> |payload| == 8 * words)
      invariant state == StateAfter(seed, words)
      invariant payload == Payload(seed, |payload|)
      decreases length - |payload|
    {
      state := Xor(state, Shr(state, 12));
      state := Xor(state, And(Shl(state, 25), MASK64));
      state := Xor(state, Shr(state, 27));
      words := words + 1;
      var product := And(state * 0x2545_f491_4f6c_dd1d, MASK64);
      var word: seq<Byte> := seq(8, j requires 0 <= j < 8 => WordByte(product, j));
      var take := if 8 < length - |payload| then 8 else length - |payload|;
      ghost var before := |payload|;
      payload := payload + word[..take];
      forall i | before <= i < |payload|
        ensures payload[i] == PayloadByte(seed, i)
      {
        assert i / 8 == words - 1 && i % 8 == i - before;
      }
    }
    c := Some(crc(payload));
  }

  // ---- check_acknowledged_prefix -----------------------------------------------------------

  function Generated(shard: nat, sequence: nat, records: nat, recordBytes: nat, checksum: nat): BatchInfo
  {
    BatchInfo(shard, sequence, records, records * recordBytes, checksum)
  }

  /** The audit extended by n consecutive generated batches; None where a batch cannot be generated. */
  function ExtendedBy(crc: seq<Byte> -> nat, a: Audit, shard: nat, records: nat, recordBytes: nat, n: nat): Option<Audit>
    requires a.last.Some?
  {
    if n == 0 then Some(a)
    else match ExtendedBy(crc, a, shard, records, recordBytes, n - 1)
      case None => None
      case Some(before) =>
        match GeneratedChecksum(crc, shard, a.last.value + n, records, recordBytes)
        case None => None
        case Some(checksum) => Some(Observe(before, Generated(shard, a.last.value + n, records, recordBytes, checksum)))
  }

  /** A nonempty audit of consecutive sequences. */
  predicate WellFormed(a: Audit)
  {
    a.batches > 0 && a.first.Some? && a.last.Some? && a.last.value == a.first.value + a.batches - 1
  }

  lemma {:induction false} ExtendedByShape(crc: seq<Byte> -> nat, a: Audit, shard: nat, records: nat, recordBytes: nat, n: nat)
    requires a.first.Some? && a.last.Some?
    ensures match ExtendedBy(crc, a, shard, records, recordBytes, n)
            case None => true
            case Some(e) => e.batches == a.batches + n && e.first == a.first && e.last == Some(a.last.value + n)
  {
    hide GeneratedChecksum, Extended;
    if n != 0 {
      ExtendedByShape(crc, a, shard, records, recordBytes, n - 1);
    }
  }

  /** The n batches a workload generates from a first sequence. */
  function GeneratedBatches(crc: seq<Byte> -> nat, shard: nat, first: nat, records: nat, recordBytes: nat, n: nat)
      : (batches: seq<BatchInfo>)
    ensures |batches| == n
  {
    var length := records * recordBytes;
    seq(n, i requires 0 <= i < n => BatchInfo(shard, first + i, records, length, crc(Payload(Seed(shard, first + i), length))))
  }

  /** An audit extended by n generated batches is the audit of all the batches, the generated ones taking the
      sequences that follow; it exists for every n, or only for n = 0, as the payload length allows. */
  lemma {:induction false} ExtendedByIsAudit(crc: seq<Byte> -> nat, xs: seq<BatchInfo>, shard: nat, records: nat, recordBytes: nat, n: nat)
    requires xs != []
    ensures AuditOf(xs).last == Some(xs[|xs| - 1].sequence)
    ensures ExtendedBy(crc, AuditOf(xs), shard, records, recordBytes, n)
         == if n == 0 || 0 < records * recordBytes <= 8_388_608
            then Some(AuditOf(xs + GeneratedBatches(crc, shard, xs[|xs| - 1].sequence + 1, records, recordBytes, n))) else None
  {
    hide Payload, Seed, Extended;
    AuditShape(xs);
    var first := xs[|xs| - 1].sequence + 1;
    var batches := GeneratedBatches(crc, shard, first, records, recordBytes, n);
    if n == 0 {
      assert xs + batches == xs;
    } else {
      ExtendedByIsAudit(crc, xs, shard, records, recordBytes, n - 1);
      assert batches[..n - 1] == GeneratedBatches(crc, shard, first, records, recordBytes, n - 1);
      assert (xs + batches)[..|xs| + n - 1] == xs + batches[..n - 1];
    }
  }

  /** Accepts an audit exactly when it is the well-formed acknowledged audit extended by some number of
      consecutive generated batches. */
  method CheckAcknowledgedPrefix(crc: seq<Byte> -> nat, actual: Audit, acknowledged: Audit, shard: nat, batchRecords: nat, recordBytes: nat)
      returns (accepted: bool)
    ensures accepted <==> WellFormed(acknowledged)
                          && exists n :: ExtendedBy(crc, acknowledged, shard, batchRecords, recordBytes, n) == Some(actual)
  {
    hide GeneratedChecksum, Xor, RotateLeft, And;
    if acknowledged.first.Some? && acknowledged.last.Some? {
      forall n: nat
        ensures match ExtendedBy(crc, acknowledged, shard, batchRecords, recordBytes, n)
                case None => true
                case Some(e) => e.batches == acknowledged.batches + n && e.first == acknowledged.first
                                && e.last == Some(acknowledged.last.value + n)
      {
        ExtendedByShape(crc, acknowledged, shard, batchRecords, recordBytes, n);
      }
    }
    if acknowledged.batches == 0 {
      return false;
    }
    if actual.first != acknowledged.first || actual.batches < acknowledged.batches
       || actual.first.None? || actual.last != Some(actual.first.value + actual.batches - 1) || acknowledged.last.None? {
      return false;
    }
    var expected := acknowledged;
    var sequence := acknowledged.last.value + 1;
    ghost var n := 0;
    while sequence < actual.last.value + 1
      invariant sequence == acknowledged.last.value + 1 + n
      invariant acknowledged.last.value <= actual.last.value ==> sequence <= actual.last.value + 1
      invariant acknowledged.last.value > actual.last.value ==> n == 0
      invariant ExtendedBy(crc, acknowledged, shard, batchRecords, recordBytes, n) == Some(expected)
    {
      var checksum := Generate(crc, shard, sequence, batchRecords, recordBytes);
      if checksum.None? {
        NoFurther(crc, acknowledged, shard, batchRecords, recordBytes, n);
        return false;
      }
      expected := expected.(
        digest := Xor(Xor(Xor(RotateLeft(expected.digest, 7), checksum.value), And(sequence * GOLDEN, MASK64)), shard),
        batches := expected.batches + 1, records := expected.records + batchRecords,
        payloadBytes := expected.payloadBytes + batchRecords * recordBytes, last := Some(sequence));
      n := n + 1;
      sequence := sequence + 1;
    }
    accepted := actual == expected;
  }

  // Once a batch cannot be generated, no longer extension exists.
  lemma {:induction false} NoFurther(crc: seq<Byte> -> nat, a: Audit, shard: nat, records: nat, recordBytes: nat, n: nat)
    requires a.last.Some?
    requires GeneratedChecksum(crc, shard, a.last.value + n + 1, records, recordBytes) == None
    ensures forall m: nat :: m > n ==> ExtendedBy(crc, a, shard, records, recordBytes, m) == None
  {
    hide Extended;
    forall m: nat | m > n
      ensures ExtendedBy(crc, a, shard, records, recordBytes, m) == None
    {
      NoFurtherStep(crc, a, shard, records, recordBytes, n, m);
    }
  }

  lemma {:induction false} NoFurtherStep(crc: seq<Byte> -> nat, a: Audit, shard: nat, records: nat, recordBytes: nat, n: nat, m: nat)
    requires a.last.Some? && m > n
    requires GeneratedChecksum(crc, shard, a.last.value + n + 1, records, recordBytes) == None
    ensures ExtendedBy(crc, a, shard, records, recordBytes, m) == None
  {
    if m > n + 1 {
      NoFurtherStep(crc, a, shard, records, recordBytes, n, m - 1);
    }
  }
}
