/** Byte strings and the big-endian numbers they stand for. */
module Bytes {
  type Byte = b: int | 0 <= b < 256

  function Pow256(k: nat): (p: nat)
    ensures p > 0
  {
    if k == 0 then 1 else 256 * Pow256(k - 1)
  }

  /** The low k bytes of n, most significant first. */
  function BigEndian(n: nat, k: nat): (b: seq<Byte>)
    ensures |b| == k
  {
    if k == 0 then [] else BigEndian(n / 256, k - 1) + [n % 256]
  }

  /** The number a big-endian byte string stands for. */
  function ValueOf(b: seq<Byte>): (n: nat)
    ensures n < Pow256(|b|)
  {
    if b == [] then 0 else 256 * ValueOf(b[..|b| - 1]) + b[|b| - 1]
  }

  lemma {:induction false} ValueOfBigEndian(n: nat, k: nat)
    requires n < Pow256(k)
    ensures ValueOf(BigEndian(n, k)) == n
  {
    hide ValueOf;
    if k == 0 {
      ValueOfNothing();
    } else {
      ValueOfBigEndian(n / 256, k - 1);
      ValueOfOneMore(BigEndian(n / 256, k - 1), n % 256);
    }
  }

  lemma {:induction false} BigEndianOfValue(b: seq<Byte>)
    ensures BigEndian(ValueOf(b), |b|) == b
  {
    if b != [] {
      var front, last := b[..|b| - 1], b[|b| - 1];
      BigEndianOfValue(front);
      assert ValueOf(b) / 256 == ValueOf(front) && ValueOf(b) % 256 == last;
      assert b == front + [last];
    }
  }

  lemma ValueOfNothing()
    ensures ValueOf([]) == 0
  {
  }

  lemma ValueOfOneMore(b: seq<Byte>, last: Byte)
    ensures ValueOf(b + [last]) == 256 * ValueOf(b) + last
  {
    assert (b + [last])[..|b|] == b;
  }

  lemma Pow256Values()
    ensures Pow256(3) == 0x100_0000 && Pow256(4) == 0x1_0000_0000 && Pow256(8) == 0x1_0000_0000_0000_0000
  {
    assert Pow256(2) == 0x1_0000;
    assert Pow256(6) == 0x1_0000_0000_0000;
  }

  /** All the pieces, one after another. */
  function Concat(pieces: seq<seq<Byte>>): seq<Byte>
  {
    if pieces == [] then [] else Concat(pieces[..|pieces| - 1]) + pieces[|pieces| - 1]
  }
}
