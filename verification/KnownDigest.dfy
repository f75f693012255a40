/** The known answer of the client's unit test for its hasher, SHA-256 of "abc", followed through the
    padding, the message schedule and the 64 rounds of Fips180. */
module KnownDigest {
  import opened Bytes
  import opened Fips180
  import opened FipsConstants
  import opened ExportSha256

  const ABC: seq<Byte> := [0x61, 0x62, 0x63]

  // The one padded block.
  const BLOCK: seq<Byte> := ABC + [0x80] + Zeros(52) + [0, 0, 0, 0, 0, 0, 0, 24]

  lemma Padded()
    ensures |BLOCK| == 64 && Pad(ABC) == BLOCK
  {
    hide BigEndian;
    LengthField();
    assert PadZeros(|ABC|) == 52 && 8 * |ABC| % TWO_64 == 24;
  }

  lemma LengthField()
    ensures BigEndian(24, 8) == [0, 0, 0, 0, 0, 0, 0, 24]
  {
    assert BigEndian(0, 7) == [0, 0, 0, 0, 0, 0, 0];
  }

  // ---- The message schedule ----------------------------------------------------------------

  // W_t from W_(t-2), W_(t-7), W_(t-15) and W_(t-16).
  predicate Follows(w2: Word, w7: Word, w15: Word, w16: Word, w: Word)
  {
    Add(Add(Add(SmallSigma1(w2), w7), SmallSigma0(w15)), w16) == w
  }

  lemma Words16()
    ensures Follows(0x00000000, 0x00000000, 0x00000000, 0x61626380, 0x61626380)
    ensures Follows(0x00000018, 0x00000000, 0x00000000, 0x00000000, 0x000f0000)
    ensures Follows(0x61626380, 0x00000000, 0x00000000, 0x00000000, 0x7da86405)
    ensures Follows(0x000f0000, 0x00000000, 0x00000000, 0x00000000, 0x600003c6)
    ensures Follows(0x7da86405, 0x00000000, 0x00000000, 0x00000000, 0x3e9d7b78)
    ensures Follows(0x600003c6, 0x00000000, 0x00000000, 0x00000000, 0x0183fc00)
    ensures Follows(0x3e9d7b78, 0x00000018, 0x00000000, 0x00000000, 0x12dcbfdb)
    ensures Follows(0x0183fc00, 0x61626380, 0x00000000, 0x00000000, 0xe2e2c38e)
    ensures Follows(0x12dcbfdb, 0x000f0000, 0x00000000, 0x00000000, 0xc8215c1a)
    ensures Follows(0xe2e2c38e, 0x7da86405, 0x00000000, 0x00000000, 0xb73679a2)
    ensures Follows(0xc8215c1a, 0x600003c6, 0x00000000, 0x00000000, 0xe5bc3909)
    ensures Follows(0xb73679a2, 0x3e9d7b78, 0x00000000, 0x00000000, 0x32663c5b)
    ensures Follows(0xe5bc3909, 0x0183fc00, 0x00000000, 0x00000000, 0x9d209d67)
    ensures Follows(0x32663c5b, 0x12dcbfdb, 0x00000000, 0x00000000, 0xec8726cb)
    ensures Follows(0x9d209d67, 0xe2e2c38e, 0x00000018, 0x00000000, 0x702138a4)
    ensures Follows(0xec8726cb, 0xc8215c1a, 0x61626380, 0x00000018, 0xd3b7973b)
  {
  }

  lemma Words32()
    ensures Follows(0x702138a4, 0xb73679a2, 0x000f0000, 0x61626380, 0x93f5997f)
    ensures Follows(0xd3b7973b, 0xe5bc3909, 0x7da86405, 0x000f0000, 0x3b68ba73)
    ensures Follows(0x93f5997f, 0x32663c5b, 0x600003c6, 0x7da86405, 0xaff4ffc1)
    ensures Follows(0x3b68ba73, 0x9d209d67, 0x3e9d7b78, 0x600003c6, 0xf10a5c62)
    ensures Follows(0xaff4ffc1, 0xec8726cb, 0x0183fc00, 0x3e9d7b78, 0x0a8b3996)
    ensures Follows(0xf10a5c62, 0x702138a4, 0x12dcbfdb, 0x0183fc00, 0x72af830a)
    ensures Follows(0x0a8b3996, 0xd3b7973b, 0xe2e2c38e, 0x12dcbfdb, 0x9409e33e)
    ensures Follows(0x72af830a, 0x93f5997f, 0xc8215c1a, 0xe2e2c38e, 0x24641522)
    ensures Follows(0x9409e33e, 0x3b68ba73, 0xb73679a2, 0xc8215c1a, 0x9f47bf94)
    ensures Follows(0x24641522, 0xaff4ffc1, 0xe5bc3909, 0xb73679a2, 0xf0a64f5a)
    ensures Follows(0x9f47bf94, 0xf10a5c62, 0x32663c5b, 0xe5bc3909, 0x3e246a79)
    ensures Follows(0xf0a64f5a, 0x0a8b3996, 0x9d209d67, 0x32663c5b, 0x27333ba3)
    ensures Follows(0x3e246a79, 0x72af830a, 0xec8726cb, 0x9d209d67, 0x0c4763f2)
    ensures Follows(0x27333ba3, 0x9409e33e, 0x702138a4, 0xec8726cb, 0x840abf27)
    ensures Follows(0x0c4763f2, 0x24641522, 0xd3b7973b, 0x702138a4, 0x7a290d5d)
    ensures Follows(0x840abf27, 0x9f47bf94, 0x93f5997f, 0xd3b7973b, 0x065c43da)
  {
  }

  lemma Words48()
    ensures Follows(0x7a290d5d, 0xf0a64f5a, 0x3b68ba73, 0x93f5997f, 0xfb3e89cb)
    ensures Follows(0x065c43da, 0x3e246a79, 0xaff4ffc1, 0x3b68ba73, 0xcc7617db)
    ensures Follows(0xfb3e89cb, 0x27333ba3, 0xf10a5c62, 0xaff4ffc1, 0xb9e66c34)
    ensures Follows(0xcc7617db, 0x0c4763f2, 0x0a8b3996, 0xf10a5c62, 0xa9993667)
    ensures Follows(0xb9e66c34, 0x840abf27, 0x72af830a, 0x0a8b3996, 0x84badedd)
    ensures Follows(0xa9993667, 0x7a290d5d, 0x9409e33e, 0x72af830a, 0xc21462bc)
    ensures Follows(0x84badedd, 0x065c43da, 0x24641522, 0x9409e33e, 0x1487472c)
    ensures Follows(0xc21462bc, 0xfb3e89cb, 0x9f47bf94, 0x24641522, 0xb20f7a99)
    ensures Follows(0x1487472c, 0xcc7617db, 0xf0a64f5a, 0x9f47bf94, 0xef57b9cd)
    ensures Follows(0xb20f7a99, 0xb9e66c34, 0x3e246a79, 0xf0a64f5a, 0xebe6b238)
    ensures Follows(0xef57b9cd, 0xa9993667, 0x27333ba3, 0x3e246a79, 0x9fe3095e)
    ensures Follows(0xebe6b238, 0x84badedd, 0x0c4763f2, 0x27333ba3, 0x78bc8d4b)
    ensures Follows(0x9fe3095e, 0xc21462bc, 0x840abf27, 0x0c4763f2, 0xa43fcf15)
    ensures Follows(0x78bc8d4b, 0x1487472c, 0x7a290d5d, 0x840abf27, 0x668b2ff8)
    ensures Follows(0xa43fcf15, 0xb20f7a99, 0x065c43da, 0x7a290d5d, 0xeeaba2cc)
    ensures Follows(0x668b2ff8, 0xef57b9cd, 0xfb3e89cb, 0x065c43da, 0x12b1edeb)
  {
  }

  lemma FirstWords(block: Block)
    requires block == BLOCK
    ensures Schedule(block, 0) == 0x61626380 && Schedule(block, 15) == 0x00000018
    ensures forall t :: 1 <= t < 15 ==> Schedule(block, t) == 0
  {
    FirstWord(block[0..4]);
    LastWord(block[60..64]);
    forall t | 1 <= t < 15
      ensures Schedule(block, t) == 0
    {
      ZeroWord(block[4 * t..4 * t + 4]);
    }
  }

  lemma FirstWord(b: seq<Byte>)
    requires b == [0x61, 0x62, 0x63, 0x80]
    ensures WordOf(b) == 0x61626380
  {
    hide WordOf, BytesOf;
    FirstBytes(0x61626380);
    WordOfBytes(0x61626380);
  }

  lemma FirstBytes(w: Word)
    requires w == 0x61626380
    ensures BytesOf(w) == [0x61, 0x62, 0x63, 0x80]
  {
    hide BigEndian;
    FirstLiteral(w);
    FirstBigEndian();
  }

  lemma FirstBigEndian()
    ensures BigEndian(1633837952, 4) == [0x61, 0x62, 0x63, 0x80]
  {
    assert BigEndian(24930, 2) == [0x61, 0x62];
    assert BigEndian(6382179, 3) == [0x61, 0x62, 0x63];
  }

  lemma FirstLiteral(w: Word)
    requires w == 0x61626380
    ensures w as nat == 1633837952
  {
  }

  lemma LastWord(b: seq<Byte>)
    requires b == [0, 0, 0, 24]
    ensures WordOf(b) == 0x00000018
  {
    FourBytes(b);
  }

  lemma ZeroWord(b: seq<Byte>)
    requires b == [0, 0, 0, 0]
    ensures WordOf(b) == 0
  {
    FourBytes(b);
  }

  lemma ScheduleTo32(block: Block)
    requires block == BLOCK
    ensures Schedule(block, 16) == 0x61626380 && Schedule(block, 17) == 0x000f0000
    ensures Schedule(block, 18) == 0x7da86405 && Schedule(block, 19) == 0x600003c6
    ensures Schedule(block, 20) == 0x3e9d7b78 && Schedule(block, 21) == 0x0183fc00
    ensures Schedule(block, 22) == 0x12dcbfdb && Schedule(block, 23) == 0xe2e2c38e
    ensures Schedule(block, 24) == 0xc8215c1a && Schedule(block, 25) == 0xb73679a2
    ensures Schedule(block, 26) == 0xe5bc3909 && Schedule(block, 27) == 0x32663c5b
    ensures Schedule(block, 28) == 0x9d209d67 && Schedule(block, 29) == 0xec8726cb
    ensures Schedule(block, 30) == 0x702138a4 && Schedule(block, 31) == 0xd3b7973b
  {
    hide Add, SmallSigma0, SmallSigma1, WordOf;
    FirstWords(block);
    Words16();
  }

  lemma ScheduleTo48(block: Block)
    requires block == BLOCK
    ensures Schedule(block, 32) == 0x93f5997f && Schedule(block, 33) == 0x3b68ba73
    ensures Schedule(block, 34) == 0xaff4ffc1 && Schedule(block, 35) == 0xf10a5c62
    ensures Schedule(block, 36) == 0x0a8b3996 && Schedule(block, 37) == 0x72af830a
    ensures Schedule(block, 38) == 0x9409e33e && Schedule(block, 39) == 0x24641522
    ensures Schedule(block, 40) == 0x9f47bf94 && Schedule(block, 41) == 0xf0a64f5a
    ensures Schedule(block, 42) == 0x3e246a79 && Schedule(block, 43) == 0x27333ba3
    ensures Schedule(block, 44) == 0x0c4763f2 && Schedule(block, 45) == 0x840abf27
    ensures Schedule(block, 46) == 0x7a290d5d && Schedule(block, 47) == 0x065c43da
  {
    hide Add, SmallSigma0, SmallSigma1, WordOf;
    ScheduleTo32(block);
    Words32();
  }

  lemma ScheduleTo64(block: Block)
    requires block == BLOCK
    ensures Schedule(block, 48) == 0xfb3e89cb && Schedule(block, 49) == 0xcc7617db
    ensures Schedule(block, 50) == 0xb9e66c34 && Schedule(block, 51) == 0xa9993667
    ensures Schedule(block, 52) == 0x84badedd && Schedule(block, 53) == 0xc21462bc
    ensures Schedule(block, 54) == 0x1487472c && Schedule(block, 55) == 0xb20f7a99
    ensures Schedule(block, 56) == 0xef57b9cd && Schedule(block, 57) == 0xebe6b238
    ensures Schedule(block, 58) == 0x9fe3095e && Schedule(block, 59) == 0x78bc8d4b
    ensures Schedule(block, 60) == 0xa43fcf15 && Schedule(block, 61) == 0x668b2ff8
    ensures Schedule(block, 62) == 0xeeaba2cc && Schedule(block, 63) == 0x12b1edeb
  {
    hide Add, SmallSigma0, SmallSigma1, WordOf;
    ScheduleTo48(block);
    Words48();
  }

  // ---- The rounds --------------------------------------------------------------------------

  // A round leaves six variables to their neighbours and computes two.
  predicate Goes(v: Vars, k: Word, w: Word, a: Word, e: Word)
  {
    Round(v, k, w) == Vars(a, v.a, v.b, v.c, e, v.e, v.f, v.g)
  }

  lemma Rounds0()
    ensures Goes(Vars(0x6a09e667, 0xbb67ae85, 0x3c6ef372, 0xa54ff53a, 0x510e527f, 0x9b05688c, 0x1f83d9ab, 0x5be0cd19),
                 0x428a2f98, 0x61626380, 0x5d6aebcd, 0xfa2a4622)
    ensures Goes(Vars(0x5d6aebcd, 0x6a09e667, 0xbb67ae85, 0x3c6ef372, 0xfa2a4622, 0x510e527f, 0x9b05688c, 0x1f83d9ab),
                 0x71374491, 0x00000000, 0x5a6ad9ad, 0x78ce7989)
    ensures Goes(Vars(0x5a6ad9ad, 0x5d6aebcd, 0x6a09e667, 0xbb67ae85, 0x78ce7989, 0xfa2a4622, 0x510e527f, 0x9b05688c),
                 0xb5c0fbcf, 0x00000000, 0xc8c347a7, 0xf92939eb)
    ensures Goes(Vars(0xc8c347a7, 0x5a6ad9ad, 0x5d6aebcd, 0x6a09e667, 0xf92939eb, 0x78ce7989, 0xfa2a4622, 0x510e527f),
                 0xe9b5dba5, 0x00000000, 0xd550f666, 0x24e00850)
    ensures Goes(Vars(0xd550f666, 0xc8c347a7, 0x5a6ad9ad, 0x5d6aebcd, 0x24e00850, 0xf92939eb, 0x78ce7989, 0xfa2a4622),
                 0x3956c25b, 0x00000000, 0x04409a6a, 0x43ada245)
    ensures Goes(Vars(0x04409a6a, 0xd550f666, 0xc8c347a7, 0x5a6ad9ad, 0x43ada245, 0x24e00850, 0xf92939eb, 0x78ce7989),
                 0x59f111f1, 0x00000000, 0x2b4209f5, 0x714260ad)
    ensures Goes(Vars(0x2b4209f5, 0x04409a6a, 0xd550f666, 0xc8c347a7, 0x714260ad, 0x43ada245, 0x24e00850, 0xf92939eb),
                 0x923f82a4, 0x00000000, 0xe5030380, 0x9b27a401)
    ensures Goes(Vars(0xe5030380, 0x2b4209f5, 0x04409a6a, 0xd550f666, 0x9b27a401, 0x714260ad, 0x43ada245, 0x24e00850),
                 0xab1c5ed5, 0x00000000, 0x85a07b5f, 0x0c657a79)
    ensures Goes(Vars(0x85a07b5f, 0xe5030380, 0x2b4209f5, 0x04409a6a, 0x0c657a79, 0x9b27a401, 0x714260ad, 0x43ada245),
                 0xd807aa98, 0x00000000, 0x8e04ecb9, 0x32ca2d8c)
    ensures Goes(Vars(0x8e04ecb9, 0x85a07b5f, 0xe5030380, 0x2b4209f5, 0x32ca2d8c, 0x0c657a79, 0x9b27a401, 0x714260ad),
                 0x12835b01, 0x00000000, 0x8c87346b, 0x1cc92596)
    ensures Goes(Vars(0x8c87346b, 0x8e04ecb9, 0x85a07b5f, 0xe5030380, 0x1cc92596, 0x32ca2d8c, 0x0c657a79, 0x9b27a401),
                 0x243185be, 0x00000000, 0x4798a3f4, 0x436b23e8)
    ensures Goes(Vars(0x4798a3f4, 0x8c87346b, 0x8e04ecb9, 0x85a07b5f, 0x436b23e8, 0x1cc92596, 0x32ca2d8c, 0x0c657a79),
                 0x550c7dc3, 0x00000000, 0xf71fc5a9, 0x816fd6e9)
    ensures Goes(Vars(0xf71fc5a9, 0x4798a3f4, 0x8c87346b, 0x8e04ecb9, 0x816fd6e9, 0x436b23e8, 0x1cc92596, 0x32ca2d8c),
                 0x72be5d74, 0x00000000, 0x87912990, 0x1e578218)
    ensures Goes(Vars(0x87912990, 0xf71fc5a9, 0x4798a3f4, 0x8c87346b, 0x1e578218, 0x816fd6e9, 0x436b23e8, 0x1cc92596),
                 0x80deb1fe, 0x00000000, 0xd932eb16, 0x745a48de)
    ensures Goes(Vars(0xd932eb16, 0x87912990, 0xf71fc5a9, 0x4798a3f4, 0x745a48de, 0x1e578218, 0x816fd6e9, 0x436b23e8),
                 0x9bdc06a7, 0x00000000, 0xc0645fde, 0x0b92f20c)
    ensures Goes(Vars(0xc0645fde, 0xd932eb16, 0x87912990, 0xf71fc5a9, 0x0b92f20c, 0x745a48de, 0x1e578218, 0x816fd6e9),
                 0xc19bf174, 0x00000018, 0xb0fa238e, 0x07590dcd)
  {
  }

  lemma Rounds16()
    ensures Goes(Vars(0xb0fa238e, 0xc0645fde, 0xd932eb16, 0x87912990, 0x07590dcd, 0x0b92f20c, 0x745a48de, 0x1e578218),
                 0xe49b69c1, 0x61626380, 0x21da9a9b, 0x8034229c)
    ensures Goes(Vars(0x21da9a9b, 0xb0fa238e, 0xc0645fde, 0xd932eb16, 0x8034229c, 0x07590dcd, 0x0b92f20c, 0x745a48de),
                 0xefbe4786, 0x000f0000, 0xc2fbd9d1, 0x846ee454)
    ensures Goes(Vars(0xc2fbd9d1, 0x21da9a9b, 0xb0fa238e, 0xc0645fde, 0x846ee454, 0x8034229c, 0x07590dcd, 0x0b92f20c),
                 0x0fc19dc6, 0x7da86405, 0xfe777bbf, 0xcc899961)
    ensures Goes(Vars(0xfe777bbf, 0xc2fbd9d1, 0x21da9a9b, 0xb0fa238e, 0xcc899961, 0x846ee454, 0x8034229c, 0x07590dcd),
                 0x240ca1cc, 0x600003c6, 0xe1f20c33, 0xb0638179)
    ensures Goes(Vars(0xe1f20c33, 0xfe777bbf, 0xc2fbd9d1, 0x21da9a9b, 0xb0638179, 0xcc899961, 0x846ee454, 0x8034229c),
                 0x2de92c6f, 0x3e9d7b78, 0x9dc68b63, 0x8ada8930)
    ensures Goes(Vars(0x9dc68b63, 0xe1f20c33, 0xfe777bbf, 0xc2fbd9d1, 0x8ada8930, 0xb0638179, 0xcc899961, 0x846ee454),
                 0x4a7484aa, 0x0183fc00, 0xc2606d6d, 0xe1257970)
    ensures Goes(Vars(0xc2606d6d, 0x9dc68b63, 0xe1f20c33, 0xfe777bbf, 0xe1257970, 0x8ada8930, 0xb0638179, 0xcc899961),
                 0x5cb0a9dc, 0x12dcbfdb, 0xa7a3623f, 0x49f5114a)
    ensures Goes(Vars(0xa7a3623f, 0xc2606d6d, 0x9dc68b63, 0xe1f20c33, 0x49f5114a, 0xe1257970, 0x8ada8930, 0xb0638179),
                 0x76f988da, 0xe2e2c38e, 0xc5d53d8d, 0xaa47c347)
    ensures Goes(Vars(0xc5d53d8d, 0xa7a3623f, 0xc2606d6d, 0x9dc68b63, 0xaa47c347, 0x49f5114a, 0xe1257970, 0x8ada8930),
                 0x983e5152, 0xc8215c1a, 0x1c2c2838, 0x2823ef91)
    ensures Goes(Vars(0x1c2c2838, 0xc5d53d8d, 0xa7a3623f, 0xc2606d6d, 0x2823ef91, 0xaa47c347, 0x49f5114a, 0xe1257970),
                 0xa831c66d, 0xb73679a2, 0xcde8037d, 0x14383d8e)
    ensures Goes(Vars(0xcde8037d, 0x1c2c2838, 0xc5d53d8d, 0xa7a3623f, 0x14383d8e, 0x2823ef91, 0xaa47c347, 0x49f5114a),
                 0xb00327c8, 0xe5bc3909, 0xb62ec4bc, 0xc74c6516)
    ensures Goes(Vars(0xb62ec4bc, 0xcde8037d, 0x1c2c2838, 0xc5d53d8d, 0xc74c6516, 0x14383d8e, 0x2823ef91, 0xaa47c347),
                 0xbf597fc7, 0x32663c5b, 0x77d37528, 0xedffbff8)
    ensures Goes(Vars(0x77d37528, 0xb62ec4bc, 0xcde8037d, 0x1c2c2838, 0xedffbff8, 0xc74c6516, 0x14383d8e, 0x2823ef91),
                 0xc6e00bf3, 0x9d209d67, 0x363482c9, 0x6112a3b7)
    ensures Goes(Vars(0x363482c9, 0x77d37528, 0xb62ec4bc, 0xcde8037d, 0x6112a3b7, 0xedffbff8, 0xc74c6516, 0x14383d8e),
                 0xd5a79147, 0xec8726cb, 0xa0060b30, 0xade79437)
    ensures Goes(Vars(0xa0060b30, 0x363482c9, 0x77d37528, 0xb62ec4bc, 0xade79437, 0x6112a3b7, 0xedffbff8, 0xc74c6516),
                 0x06ca6351, 0x702138a4, 0xea992a22, 0x0109ab3a)
    ensures Goes(Vars(0xea992a22, 0xa0060b30, 0x363482c9, 0x77d37528, 0x0109ab3a, 0xade79437, 0x6112a3b7, 0xedffbff8),
                 0x14292967, 0xd3b7973b, 0x73b33bf5, 0xba591112)
  {
  }

  lemma Rounds32()
    ensures Goes(Vars(0x73b33bf5, 0xea992a22, 0xa0060b30, 0x363482c9, 0xba591112, 0x0109ab3a, 0xade79437, 0x6112a3b7),
                 0x27b70a85, 0x93f5997f, 0x98e12507, 0x9cd9f5f6)
    ensures Goes(Vars(0x98e12507, 0x73b33bf5, 0xea992a22, 0xa0060b30, 0x9cd9f5f6, 0xba591112, 0x0109ab3a, 0xade79437),
                 0x2e1b2138, 0x3b68ba73, 0xfe604df5, 0x59249dd3)
    ensures Goes(Vars(0xfe604df5, 0x98e12507, 0x73b33bf5, 0xea992a22, 0x59249dd3, 0x9cd9f5f6, 0xba591112, 0x0109ab3a),
                 0x4d2c6dfc, 0xaff4ffc1, 0xa9a7738c, 0x085f3833)
    ensures Goes(Vars(0xa9a7738c, 0xfe604df5, 0x98e12507, 0x73b33bf5, 0x085f3833, 0x59249dd3, 0x9cd9f5f6, 0xba591112),
                 0x53380d13, 0xf10a5c62, 0x65a0cfe4, 0xf4b002d6)
    ensures Goes(Vars(0x65a0cfe4, 0xa9a7738c, 0xfe604df5, 0x98e12507, 0xf4b002d6, 0x085f3833, 0x59249dd3, 0x9cd9f5f6),
                 0x650a7354, 0x0a8b3996, 0x41a65cb1, 0x0772a26b)
    ensures Goes(Vars(0x41a65cb1, 0x65a0cfe4, 0xa9a7738c, 0xfe604df5, 0x0772a26b, 0xf4b002d6, 0x085f3833, 0x59249dd3),
                 0x766a0abb, 0x72af830a, 0x34df1604, 0xa507a53d)
    ensures Goes(Vars(0x34df1604, 0x41a65cb1, 0x65a0cfe4, 0xa9a7738c, 0xa507a53d, 0x0772a26b, 0xf4b002d6, 0x085f3833),
                 0x81c2c92e, 0x9409e33e, 0x6dc57a8a, 0xf0781bc8)
    ensures Goes(Vars(0x6dc57a8a, 0x34df1604, 0x41a65cb1, 0x65a0cfe4, 0xf0781bc8, 0xa507a53d, 0x0772a26b, 0xf4b002d6),
                 0x92722c85, 0x24641522, 0x79ea687a, 0x1efbc0a0)
    ensures Goes(Vars(0x79ea687a, 0x6dc57a8a, 0x34df1604, 0x41a65cb1, 0x1efbc0a0, 0xf0781bc8, 0xa507a53d, 0x0772a26b),
                 0xa2bfe8a1, 0x9f47bf94, 0xd6670766, 0x26352d63)
    ensures Goes(Vars(0xd6670766, 0x79ea687a, 0x6dc57a8a, 0x34df1604, 0x26352d63, 0x1efbc0a0, 0xf0781bc8, 0xa507a53d),
                 0xa81a664b, 0xf0a64f5a, 0xdf46652f, 0x838b2711)
    ensures Goes(Vars(0xdf46652f, 0xd6670766, 0x79ea687a, 0x6dc57a8a, 0x838b2711, 0x26352d63, 0x1efbc0a0, 0xf0781bc8),
                 0xc24b8b70, 0x3e246a79, 0x17aa0dfe, 0xdecd4715)
    ensures Goes(Vars(0x17aa0dfe, 0xdf46652f, 0xd6670766, 0x79ea687a, 0xdecd4715, 0x838b2711, 0x26352d63, 0x1efbc0a0),
                 0xc76c51a3, 0x27333ba3, 0x9d4baf93, 0xfda24c2e)
    ensures Goes(Vars(0x9d4baf93, 0x17aa0dfe, 0xdf46652f, 0xd6670766, 0xfda24c2e, 0xdecd4715, 0x838b2711, 0x26352d63),
                 0xd192e819, 0x0c4763f2, 0x26628815, 0xa80f11f0)
    ensures Goes(Vars(0x26628815, 0x9d4baf93, 0x17aa0dfe, 0xdf46652f, 0xa80f11f0, 0xfda24c2e, 0xdecd4715, 0x838b2711),
                 0xd6990624, 0x840abf27, 0x72ab4b91, 0xb7755da1)
    ensures Goes(Vars(0x72ab4b91, 0x26628815, 0x9d4baf93, 0x17aa0dfe, 0xb7755da1, 0xa80f11f0, 0xfda24c2e, 0xdecd4715),
                 0xf40e3585, 0x7a290d5d, 0xa14c14b0, 0xd57b94a9)
    ensures Goes(Vars(0xa14c14b0, 0x72ab4b91, 0x26628815, 0x9d4baf93, 0xd57b94a9, 0xb7755da1, 0xa80f11f0, 0xfda24c2e),
                 0x106aa070, 0x065c43da, 0x4172328d, 0xfecf0bc6)
  {
  }

  lemma Rounds48()
    ensures Goes(Vars(0x4172328d, 0xa14c14b0, 0x72ab4b91, 0x26628815, 0xfecf0bc6, 0xd57b94a9, 0xb7755da1, 0xa80f11f0),
                 0x19a4c116, 0xfb3e89cb, 0x05757ceb, 0xbd714038)
    ensures Goes(Vars(0x05757ceb, 0x4172328d, 0xa14c14b0, 0x72ab4b91, 0xbd714038, 0xfecf0bc6, 0xd57b94a9, 0xb7755da1),
                 0x1e376c08, 0xcc7617db, 0xf11bfaa8, 0x6e5c390c)
    ensures Goes(Vars(0xf11bfaa8, 0x05757ceb, 0x4172328d, 0xa14c14b0, 0x6e5c390c, 0xbd714038, 0xfecf0bc6, 0xd57b94a9),
                 0x2748774c, 0xb9e66c34, 0x7a0508a1, 0x52f1ccf7)
    ensures Goes(Vars(0x7a0508a1, 0xf11bfaa8, 0x05757ceb, 0x4172328d, 0x52f1ccf7, 0x6e5c390c, 0xbd714038, 0xfecf0bc6),
                 0x34b0bcb5, 0xa9993667, 0x886e7a22, 0x49231c1e)
    ensures Goes(Vars(0x886e7a22, 0x7a0508a1, 0xf11bfaa8, 0x05757ceb, 0x49231c1e, 0x52f1ccf7, 0x6e5c390c, 0xbd714038),
                 0x391c0cb3, 0x84badedd, 0x101fd28f, 0x529e7d00)
    ensures Goes(Vars(0x101fd28f, 0x886e7a22, 0x7a0508a1, 0xf11bfaa8, 0x529e7d00, 0x49231c1e, 0x52f1ccf7, 0x6e5c390c),
                 0x4ed8aa4a, 0xc21462bc, 0xf5702fdb, 0x9f4787c3)
    ensures Goes(Vars(0xf5702fdb, 0x101fd28f, 0x886e7a22, 0x7a0508a1, 0x9f4787c3, 0x529e7d00, 0x49231c1e, 0x52f1ccf7),
                 0x5b9cca4f, 0x1487472c, 0x3ec45cdb, 0xe50e1b4f)
    ensures Goes(Vars(0x3ec45cdb, 0xf5702fdb, 0x101fd28f, 0x886e7a22, 0xe50e1b4f, 0x9f4787c3, 0x529e7d00, 0x49231c1e),
                 0x682e6ff3, 0xb20f7a99, 0x38cc9913, 0x54cb266b)
    ensures Goes(Vars(0x38cc9913, 0x3ec45cdb, 0xf5702fdb, 0x101fd28f, 0x54cb266b, 0xe50e1b4f, 0x9f4787c3, 0x529e7d00),
                 0x748f82ee, 0xef57b9cd, 0xfcd1887b, 0x9b5e906c)
    ensures Goes(Vars(0xfcd1887b, 0x38cc9913, 0x3ec45cdb, 0xf5702fdb, 0x9b5e906c, 0x54cb266b, 0xe50e1b4f, 0x9f4787c3),
                 0x78a5636f, 0xebe6b238, 0xc062d46f, 0x7e44008e)
    ensures Goes(Vars(0xc062d46f, 0xfcd1887b, 0x38cc9913, 0x3ec45cdb, 0x7e44008e, 0x9b5e906c, 0x54cb266b, 0xe50e1b4f),
                 0x84c87814, 0x9fe3095e, 0xffb70472, 0x6d83bfc6)
    ensures Goes(Vars(0xffb70472, 0xc062d46f, 0xfcd1887b, 0x38cc9913, 0x6d83bfc6, 0x7e44008e, 0x9b5e906c, 0x54cb266b),
                 0x8cc70208, 0x78bc8d4b, 0xb6ae8fff, 0xb21bad3d)
    ensures Goes(Vars(0xb6ae8fff, 0xffb70472, 0xc062d46f, 0xfcd1887b, 0xb21bad3d, 0x6d83bfc6, 0x7e44008e, 0x9b5e906c),
                 0x90befffa, 0xa43fcf15, 0xb85e2ce9, 0x961f4894)
    ensures Goes(Vars(0xb85e2ce9, 0xb6ae8fff, 0xffb70472, 0xc062d46f, 0x961f4894, 0xb21bad3d, 0x6d83bfc6, 0x7e44008e),
                 0xa4506ceb, 0x668b2ff8, 0x04d24d6c, 0x948d25b6)
    ensures Goes(Vars(0x04d24d6c, 0xb85e2ce9, 0xb6ae8fff, 0xffb70472, 0x948d25b6, 0x961f4894, 0xb21bad3d, 0x6d83bfc6),
                 0xbef9a3f7, 0xeeaba2cc, 0xd39a2165, 0xfb121210)
    ensures Goes(Vars(0xd39a2165, 0x04d24d6c, 0xb85e2ce9, 0xb6ae8fff, 0xfb121210, 0x948d25b6, 0x961f4894, 0xb21bad3d),
                 0xc67178f2, 0x12b1edeb, 0x506e3058, 0x5ef50f24)
  {
  }

  lemma RoundsTo16(block: Block)
    requires block == BLOCK
    ensures Rounds(InitialVars(H0), block, 16) ==
           Vars(0xb0fa238e, 0xc0645fde, 0xd932eb16, 0x87912990, 0x07590dcd, 0x0b92f20c, 0x745a48de, 0x1e578218)
  {
    hide Round, Schedule;
    FirstWords(block);
    Rounds0();
    var i := InitialVars(H0);
    assert Rounds(i, block, 4) ==
           Vars(0xd550f666, 0xc8c347a7, 0x5a6ad9ad, 0x5d6aebcd, 0x24e00850, 0xf92939eb, 0x78ce7989, 0xfa2a4622);
    assert Rounds(i, block, 8) ==
           Vars(0x85a07b5f, 0xe5030380, 0x2b4209f5, 0x04409a6a, 0x0c657a79, 0x9b27a401, 0x714260ad, 0x43ada245);
    assert Rounds(i, block, 12) ==
           Vars(0xf71fc5a9, 0x4798a3f4, 0x8c87346b, 0x8e04ecb9, 0x816fd6e9, 0x436b23e8, 0x1cc92596, 0x32ca2d8c);
  }

  lemma RoundsTo32(block: Block)
    requires block == BLOCK
    ensures Rounds(InitialVars(H0), block, 32) ==
           Vars(0x73b33bf5, 0xea992a22, 0xa0060b30, 0x363482c9, 0xba591112, 0x0109ab3a, 0xade79437, 0x6112a3b7)
  {
    hide Round, Schedule;
    RoundsTo16(block);
    ScheduleTo32(block);
    Rounds16();
    var i := InitialVars(H0);
    assert Rounds(i, block, 20) ==
           Vars(0xe1f20c33, 0xfe777bbf, 0xc2fbd9d1, 0x21da9a9b, 0xb0638179, 0xcc899961, 0x846ee454, 0x8034229c);
    assert Rounds(i, block, 24) ==
           Vars(0xc5d53d8d, 0xa7a3623f, 0xc2606d6d, 0x9dc68b63, 0xaa47c347, 0x49f5114a, 0xe1257970, 0x8ada8930);
    assert Rounds(i, block, 28) ==
           Vars(0x77d37528, 0xb62ec4bc, 0xcde8037d, 0x1c2c2838, 0xedffbff8, 0xc74c6516, 0x14383d8e, 0x2823ef91);
  }

  lemma RoundsTo48(block: Block)
    requires block == BLOCK
    ensures Rounds(InitialVars(H0), block, 48) ==
           Vars(0x4172328d, 0xa14c14b0, 0x72ab4b91, 0x26628815, 0xfecf0bc6, 0xd57b94a9, 0xb7755da1, 0xa80f11f0)
  {
    hide Round, Schedule;
    RoundsTo32(block);
    ScheduleTo48(block);
    Rounds32();
    var i := InitialVars(H0);
    assert Rounds(i, block, 36) ==
           Vars(0x65a0cfe4, 0xa9a7738c, 0xfe604df5, 0x98e12507, 0xf4b002d6, 0x085f3833, 0x59249dd3, 0x9cd9f5f6);
    assert Rounds(i, block, 40) ==
           Vars(0x79ea687a, 0x6dc57a8a, 0x34df1604, 0x41a65cb1, 0x1efbc0a0, 0xf0781bc8, 0xa507a53d, 0x0772a26b);
    assert Rounds(i, block, 44) ==
           Vars(0x9d4baf93, 0x17aa0dfe, 0xdf46652f, 0xd6670766, 0xfda24c2e, 0xdecd4715, 0x838b2711, 0x26352d63);
  }

  lemma RoundsTo64(block: Block)
    requires block == BLOCK
    ensures Rounds(InitialVars(H0), block, 64) ==
           Vars(0x506e3058, 0xd39a2165, 0x04d24d6c, 0xb85e2ce9, 0x5ef50f24, 0xfb121210, 0x948d25b6, 0x961f4894)
  {
    hide Round, Schedule;
    RoundsTo48(block);
    ScheduleTo64(block);
    Rounds48();
    var i := InitialVars(H0);
    assert Rounds(i, block, 52) ==
           Vars(0x886e7a22, 0x7a0508a1, 0xf11bfaa8, 0x05757ceb, 0x49231c1e, 0x52f1ccf7, 0x6e5c390c, 0xbd714038);
    assert Rounds(i, block, 56) ==
           Vars(0x38cc9913, 0x3ec45cdb, 0xf5702fdb, 0x101fd28f, 0x54cb266b, 0xe50e1b4f, 0x9f4787c3, 0x529e7d00);
    assert Rounds(i, block, 60) ==
           Vars(0xb6ae8fff, 0xffb70472, 0xc062d46f, 0xfcd1887b, 0xb21bad3d, 0x6d83bfc6, 0x7e44008e, 0x9b5e906c);
  }

  // ---- The digest --------------------------------------------------------------------------

  const HASH: seq<Word> := [0xba7816bf, 0x8f01cfea, 0x414140de, 0x5dae2223, 0xb00361a3, 0x96177a9c, 0xb410ff61, 0xf20015ad]

  lemma Compressed(block: Block)
    requires block == BLOCK
    ensures Compress(H0, block) == HASH
  {
    hide Rounds;
    RoundsTo64(block);
  }

  lemma Hashed()
    ensures HashBlocks(Pad(ABC)) == HASH
  {
    hide Compress;
    Padded();
    assert Pad(ABC)[..0] == [] && Pad(ABC)[0..] == BLOCK;
    Compressed(BLOCK);
  }

  // The bytes of a word whose big-endian bytes have that value.
  lemma WordBytes(w: Word, n: nat, b: seq<Byte>)
    requires w as nat == n && |b| == 4
    requires n == 0x100_0000 * b[0] as nat + 0x1_0000 * b[1] as nat + 0x100 * b[2] as nat + b[3] as nat
    ensures BytesOf(w) == b
  {
    hide ValueOf, BigEndian;
    FourBytes(b);
    BigEndianOfValue(b);
  }

  lemma WordValues()
    ensures (0xba7816bf as Word) as nat == 3128432319
    ensures (0x8f01cfea as Word) as nat == 2399260650
    ensures (0x414140de as Word) as nat == 1094795486
    ensures (0x5dae2223 as Word) as nat == 1571693091
    ensures (0xb00361a3 as Word) as nat == 2953011619
    ensures (0x96177a9c as Word) as nat == 2518121116
    ensures (0xb410ff61 as Word) as nat == 3021012833
    ensures (0xf20015ad as Word) as nat == 4060091821
  {
  }

  lemma HashBytes()
    ensures BytesOf(0xba7816bf) == [0xba, 0x78, 0x16, 0xbf]
    ensures BytesOf(0x8f01cfea) == [0x8f, 0x01, 0xcf, 0xea]
    ensures BytesOf(0x414140de) == [0x41, 0x41, 0x40, 0xde]
    ensures BytesOf(0x5dae2223) == [0x5d, 0xae, 0x22, 0x23]
    ensures BytesOf(0xb00361a3) == [0xb0, 0x03, 0x61, 0xa3]
    ensures BytesOf(0x96177a9c) == [0x96, 0x17, 0x7a, 0x9c]
    ensures BytesOf(0xb410ff61) == [0xb4, 0x10, 0xff, 0x61]
    ensures BytesOf(0xf20015ad) == [0xf2, 0x00, 0x15, 0xad]
  {
    hide BytesOf;
    WordValues();
    WordBytes(0xba7816bf, 3128432319, [0xba, 0x78, 0x16, 0xbf]);
    WordBytes(0x8f01cfea, 2399260650, [0x8f, 0x01, 0xcf, 0xea]);
    WordBytes(0x414140de, 1094795486, [0x41, 0x41, 0x40, 0xde]);
    WordBytes(0x5dae2223, 1571693091, [0x5d, 0xae, 0x22, 0x23]);
    WordBytes(0xb00361a3, 2953011619, [0xb0, 0x03, 0x61, 0xa3]);
    WordBytes(0x96177a9c, 2518121116, [0x96, 0x17, 0x7a, 0x9c]);
    WordBytes(0xb410ff61, 3021012833, [0xb4, 0x10, 0xff, 0x61]);
    WordBytes(0xf20015ad, 4060091821, [0xf2, 0x00, 0x15, 0xad]);
  }

  lemma {:induction false} DigestSnoc(h: seq<Word>, w: Word)
    ensures DigestBytes(h + [w]) == DigestBytes(h) + BytesOf(w)
  {
    assert (h + [w])[..|h|] == h;
  }

  lemma HashDigest()
    ensures DigestBytes(HASH) == DIGEST
  {
    hide DigestBytes, BytesOf;
    HashBytes();
    DigestSnoc(HASH[..0], HASH[0]);
    assert HASH[..0] + [HASH[0]] == HASH[..1];
    DigestSnoc(HASH[..1], HASH[1]);
    assert HASH[..1] + [HASH[1]] == HASH[..2];
    DigestSnoc(HASH[..2], HASH[2]);
    assert HASH[..2] + [HASH[2]] == HASH[..3];
    DigestSnoc(HASH[..3], HASH[3]);
    assert HASH[..3] + [HASH[3]] == HASH[..4];
    DigestSnoc(HASH[..4], HASH[4]);
    assert HASH[..4] + [HASH[4]] == HASH[..5];
    DigestSnoc(HASH[..5], HASH[5]);
    assert HASH[..5] + [HASH[5]] == HASH[..6];
    DigestSnoc(HASH[..6], HASH[6]);
    assert HASH[..6] + [HASH[6]] == HASH[..7];
    DigestSnoc(HASH[..7], HASH[7]);
    assert HASH[..7] + [HASH[7]] == HASH[..8];
    EmptyDigest();
    assert HASH[..0] == [] && HASH[..8] == HASH;
  }

  lemma EmptyDigest()
    ensures DigestBytes([]) == []
  {
  }

  const DIGEST: seq<Byte> :=
    [0xba, 0x78, 0x16, 0xbf, 0x8f, 0x01, 0xcf, 0xea] +
    [0x41, 0x41, 0x40, 0xde, 0x5d, 0xae, 0x22, 0x23] +
    [0xb0, 0x03, 0x61, 0xa3, 0x96, 0x17, 0x7a, 0x9c] +
    [0xb4, 0x10, 0xff, 0x61, 0xf2, 0x00, 0x15, 0xad]

  /** SHA-256 of "abc" is ba7816bf 8f01cfea 414140de 5dae2223 b00361a3 96177a9c b410ff61 f20015ad. */
  lemma KnownAnswer()
    ensures Sha256([0x61, 0x62, 0x63]) == DIGEST
  {
    hide HashBlocks, DigestBytes, Pad;
    Hashed();
    HashDigest();
  }
}
