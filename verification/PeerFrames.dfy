/** The hand-written protobuf and gRPC encoder of the verification script, and a decoder that shows what
    its output says.  The decoder is a specification: the script only encodes. */
module PeerFrames {
  import opened Options
  import opened Bytes
  import opened Bits

  // ---- Varints -----------------------------------------------------------------------------

  function Varint(value: nat): (encoded: seq<Byte>)
    ensures encoded != []
  {
    if value >= 0x80 then [value % 0x80 + 0x80] + Varint(value / 0x80) else [value]
  }

  method ProtobufVarint(value: nat) returns (encoded: seq<Byte>)
    ensures encoded == Varint(value)
  {
    encoded := [];
    var rest := value;
    while rest >= 0x80
      invariant encoded + Varint(rest) == Varint(value)
    {
      GroupBits(rest);
      var group := Or(And(rest, 0x7f), 0x80);
      assert encoded + ([group] + Varint(rest / 0x80)) == encoded + [group] + Varint(rest / 0x80);
      encoded := encoded + [group];
      rest := Shr(rest, 7);
    }
    encoded := encoded + [rest];
  }

  // The low seven bits with the continuation bit, and the bits that are left.
  lemma GroupBits(value: nat)
    ensures Or(And(value, 0x7f), 0x80) == value % 0x80 + 0x80 && Shr(value, 7) == value / 0x80
  {
    assert Pow2(7) == 0x80;
    AndOnes(value, 7);
    OrAbove(value % 0x80, 7, 1);
    ShrDivides(value, 7);
  }

  // A field number and its wire type.
  lemma TagBits(number: nat, wire: nat)
    requires wire < 8
    ensures Shl(number, 3) == 8 * number && Or(Shl(number, 3), wire) == 8 * number + wire
  {
    assert Pow2(3) == 8;
    ShlMultiplies(number, 3);
    OrAbove(wire, 3, number);
    OrCommutes(8 * number, wire);
  }

  datatype Decoded<+T> = Malformed | Decoded(value: T, rest: seq<Byte>)

  /** Base 128, least significant group first; the high bit says that another byte follows. */
  function DecodeVarint(bytes: seq<Byte>): (d: Decoded<nat>)
    ensures d.Decoded? ==> |d.rest| < |bytes|
  {
    if bytes == [] then Malformed
    else if bytes[0] < 0x80 then Decoded(bytes[0], bytes[1..])
    else match DecodeVarint(bytes[1..])
      case Malformed => Malformed
      case Decoded(high, rest) => Decoded(bytes[0] - 0x80 + 0x80 * high, rest)
  }

  lemma {:induction false} VarintRoundTrip(value: nat, rest: seq<Byte>)
    ensures DecodeVarint(Varint(value) + rest) == Decoded(value, rest)
  {
    var bytes := Varint(value) + rest;
    if value >= 0x80 {
      assert bytes[1..] == Varint(value / 0x80) + rest;
      VarintRoundTrip(value / 0x80, rest);
    } else {
      assert bytes[1..] == rest;
    }
  }

  /** No encoding is a proper prefix of another. */
  lemma VarintPrefixFree(a: nat, b: nat)
    requires Varint(a) <= Varint(b)
    ensures a == b
  {
    var rest := Varint(b)[|Varint(a)|..];
    assert Varint(a) + rest == Varint(b) == Varint(b) + [];
    VarintRoundTrip(a, rest);
    VarintRoundTrip(b, []);
  }

  /** No byte string that decodes to the value is shorter. */
  lemma {:induction false} VarintMinimal(bytes: seq<Byte>)
    requires DecodeVarint(bytes).Decoded?
    ensures |Varint(DecodeVarint(bytes).value)| <= |bytes| - |DecodeVarint(bytes).rest|
  {
    if bytes[0] >= 0x80 {
      VarintMinimal(bytes[1..]);
      var high := DecodeVarint(bytes[1..]).value;
      assert (bytes[0] - 0x80 + 0x80 * high) / 0x80 == high;
    }
  }

  // ---- Fields ------------------------------------------------------------------------------

  datatype Field = VarintField(number: nat, value: nat) | BytesField(number: nat, payload: seq<Byte>)

  /** protobuf_varint_field and protobuf_bytes_field: the tag is eight times the number and the wire type. */
  function EncodeField(f: Field): (encoded: seq<Byte>)
    ensures encoded != []
  {
    match f
    case VarintField(number, value) => Varint(8 * number) + Varint(value)
    case BytesField(number, payload) => Varint(8 * number + 2) + Varint(|payload|) + payload
  }

  function DecodeField(bytes: seq<Byte>): (d: Decoded<Field>)
    ensures d.Decoded? ==> |d.rest| < |bytes|
  {
    match DecodeVarint(bytes)
    case Malformed => Malformed
    case Decoded(tag, body) =>
      if tag % 8 == 0 then
        (match DecodeVarint(body)
         case Malformed => Malformed
         case Decoded(value, rest) => Decoded(VarintField(tag / 8, value), rest))
      else if tag % 8 == 2 then
        (match DecodeVarint(body)
         case Malformed => Malformed
         case Decoded(length, rest) =>
           if length > |rest| then Malformed else Decoded(BytesField(tag / 8, rest[..length]), rest[length..]))
      else Malformed
  }

  lemma FieldRoundTrip(f: Field, rest: seq<Byte>)
    ensures DecodeField(EncodeField(f) + rest) == Decoded(f, rest)
  {
    hide Varint, DecodeVarint;
    match f {
      case VarintField(number, value) =>
        VarintRoundTrip(8 * number, Varint(value) + rest);
        VarintRoundTrip(value, rest);
        assert EncodeField(f) + rest == Varint(8 * number) + (Varint(value) + rest);
      case BytesField(number, payload) =>
        VarintRoundTrip(8 * number + 2, Varint(|payload|) + (payload + rest));
        VarintRoundTrip(|payload|, payload + rest);
        assert EncodeField(f) + rest == Varint(8 * number + 2) + (Varint(|payload|) + (payload + rest));
        assert (payload + rest)[..|payload|] == payload && (payload + rest)[|payload|..] == rest;
    }
  }

  function EncodeFields(fields: seq<Field>): seq<Byte>
  {
    if fields == [] then [] else EncodeField(fields[0]) + EncodeFields(fields[1..])
  }

  function DecodeFields(bytes: seq<Byte>): Option<seq<Field>>
    decreases |bytes|
  {
    if bytes == [] then Some([])
    else match DecodeField(bytes)
      case Malformed => None
      case Decoded(f, rest) =>
        match DecodeFields(rest)
        case None => None
        case Some(fields) => Some([f] + fields)
  }

  lemma {:induction false} FieldsRoundTrip(fields: seq<Field>)
    ensures DecodeFields(EncodeFields(fields)) == Some(fields)
  {
    hide EncodeField, DecodeField;
    if fields != [] {
      FieldRoundTrip(fields[0], EncodeFields(fields[1..]));
      FieldsRoundTrip(fields[1..]);
      assert [fields[0]] + fields[1..] == fields;
    }
  }

  // ---- peer_request_frame ------------------------------------------------------------------

  datatype Peer = Peer(cluster: seq<Byte>, group: nat, sender: nat, target: nat, payload: seq<Byte>)

  function EnvelopeFields(p: Peer): seq<Field>
  {
    [VarintField(1, 1), VarintField(2, 1), BytesField(3, p.cluster), VarintField(4, p.group),
     VarintField(5, p.sender), VarintField(6, p.target), BytesField(7, p.payload)]
  }

  function PeerRequest(p: Peer): seq<Byte>
  {
    EncodeField(BytesField(1, EncodeFields(EnvelopeFields(p))))
  }

  /** The frame: an uncompressed flag, a 32-bit length and the request; None where the length overflows. */
  function PeerRequestFrame(p: Peer): Option<seq<Byte>>
  {
    var request := PeerRequest(p);
    if |request| >= 0x1_0000_0000 then None else Some([0] + BigEndian(|request|, 4) + request)
  }

  /** What a receiver reads from a frame: the length prefix must match, and the fields be these seven. */
  function DecodePeer(frame: seq<Byte>): Option<Peer>
  {
    if |frame| < 5 || frame[0] != 0 || ValueOf(frame[1..5]) != |frame| - 5 then None
    else match DecodeFields(frame[5..])
      case None => None
      case Some(request) =>
        if |request| != 1 || !request[0].BytesField? || request[0].number != 1 then None
        else match DecodeFields(request[0].payload)
          case None => None
          case Some(fs) =>
            if |fs| == 7 && fs[0] == VarintField(1, 1) && fs[1] == VarintField(2, 1)
               && fs[2].BytesField? && fs[2].number == 3 && fs[3].VarintField? && fs[3].number == 4
               && fs[4].VarintField? && fs[4].number == 5 && fs[5].VarintField? && fs[5].number == 6
               && fs[6].BytesField? && fs[6].number == 7
            then Some(Peer(fs[2].payload, fs[3].value, fs[4].value, fs[5].value, fs[6].payload)) else None
  }

  /** The frame as the script builds it, from varints computed by the loop. */
  method BuildPeerRequestFrame(p: Peer) returns (frame: Option<seq<Byte>>)
    ensures frame == PeerRequestFrame(p)
  {
    hide Varint, EncodeField;
    var fields := EnvelopeFields(p);
    var envelope: seq<Byte> := [];
    for i := 0 to |fields|
      invariant envelope + EncodeFields(fields[i..]) == EncodeFields(fields)
    {
      var encoded := ProtobufField(fields[i]);
      assert fields[i..][1..] == fields[i + 1..];
      assert envelope + (encoded + EncodeFields(fields[i + 1..])) == envelope + encoded + EncodeFields(fields[i + 1..]);
      envelope := envelope + encoded;
    }
    assert envelope + EncodeFields([]) == envelope;
    var request := ProtobufField(BytesField(1, envelope));
    frame := if |request| >= 0x1_0000_0000 then None else Some([0] + BigEndian(|request|, 4) + request);
  }

  method ProtobufField(f: Field) returns (encoded: seq<Byte>)
    ensures encoded == EncodeField(f)
  {
    hide Varint;
    match f {
      case VarintField(number, value) =>
        TagBits(number, 0);
        var tag := ProtobufVarint(Shl(number, 3));
        var body := ProtobufVarint(value);
        encoded := tag + body;
      case BytesField(number, payload) =>
        TagBits(number, 2);
        var tag := ProtobufVarint(Or(Shl(number, 3), 2));
        var length := ProtobufVarint(|payload|);
        encoded := tag + length + payload;
    }
  }

  /** Every frame the script can build decodes to what it was built from; it builds one whenever the
      request is below 2^32 bytes. */
  lemma PeerFrameRoundTrip(p: Peer)
    ensures PeerRequestFrame(p).Some? <==> |PeerRequest(p)| < 0x1_0000_0000
    ensures PeerRequestFrame(p).Some? ==> DecodePeer(PeerRequestFrame(p).value) == Some(p)
  {
    hide EncodeField, DecodeField, BigEndian, ValueOf;
    var envelope, request := EncodeFields(EnvelopeFields(p)), PeerRequest(p);
    if |request| < 0x1_0000_0000 {
      var frame := PeerRequestFrame(p).value;
      Pow256Values();
      ValueOfBigEndian(|request|, 4);
      assert frame[1..5] == BigEndian(|request|, 4) && frame[5..] == request;
      RequestRoundTrip(envelope);
      FieldsRoundTrip(EnvelopeFields(p));
    }
  }

  lemma RequestRoundTrip(envelope: seq<Byte>)
    ensures DecodeFields(EncodeField(BytesField(1, envelope))) == Some([BytesField(1, envelope)])
  {
    var fields := [BytesField(1, envelope)];
    FieldsRoundTrip(fields);
    assert fields[1..] == [];
    assert EncodeField(fields[0]) + [] == EncodeField(fields[0]);
    assert EncodeFields(fields) == EncodeField(fields[0]);
  }
}
