/** The response-drop proxy: forwards HTTP/2 frames until the first application frame, however the
    byte stream is cut into reads.  Frame layout: section 4.1 of RFC 9113. */
module FrameSplitter {
  import opened Bytes

  /** What reading from upstream yields: bytes, the end of the stream, an I/O error, or the news that
      another connection of the proxy has already dropped a response. */
  datatype Read = Data(bytes: seq<Byte>) | Error | DroppedElsewhere

  // A 9-byte header with a 24-bit length, and the payload.
  function FrameLength(stream: seq<Byte>): (n: nat)
    requires |stream| >= 9
    ensures n >= 9
  {
    9 + ValueOf(stream[..3])
  }

  // The 31-bit stream identifier.
  function StreamId(stream: seq<Byte>): nat
    requires |stream| >= 9
  {
    ValueOf(stream[5..9]) % 0x8000_0000
  }

  predicate HasFrame(stream: seq<Byte>) { |stream| >= 9 && |stream| >= FrameLength(stream) }

  /** A complete frame and nothing else. */
  predicate IsFrame(frame: seq<Byte>) { |frame| >= 9 && |frame| == FrameLength(frame) }

  /** A frame of section 4.1: a 24-bit length, a type, flags, a reserved bit and a 31-bit identifier. */
  function Frame(kind: Byte, flags: Byte, reserved: bool, id: nat, payload: seq<Byte>): seq<Byte>
  {
    BigEndian(|payload|, 3) + [kind, flags] + BigEndian((if reserved then 0x8000_0000 else 0) + id, 4) + payload
  }

  /** Such a frame is read back, whatever follows it. */
  lemma FrameReadBack(kind: Byte, flags: Byte, reserved: bool, id: nat, payload: seq<Byte>, rest: seq<Byte>)
    requires |payload| < 0x100_0000 && id < 0x8000_0000
    ensures var frame := Frame(kind, flags, reserved, id, payload);
      && IsFrame(frame) && HasFrame(frame + rest) && FrameLength(frame + rest) == |frame| && StreamId(frame + rest) == id
  {
    hide ValueOf, BigEndian;
    var frame := Frame(kind, flags, reserved, id, payload);
    var word := (if reserved then 0x8000_0000 else 0) + id;
    Pow256Values();
    ValueOfBigEndian(|payload|, 3);
    ValueOfBigEndian(word, 4);
    assert frame[..3] == (frame + rest)[..3] == BigEndian(|payload|, 3);
    assert (frame + rest)[5..9] == BigEndian(word, 4);
  }

  /** And every complete frame is such a one. */
  lemma FrameIsBuilt(frame: seq<Byte>) returns (reserved: bool)
    requires IsFrame(frame)
    ensures frame == Frame(frame[3], frame[4], reserved, StreamId(frame), frame[9..])
    ensures StreamId(frame) < 0x8000_0000
  {
    hide ValueOf, BigEndian;
    var word := ValueOf(frame[5..9]);
    reserved := word >= 0x8000_0000;
    Pow256Values();
    BigEndianOfValue(frame[..3]);
    BigEndianOfValue(frame[5..9]);
    assert frame == frame[..3] + [frame[3], frame[4]] + frame[5..9] + frame[9..];
  }

  datatype Verdict = Verdict(forwarded: seq<Byte>, dropped: bool)

  function Prepend(bytes: seq<Byte>, v: Verdict): Verdict { Verdict(bytes + v.forwarded, v.dropped) }

  /** The verdict on a whole stream. */
  function Split(stream: seq<Byte>): Verdict
  {
    if !HasFrame(stream) then Verdict([], false)
    else if StreamId(stream) != 0 then Verdict([], true)
    else Prepend(stream[..FrameLength(stream)], Split(stream[FrameLength(stream)..]))
  }

  /** The bytes read before the stream ends. */
  function Stream(input: seq<Read>): seq<Byte>
  {
    if input == [] || !input[0].Data? || input[0].bytes == [] then []
    else input[0].bytes + Stream(input[1..])
  }

  // Whatever follows what has been read, the verdict is what was forwarded and the verdict on the rest.
  ghost predicate Reduces(read: seq<Byte>, forwarded: seq<Byte>, buffer: seq<Byte>)
  {
    forall more :: Split(read + more) == Prepend(forwarded, Split(buffer + more))
  }

  lemma FrameStaysFirst(buffer: seq<Byte>, more: seq<Byte>)
    requires HasFrame(buffer)
    ensures HasFrame(buffer + more) && FrameLength(buffer + more) == FrameLength(buffer)
    ensures StreamId(buffer + more) == StreamId(buffer)
    ensures (buffer + more)[..FrameLength(buffer)] == buffer[..FrameLength(buffer)]
    ensures (buffer + more)[FrameLength(buffer)..] == buffer[FrameLength(buffer)..] + more
  {
    assert (buffer + more)[..3] == buffer[..3];
    assert (buffer + more)[5..9] == buffer[5..9];
  }

  lemma ReducesFrame(read: seq<Byte>, forwarded: seq<Byte>, buffer: seq<Byte>)
    requires Reduces(read, forwarded, buffer) && HasFrame(buffer) && StreamId(buffer) == 0
    ensures Reduces(read, forwarded + buffer[..FrameLength(buffer)], buffer[FrameLength(buffer)..])
  {
    hide Split, StreamId;
    var n := FrameLength(buffer);
    forall more: seq<Byte>
      ensures Split(read + more) == Prepend(forwarded + buffer[..n], Split(buffer[n..] + more))
    {
      SplitsFrame(buffer, more);
      assert forwarded + (buffer[..n] + Split(buffer[n..] + more).forwarded) == forwarded + buffer[..n] + Split(buffer[n..] + more).forwarded;
    }
  }

  lemma SplitsFrame(buffer: seq<Byte>, more: seq<Byte>)
    requires HasFrame(buffer) && StreamId(buffer) == 0
    ensures FrameLength(buffer) <= |buffer|
    ensures Split(buffer + more) == Prepend(buffer[..FrameLength(buffer)], Split(buffer[FrameLength(buffer)..] + more))
  {
    FrameStaysFirst(buffer, more);
  }

  lemma ReducesData(read: seq<Byte>, forwarded: seq<Byte>, buffer: seq<Byte>, bytes: seq<Byte>)
    requires Reduces(read, forwarded, buffer)
    ensures Reduces(read + bytes, forwarded, buffer + bytes)
  {
    forall more: seq<Byte>
      ensures Split(read + bytes + more) == Prepend(forwarded, Split(buffer + bytes + more))
    {
      assert read + bytes + more == read + (bytes + more);
      assert buffer + bytes + more == buffer + (bytes + more);
    }
  }

  lemma ReducesNothing()
    ensures Reduces([], [], []) && !HasFrame([])
  {
    forall more: seq<Byte>
      ensures Split([] + more) == Prepend([], Split([] + more))
    {
      assert [] + Split([] + more).forwarded == Split([] + more).forwarded;
    }
  }

  lemma Waits(read: seq<Byte>, forwarded: seq<Byte>, buffer: seq<Byte>)
    requires Reduces(read, forwarded, buffer) && !HasFrame(buffer)
    ensures Split(read) == Verdict(forwarded, false)
  {
    assert read + [] == read && buffer + [] == buffer;
    assert Split(read + []) == Prepend(forwarded, Split(buffer + []));
  }

  lemma Drops(read: seq<Byte>, forwarded: seq<Byte>, buffer: seq<Byte>, unread: seq<Byte>)
    requires Reduces(read, forwarded, buffer) && HasFrame(buffer) && StreamId(buffer) != 0
    ensures Split(read + unread) == Verdict(forwarded, true)
  {
    hide FrameLength, StreamId, ValueOf;
    FrameStaysFirst(buffer, unread);
    assert Split(read + unread) == Prepend(forwarded, Split(buffer + unread));
  }

  lemma {:induction false} StreamPrefix(input: seq<Read>, k: nat)
    requires k < |input| && (forall i :: 0 <= i < k ==> input[i].Data? && input[i].bytes != [])
    ensures Stream(input[..k]) <= Stream(input)
    ensures if input[k].Data? && input[k].bytes != [] then Stream(input[..k + 1]) == Stream(input[..k]) + input[k].bytes
            else Stream(input[..k]) == Stream(input)
  {
    if k != 0 {
      StreamPrefix(input[1..], k - 1);
      assert input[..k][1..] == input[1..][..k - 1];
      assert input[..k + 1][1..] == input[1..][..k];
    }
  }

  /** The read loop: the buffer holds an incomplete frame between reads.  Whatever the cuts, what is
      forwarded and whether a response is dropped depend on the stream alone. */
  method HandleConnection(input: seq<Read>) returns (forwarded: seq<Byte>, dropped: bool)
    ensures Verdict(forwarded, dropped) == Split(Stream(input))
  {
    hide Split, FrameLength, StreamId, Reduces;
    forwarded, dropped := [], false;
    var buffer: seq<Byte> := [];
    var k := 0;
    ghost var read: seq<Byte> := [];
    ReducesNothing();
    while k < |input|
      invariant k <= |input| && (forall i :: 0 <= i < k ==> input[i].Data? && input[i].bytes != [])
      invariant read == Stream(input[..k]) && Reduces(read, forwarded, buffer) && !HasFrame(buffer) && !dropped
    {
      StreamPrefix(input, k);
      if !input[k].Data? || input[k].bytes == [] {
        Waits(read, forwarded, buffer);
        return;
      }
      buffer := buffer + input[k].bytes;
      ReducesData(read, forwarded, buffer[..|buffer| - |input[k].bytes|], input[k].bytes);
      read := read + input[k].bytes;
      while |buffer| >= 9
        invariant Reduces(read, forwarded, buffer)
      {
        var frameLength := FrameLength(buffer);
        if |buffer| < frameLength {
          break;
        }
        if StreamId(buffer) != 0 {
          dropped := true;
          if k + 1 < |input| {
            StreamPrefix(input, k + 1);
          } else {
            assert input[..k + 1] == input;
          }
          ghost var unread := Stream(input)[|read|..];
          assert read + unread == Stream(input);
          Drops(read, forwarded, buffer, unread);
          return;
        }
        ReducesFrame(read, forwarded, buffer);
        var frame := buffer[..frameLength];
        buffer := buffer[frameLength..];
        forwarded := forwarded + frame;
      }
      k := k + 1;
    }
    assert input[..k] == input;
    Waits(read, forwarded, buffer);
  }

  // ---- What the verdict means --------------------------------------------------------------

  lemma {:induction false} SplitFrames(frames: seq<seq<Byte>>, rest: seq<Byte>)
    requires forall i :: 0 <= i < |frames| ==> IsFrame(frames[i]) && StreamId(frames[i]) == 0
    ensures Split(Concat(frames) + rest) == Prepend(Concat(frames), Split(rest))
  {
    hide Split, StreamId;
    if frames == [] {
      assert Concat(frames) + rest == rest && [] + Split(rest).forwarded == Split(rest).forwarded;
    } else {
      var front, last := frames[..|frames| - 1], frames[|frames| - 1];
      assert Concat(frames) + rest == Concat(front) + (last + rest);
      SplitFrames(front, last + rest);
      SplitsFrame(last, rest);
      assert last[..|last|] == last && last[|last|..] + rest == rest;
      assert Concat(front) + (last + Split(rest).forwarded) == Concat(front) + last + Split(rest).forwarded;
    }
  }

  /** A stream of complete frames with stream identifier zero forwards them all; it drops exactly when a
      complete frame with another identifier follows. */
  lemma SplitMeans(frames: seq<seq<Byte>>, rest: seq<Byte>)
    requires forall i :: 0 <= i < |frames| ==> IsFrame(frames[i]) && StreamId(frames[i]) == 0
    requires HasFrame(rest) ==> StreamId(rest) != 0
    ensures Split(Concat(frames) + rest) == Verdict(Concat(frames), HasFrame(rest))
  {
    SplitFrames(frames, rest);
  }

  /** Every stream is of that shape. */
  lemma {:induction false} EveryStreamSplits(stream: seq<Byte>) returns (frames: seq<seq<Byte>>, rest: seq<Byte>)
    ensures stream == Concat(frames) + rest && (HasFrame(rest) ==> StreamId(rest) != 0)
    ensures forall i :: 0 <= i < |frames| ==> IsFrame(frames[i]) && StreamId(frames[i]) == 0
  {
    hide FrameLength, StreamId;
    frames, rest := [], stream;
    assert Concat([]) + rest == stream;
    while HasFrame(rest) && StreamId(rest) == 0
      invariant stream == Concat(frames) + rest
      invariant forall i :: 0 <= i < |frames| ==> IsFrame(frames[i]) && StreamId(frames[i]) == 0
      decreases |rest|
    {
      var n := FrameLength(rest);
      var frame, after := rest[..n], rest[n..];
      TakenFrame(rest);
      assert (frames + [frame])[..|frames|] == frames;
      assert Concat(frames) + (frame + after) == Concat(frames) + frame + after;
      frames, rest := frames + [frame], after;
    }
  }

  lemma TakenFrame(stream: seq<Byte>)
    requires HasFrame(stream)
    ensures IsFrame(stream[..FrameLength(stream)]) && StreamId(stream[..FrameLength(stream)]) == StreamId(stream)
  {
    var frame := stream[..FrameLength(stream)];
    assert frame[..3] == stream[..3] && frame[5..9] == stream[5..9];
  }
}
