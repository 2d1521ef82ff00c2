/** Link frames: an 8-byte header and a payload, decoded incrementally from a byte stream. */
module Frames {
  import opened MeshTypes
  import opened Bytes
  import opened Packets

  const HEADER_LEN: nat := 8
  const FRAME_VERSION: nat := 1

  datatype FrameType = LinkHello | LsaType | DigestType | DigestReqType | ForwardType | CircuitType | CreditType | Ping

  datatype Channel = Control | Rpc | PubSubP0 | PubSubP1 | PubSubP2 | PubSubP3 | Tunnel

  datatype WireFrame = WireFrame(frameType: FrameType, channel: Channel, payload: seq<byte>)

  datatype FrameError =
    | BadVersion(version: nat)
    | UnknownFrameType(code: nat)
    | UnknownChannel(channel: byte)
    | BadFlags(flags: byte)
    | NonZeroReserved(reserved: byte)
    | FrameTooLarge(length: nat)

  function FrameTypeCode(t: FrameType): (c: nat)
    ensures 1 <= c <= 8 && FrameTypeOf(c) == Some(t)
  {
    match t
    case LinkHello => 1 case LsaType => 2 case DigestType => 3 case DigestReqType => 4
    case ForwardType => 5 case CircuitType => 6 case CreditType => 7 case Ping => 8
  }

  function FrameTypeOf(c: nat): Option<FrameType> {
    if c == 1 then Some(LinkHello) else if c == 2 then Some(LsaType) else if c == 3 then Some(DigestType)
    else if c == 4 then Some(DigestReqType) else if c == 5 then Some(ForwardType) else if c == 6 then Some(CircuitType)
    else if c == 7 then Some(CreditType) else if c == 8 then Some(Ping) else None
  }

  function ChannelCode(c: Channel): (n: byte)
    ensures n <= 6 && ChannelOf(n) == Some(c)
  {
    match c
    case Control => 0 case Rpc => 1 case PubSubP0 => 2 case PubSubP1 => 3 case PubSubP2 => 4 case PubSubP3 => 5 case Tunnel => 6
  }

  function ChannelOf(n: byte): Option<Channel> {
    if n == 0 then Some(Control) else if n == 1 then Some(Rpc) else if n == 2 then Some(PubSubP0) else if n == 3 then Some(PubSubP1)
    else if n == 4 then Some(PubSubP2) else if n == 5 then Some(PubSubP3) else if n == 6 then Some(Tunnel) else None
  }

  function FrameHeader(f: WireFrame): (r: seq<byte>)
    ensures |r| == HEADER_LEN
  {
    [FRAME_VERSION * 16 + FrameTypeCode(f.frameType), ChannelCode(f.channel), 0, 0] + BigEndian(|f.payload|, 4)
  }

  function EncodeFrame(f: WireFrame): Result<seq<byte>, FrameError> {
    if |f.payload| > MAX_PAYLOAD_LEN then Err(FrameTooLarge(|f.payload|)) else Ok(FrameHeader(f) + f.payload)
  }

  /** A complete frame and the bytes behind it, or a need for more bytes. */
  datatype Decoded = Complete(frame: WireFrame, rest: seq<byte>) | Incomplete

  function DecodeFrame(source: seq<byte>): Result<Decoded, FrameError> {
    if |source| < HEADER_LEN then Ok(Incomplete)
    else if source[0] / 16 != FRAME_VERSION then Err(BadVersion(source[0] / 16))
    else if FrameTypeOf(source[0] % 16).None? then Err(UnknownFrameType(source[0] % 16))
    else if ChannelOf(source[1]).None? then Err(UnknownChannel(source[1]))
    else if source[2] != 0 then Err(BadFlags(source[2]))
    else if source[3] != 0 then Err(NonZeroReserved(source[3]))
    else
      var length := FromBigEndian(source[4..8]);
      if length > MAX_PAYLOAD_LEN then Err(FrameTooLarge(length))
      else if |source| < HEADER_LEN + length then Ok(Incomplete)
      else Ok(Complete(WireFrame(FrameTypeOf(source[0] % 16).value, ChannelOf(source[1]).value, source[HEADER_LEN..HEADER_LEN + length]),
                       source[HEADER_LEN + length..]))
  }

  // ------------------------------------------------------------ streams

  predicate Encodable(f: WireFrame) {
    |f.payload| <= MAX_PAYLOAD_LEN
  }

  ghost predicate AllEncodable(fs: seq<WireFrame>) {
    forall f :: f in fs ==> Encodable(f)
  }

  function Encoded(f: WireFrame): seq<byte> {
    FrameHeader(f) + f.payload
  }

  function Stream(fs: seq<WireFrame>): seq<byte> {
    if fs == [] then [] else Encoded(fs[0]) + Stream(fs[1..])
  }

  ghost predicate IsPrefix(a: seq<byte>, b: seq<byte>) {
    |a| <= |b| && a == b[..|a|]
  }

  /** A frame's own header is accepted, and names its length. */
  lemma DecodeOwnHeader(f: WireFrame, buffer: seq<byte>)
    requires Encodable(f) && |buffer| >= HEADER_LEN && buffer[..HEADER_LEN] == FrameHeader(f)
    ensures DecodeFrame(buffer)
         == if |buffer| < HEADER_LEN + |f.payload| then Ok(Incomplete)
            else Ok(Complete(f.(payload := buffer[HEADER_LEN..HEADER_LEN + |f.payload|]), buffer[HEADER_LEN + |f.payload|..]))
  {
    var h := FrameHeader(f);
    assert buffer[0] == h[0] && buffer[1] == h[1] && buffer[2] == h[2] && buffer[3] == h[3];
    assert buffer[4..8] == buffer[..HEADER_LEN][4..8] == BigEndian(|f.payload|, 4);
    Widths();
    BigEndianRoundTrip(|f.payload|, 4);
  }

  /** The header of a frame of this type, channel and length starts the bytes. */
  ghost predicate StartsFrame(bytes: seq<byte>, f: WireFrame) {
    Encodable(f) && |bytes| >= HEADER_LEN && bytes[..HEADER_LEN] == FrameHeader(f)
  }

  lemma CodesAreExact(c: nat, n: byte)
    ensures FrameTypeOf(c).Some? ==> FrameTypeCode(FrameTypeOf(c).value) == c
    ensures ChannelOf(n).Some? ==> ChannelCode(ChannelOf(n).value) == n
  {
  }

  /** A header the decoder has no quarrel with is that of a frame. */
  lemma AcceptedHeader(bytes: seq<byte>, f: WireFrame)
    requires |bytes| >= HEADER_LEN && bytes[0] / 16 == FRAME_VERSION && bytes[2] == 0 && bytes[3] == 0
    requires FrameTypeOf(bytes[0] % 16) == Some(f.frameType) && ChannelOf(bytes[1]) == Some(f.channel)
    requires FromBigEndian(bytes[4..8]) == |f.payload| <= MAX_PAYLOAD_LEN
    ensures StartsFrame(bytes, f)
  {
    CodesAreExact(bytes[0] % 16, bytes[1]);
    FromBigEndianRoundTrip(bytes[4..8]);
    var h := FrameHeader(f);
    assert h[0] == bytes[0] && h[1] == bytes[1] && h[2] == bytes[2] && h[3] == bytes[3];
    assert bytes[..HEADER_LEN] == bytes[..4] + bytes[4..8] && bytes[..4] == [bytes[0], bytes[1], bytes[2], bytes[3]];
  }

  function Blank(n: nat): (r: seq<byte>)
    ensures |r| == n
  {
    seq(n, _ => 0)
  }

  /**
   * The decoder yields exactly what was encoded, waits exactly while a header is
   * incomplete or its frame is, and fails exactly on bytes no frame starts with.
   */
  lemma DecodesExactly(bytes: seq<byte>)
    ensures match DecodeFrame(bytes)
            case Ok(Complete(f, rest)) => Encodable(f) && bytes == Encoded(f) + rest
            case Ok(Incomplete) => |bytes| < HEADER_LEN || exists f :: StartsFrame(bytes, f) && |bytes| < |Encoded(f)|
            case Err(_) => |bytes| >= HEADER_LEN && forall f :: !StartsFrame(bytes, f)
  {
    var r := DecodeFrame(bytes);
    if r.Err? {
      forall f ensures !StartsFrame(bytes, f) {
        if StartsFrame(bytes, f) {
          DecodeOwnHeader(f, bytes);
        }
      }
    } else if |bytes| >= HEADER_LEN {
      var n := FromBigEndian(bytes[4..8]);
      var payload := if r.value.Complete? then r.value.frame.payload else Blank(n);
      var f := WireFrame(FrameTypeOf(bytes[0] % 16).value, ChannelOf(bytes[1]).value, payload);
      AcceptedHeader(bytes, f);
      if r.value.Complete? {
        assert bytes == bytes[..HEADER_LEN] + bytes[HEADER_LEN..HEADER_LEN + n] + bytes[HEADER_LEN + n..];
      }
    }
  }

  /** How a frame and what follows it lie in a prefix of the stream. */
  lemma OwnPrefix(f: WireFrame, tail: seq<byte>, buffer: seq<byte>)
    requires IsPrefix(buffer, Encoded(f) + tail) && |buffer| >= HEADER_LEN
    ensures buffer[..HEADER_LEN] == FrameHeader(f)
    ensures |Encoded(f)| <= |buffer| ==>
              && buffer[HEADER_LEN..|Encoded(f)|] == f.payload && buffer[..|Encoded(f)|] == Encoded(f)
              && IsPrefix(buffer[|Encoded(f)|..], tail)
  {
    var whole := Encoded(f) + tail;
    Cut(FrameHeader(f), f.payload, tail);
    assert buffer == whole[..|buffer|];
    assert whole[..HEADER_LEN] == buffer[..HEADER_LEN];
    if |Encoded(f)| <= |buffer| {
      assert buffer[HEADER_LEN..|Encoded(f)|] == whole[HEADER_LEN..|Encoded(f)|];
      assert buffer[..|Encoded(f)|] == whole[..|Encoded(f)|];
      assert buffer[|Encoded(f)|..] == whole[|Encoded(f)|..][..|buffer| - |Encoded(f)|];
    }
  }

  /** On any prefix of a stream of frames, decoding yields the first frame as soon as it is all there, and never fails. */
  lemma DecodeOnPrefix(fs: seq<WireFrame>, buffer: seq<byte>)
    requires AllEncodable(fs) && IsPrefix(buffer, Stream(fs))
    ensures if fs != [] && |Encoded(fs[0])| <= |buffer|
            then && DecodeFrame(buffer) == Ok(Complete(fs[0], buffer[|Encoded(fs[0])|..]))
                 && buffer[..|Encoded(fs[0])|] == Encoded(fs[0]) && IsPrefix(buffer[|Encoded(fs[0])|..], Stream(fs[1..]))
            else DecodeFrame(buffer) == Ok(Incomplete)
  {
    if fs != [] && |buffer| >= HEADER_LEN {
      var f := fs[0];
      assert Encodable(f);
      OwnPrefix(f, Stream(fs[1..]), buffer);
      DecodeOwnHeader(f, buffer);
      assert |Encoded(f)| <= |buffer| ==> f.(payload := buffer[HEADER_LEN..|Encoded(f)|]) == f;
    }
  }

  datatype Drained = Drained(frames: seq<WireFrame>, rest: seq<byte>, error: Option<FrameError>)

  /** Decodes frames until the buffer runs short or turns out malformed. */
  function Drain(buffer: seq<byte>): Drained
    decreases |buffer|
  {
    var r := DecodeFrame(buffer);
    if r.Err? then Drained([], buffer, Some(r.error))
    else if r.value.Incomplete? then Drained([], buffer, None)
    else
      var more := Drain(r.value.rest);
      more.(frames := [r.value.frame] + more.frames)
  }

  /** The reader loop: append a chunk, drain, and go on with what is left. */
  function Feed(buffer: seq<byte>, chunks: seq<seq<byte>>): Drained
    decreases |chunks|
  {
    var now := Drain(buffer);
    if chunks == [] || now.error.Some? then now
    else
      var more := Feed(now.rest + chunks[0], chunks[1..]);
      more.(frames := now.frames + more.frames)
  }

  function Joined(chunks: seq<seq<byte>>): seq<byte> {
    if chunks == [] then [] else chunks[0] + Joined(chunks[1..])
  }

  lemma StreamTakes(fs: seq<WireFrame>, m: nat)
    requires fs != [] && m < |fs|
    ensures fs[..m + 1] == [fs[0]] + fs[1..][..m]
    ensures Stream(fs[..m + 1]) == Encoded(fs[0]) + Stream(fs[1..][..m])
  {
    assert fs[..m + 1][1..] == fs[1..][..m];
  }

  lemma Regroup(a: seq<byte>, b: seq<byte>, c: seq<byte>, rest: seq<byte>, buffer: seq<byte>)
    requires b + c == rest && |a| <= |buffer| && buffer[..|a|] == a && rest == buffer[|a|..]
    ensures (a + b) + c == buffer
  {
    assert (a + b) + c == a + rest;
  }

  /** Draining a prefix takes off whole frames, in order, without error. */
  lemma {:induction false} DrainOnPrefix(fs: seq<WireFrame>, buffer: seq<byte>) returns (n: nat)
    requires AllEncodable(fs) && IsPrefix(buffer, Stream(fs))
    ensures n <= |fs|
    ensures var d := Drain(buffer); d.error.None? && d.frames == fs[..n] && Stream(fs[..n]) + d.rest == buffer
    ensures buffer == Stream(fs) ==> n == |fs|
    decreases |fs|
  {
    DecodeOnPrefix(fs, buffer);
    if fs != [] && |Encoded(fs[0])| <= |buffer| {
      var rest := buffer[|Encoded(fs[0])|..];
      var m := DrainOnPrefix(fs[1..], rest);
      n := m + 1;
      StreamTakes(fs, m);
      Regroup(Encoded(fs[0]), Stream(fs[1..][..m]), Drain(rest).rest, rest, buffer);
    } else {
      n := 0;
    }
  }

  lemma {:induction false} StreamAdds(a: seq<WireFrame>, b: seq<WireFrame>)
    ensures Stream(a + b) == Stream(a) + Stream(b)
  {
    FirstOfSum(a, b);
    if a != [] {
      StreamAdds(a[1..], b);
      Associates(Encoded(a[0]), Stream(a[1..]), Stream(b));
    }
  }

  lemma StreamSplits(fs: seq<WireFrame>, n: nat)
    requires n <= |fs|
    ensures Stream(fs) == Stream(fs[..n]) + Stream(fs[n..])
  {
    assert fs == fs[..n] + fs[n..];
    StreamAdds(fs[..n], fs[n..]);
  }

  lemma NextBuffer(head: seq<byte>, rest: seq<byte>, chunk: seq<byte>, tail: seq<byte>, after: seq<byte>)
    requires (head + rest) + (chunk + tail) == head + after
    ensures (rest + chunk) + tail == after
  {
    assert (rest + chunk) + tail == ((head + rest) + (chunk + tail))[|head|..];
    assert after == (head + after)[|head|..];
  }

  lemma {:induction false} FeedDecodes(fs: seq<WireFrame>, buffer: seq<byte>, chunks: seq<seq<byte>>)
    requires AllEncodable(fs) && buffer + Joined(chunks) == Stream(fs)
    ensures Feed(buffer, chunks) == Drained(fs, [], None)
    decreases |chunks|
  {
    assert IsPrefix(buffer, Stream(fs));
    var n := DrainOnPrefix(fs, buffer);
    var d := Drain(buffer);
    StreamSplits(fs, n);
    if chunks == [] {
      assert buffer == Stream(fs) && fs[..n] == fs;
      assert |d.rest| == 0;
    } else {
      NextBuffer(Stream(fs[..n]), d.rest, chunks[0], Joined(chunks[1..]), Stream(fs[n..]));
      FeedDecodes(fs[n..], d.rest + chunks[0], chunks[1..]);
      assert fs == fs[..n] + fs[n..];
    }
  }

  /** What the encoder writes for a list of frames: it stops at the first one that is too large. */
  function EncodeAll(fs: seq<WireFrame>): Result<seq<byte>, FrameError> {
    if fs == [] then Ok([])
    else
      var first := EncodeFrame(fs[0]);
      if first.Err? then first
      else
        var rest := EncodeAll(fs[1..]);
        if rest.Err? then rest else Ok(first.value + rest.value)
  }

  lemma {:induction false} EncodesStream(fs: seq<WireFrame>)
    ensures EncodeAll(fs).Ok? <==> AllEncodable(fs)
    ensures EncodeAll(fs).Ok? ==> EncodeAll(fs).value == Stream(fs)
  {
    if fs != [] {
      EncodesStream(fs[1..]);
      assert forall f :: f in fs <==> f == fs[0] || f in fs[1..];
      assert AllEncodable(fs) <==> Encodable(fs[0]) && AllEncodable(fs[1..]);
    }
  }

  /** However the encoding of a list of frames is cut into chunks, the reader yields exactly those frames, in order. */
  lemma StreamingDecodes(fs: seq<WireFrame>, chunks: seq<seq<byte>>)
    requires EncodeAll(fs) == Ok(Joined(chunks))
    ensures Feed([], chunks) == Drained(fs, [], None)
  {
    EncodesStream(fs);
    assert [] + Joined(chunks) == Joined(chunks);
    FeedDecodes(fs, [], chunks);
  }
}
