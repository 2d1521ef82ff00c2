/** The incremental frame decoder: a buffer that chunks are appended to and frames are taken from. */
module FrameReader {
  import opened MeshTypes
  import opened Bytes
  import opened Packets
  import opened Frames

  class Reader {
    var buffer: seq<byte>

    constructor ()
      ensures buffer == []
    {
      buffer := [];
    }

    method Append(chunk: seq<byte>)
      modifies this
      ensures buffer == old(buffer) + chunk
    {
      buffer := buffer + chunk;
    }

    /** Takes one frame off the front, asks for more bytes, or reports a malformed header and leaves the buffer alone. */
    method Decode() returns (r: Result<Option<WireFrame>, FrameError>)
      modifies this
      ensures match DecodeFrame(old(buffer))
              case Err(e) => r == Err(e) && buffer == old(buffer)
              case Ok(Incomplete) => r == Ok(None) && buffer == old(buffer)
              case Ok(Complete(frame, rest)) => r == Ok(Some(frame)) && buffer == rest && |buffer| < |old(buffer)|
    {
      if |buffer| < HEADER_LEN {
        return Ok(None);
      }
      var version := buffer[0] / 16;
      if version != FRAME_VERSION {
        return Err(BadVersion(version));
      }
      var frameType := FrameTypeOf(buffer[0] % 16);
      if frameType.None? {
        return Err(UnknownFrameType(buffer[0] % 16));
      }
      var channel := ChannelOf(buffer[1]);
      if channel.None? {
        return Err(UnknownChannel(buffer[1]));
      }
      if buffer[2] != 0 {
        return Err(BadFlags(buffer[2]));
      }
      if buffer[3] != 0 {
        return Err(NonZeroReserved(buffer[3]));
      }
      var length := FromBigEndian(buffer[4..8]);
      if length > MAX_PAYLOAD_LEN {
        return Err(FrameTooLarge(length));
      }
      var end := HEADER_LEN + length;
      if |buffer| < end {
        return Ok(None);
      }
      var payload := buffer[HEADER_LEN..end];
      buffer := buffer[end..];
      return Ok(Some(WireFrame(frameType.value, channel.value, payload)));
    }

    /** Decodes until the buffer runs short or turns out malformed. */
    method DecodeAll() returns (frames: seq<WireFrame>, error: Option<FrameError>)
      modifies this
      ensures Drained(frames, buffer, error) == Drain(old(buffer))
    {
      frames, error := [], None;
      var more := true;
      while more
        invariant more ==> error.None? && Drain(old(buffer)) == Drain(buffer).(frames := frames + Drain(buffer).frames)
        invariant !more ==> Drained(frames, buffer, error) == Drain(old(buffer))
        decreases more, |buffer|
      {
        ghost var before, taken := buffer, frames;
        var r := Decode();
        match r
        case Err(e) =>
          error, more := Some(e), false;
          assert taken + [] == taken;
        case Ok(None) =>
          more := false;
          assert taken + [] == taken;
        case Ok(Some(frame)) =>
          frames := frames + [frame];
          assert Drain(before).frames == [frame] + Drain(buffer).frames;
          assert taken + ([frame] + Drain(buffer).frames) == frames + Drain(buffer).frames;
      }
    }

    /** Reads a whole stream of frames, chunk by chunk. */
    method ReadAll(chunks: seq<seq<byte>>, ghost fs: seq<WireFrame>) returns (frames: seq<WireFrame>, error: Option<FrameError>)
      requires buffer == [] && EncodeAll(fs) == Ok(Joined(chunks))
      modifies this
      ensures frames == fs && error == None && buffer == []
    {
      StreamingDecodes(fs, chunks);
      frames, error := DecodeAll();
      var i := 0;
      while i < |chunks| && error.None?
        invariant 0 <= i <= |chunks|
        invariant Progress(frames, buffer, error, chunks[i..]) == Drained(fs, [], None)
      {
        ghost var before, earlier := frames, buffer;
        Append(chunks[i]);
        var more, e := DecodeAll();
        frames, error := frames + more, e;
        assert chunks[i..][0] == chunks[i] && chunks[i..][1..] == chunks[i + 1..];
        ProgressStep(before, earlier, chunks[i], chunks[i + 1..], Drained(more, buffer, e));
        i := i + 1;
      }
    }
  }

  /** What the reader will end up with, given what it has and the chunks to come. */
  ghost function Progress(frames: seq<WireFrame>, rest: seq<byte>, error: Option<FrameError>, chunks: seq<seq<byte>>): Drained {
    if chunks == [] || error.Some? then Drained(frames, rest, error)
    else var more := Feed(rest + chunks[0], chunks[1..]); more.(frames := frames + more.frames)
  }

  lemma ProgressStep(frames: seq<WireFrame>, rest: seq<byte>, chunk: seq<byte>, chunks: seq<seq<byte>>, d: Drained)
    requires d == Drain(rest + chunk)
    ensures Progress(frames, rest, None, [chunk] + chunks) == Progress(frames + d.frames, d.rest, d.error, chunks)
  {
    assert ([chunk] + chunks)[1..] == chunks;
    if chunks != [] && d.error.None? {
      var more := Feed(d.rest + chunks[0], chunks[1..]);
      assert frames + (d.frames + more.frames) == (frames + d.frames) + more.frames;
    }
  }
}
