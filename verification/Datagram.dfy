/** Datagrams: flag classification, size and codec (src/protocol/datagram.rs). */
module Datagrams {
  import opened Base
  import opened Sequence24
  import opened Wire
  import opened Ack
  import opened Frames

  const HEADER_SIZE: nat := 4

  /** The flag bytes a session writes. */
  const FLAGS_ACK: u8 := 0xC0
  const FLAGS_NACK: u8 := 0xA0
  const FLAGS_CONTINUOUS: u8 := 0x88
  const FLAGS_HAS_B_AND_AS: u8 := 0x84

  datatype Kind = DataKind | AckKind | NackKind

  datatype Payload = FramesPayload(frames: seq<Frame>) | AckPayload(acks: seq<Range>) | NackPayload(nacks: seq<Range>)
  {
    function KindOf(): Kind {
      match this
      case FramesPayload(_) => DataKind
      case AckPayload(_) => AckKind
      case NackPayload(_) => NackKind
    }
  }

  datatype Datagram = Datagram(flags: u8, sequence: Seq24, payload: Payload)

  /** Named flags occupy the top six bits; the rest of the byte is dropped. */
  function Truncate(raw: u8): u8 { raw - raw % 4 }

  function ClassifyFlags(raw: u8): Result<Kind, DecodeError> {
    if raw < 0x80 then Err(InvalidDatagramFlags)
    else if raw == 0xC0 || raw == 0xD0 then Ok(AckKind)
    else if raw == 0xA0 then Ok(NackKind)
    else Ok(DataKind)
  }

  function FramesSize(frames: seq<Frame>): nat {
    if frames == [] then 0 else FrameSize(frames[0]) + FramesSize(frames[1..])
  }

  function DatagramSize(d: Datagram): nat {
    match d.payload
    case FramesPayload(frames) => HEADER_SIZE + FramesSize(frames)
    case AckPayload(ranges) => 1 + PayloadSize(ranges)
    case NackPayload(ranges) => 1 + PayloadSize(ranges)
  }

  lemma {:induction false} FramesSizeConcat(a: seq<Frame>, b: seq<Frame>)
    ensures FramesSize(a + b) == FramesSize(a) + FramesSize(b)
  {
    if a == [] {
      assert a + b == b;
    } else {
      assert (a + b)[1..] == a[1..] + b;
      FramesSizeConcat(a[1..], b);
    }
  }

  // ----- encoding -----

  function FramesFault(frames: seq<Frame>): Option<EncodeError> {
    if frames == [] then None
    else if EncodeFault(frames[0]).Some? then EncodeFault(frames[0])
    else FramesFault(frames[1..])
  }

  function DatagramFault(d: Datagram): Option<EncodeError> {
    if ClassifyFlags(d.flags) != Ok(d.payload.KindOf()) then Some(BadDatagramFlags)
    else match d.payload
      case FramesPayload(frames) => FramesFault(frames)
      case AckPayload(ranges) => if |AllRecords(ranges)| > MAX_ACK_SEQUENCES then Some(AckRecordOverflow) else None
      case NackPayload(ranges) => if |AllRecords(ranges)| > MAX_ACK_SEQUENCES then Some(AckRecordOverflow) else None
  }

  function EncodeFrames(frames: seq<Frame>): (s: Bytes)
    requires FramesFault(frames).None?
    ensures |s| == FramesSize(frames)
  {
    if frames == [] then [] else EncodeFrame(frames[0]) + EncodeFrames(frames[1..])
  }

  /** The encoding has exactly the announced size. */
  function EncodeDatagram(d: Datagram): (s: Bytes)
    requires DatagramFault(d).None?
    ensures |s| == DatagramSize(d)
  {
    match d.payload
    case FramesPayload(frames) => [d.flags] + (EncodeU24(d.sequence) + EncodeFrames(frames))
    case AckPayload(ranges) => [d.flags] + EncodePayload(ranges)
    case NackPayload(ranges) => [d.flags] + EncodePayload(ranges)
  }

  // ----- decoding -----

  function DecodeFrames(src: Bytes): Result<seq<Frame>, DecodeError>
    decreases |src|
  {
    if src == [] then Ok([])
    else match DecodeFrame(src)
      case Err(e) => Err(e)
      case Ok(first) =>
        match DecodeFrames(first.rest)
        case Err(e) => Err(e)
        case Ok(others) => Ok([first.value] + others)
  }

  /** Control datagrams carry no number and decode with number 0; bytes after their last
      record are ignored, while a data datagram must be frames to the end. */
  function DecodeDatagram(src: Bytes): Result<Datagram, DecodeError> {
    if src == [] then Err(UnexpectedEof)
    else
      var flags := Truncate(src[0]);
      match ClassifyFlags(src[0])
      case Err(e) => Err(e)
      case Ok(DataKind) => (
        match DecodeU24(src[1..])
        case Err(e) => Err(e)
        case Ok(number) =>
          match DecodeFrames(number.rest)
          case Err(e) => Err(e)
          case Ok(frames) => Ok(Datagram(flags, number.value, FramesPayload(frames))))
      case Ok(AckKind) => (
        match DecodePayload(src[1..])
        case Err(e) => Err(e)
        case Ok(p) => Ok(Datagram(flags, 0, AckPayload(p.value))))
      case Ok(NackKind) => (
        match DecodePayload(src[1..])
        case Err(e) => Err(e)
        case Ok(p) => Ok(Datagram(flags, 0, NackPayload(p.value))))
  }

  // ----- round trips -----

  /** A run of well-formed frames decodes to itself exactly when each is acceptable, and is
      refused as a whole otherwise. */
  lemma {:induction false} FramesRoundTrip(frames: seq<Frame>)
    requires FramesFault(frames).None?
    requires forall f <- frames :: WellFormed(f)
    ensures var r := DecodeFrames(EncodeFrames(frames));
            if forall f <- frames :: Acceptable(f) then r == Ok(frames) else r.Err?
  {
    if frames != [] {
      var tail := EncodeFrames(frames[1..]);
      FrameRoundTrip(frames[0], tail);
      FramesRoundTrip(frames[1..]);
      assert frames == [frames[0]] + frames[1..];
      assert (forall f <- frames :: Acceptable(f)) <==>
             Acceptable(frames[0]) && (forall f <- frames[1..] :: Acceptable(f)) by {
        if Acceptable(frames[0]) && (forall f <- frames[1..] :: Acceptable(f)) {
          forall f <- frames ensures Acceptable(f) { if f != frames[0] { assert f in frames[1..]; } }
        }
      }
    }
  }

  /** A data datagram that encodes is read back unchanged or not at all. */
  lemma DataRoundTrip(d: Datagram)
    requires d.payload.FramesPayload? && DatagramFault(d).None? && Truncate(d.flags) == d.flags
    requires forall f <- d.payload.frames :: WellFormed(f)
    ensures var r := DecodeDatagram(EncodeDatagram(d));
            if forall f <- d.payload.frames :: Acceptable(f) then r == Ok(d) else r.Err?
  {
    var body := EncodeU24(d.sequence) + EncodeFrames(d.payload.frames);
    assert ([d.flags] + body)[1..] == body;
    U24RoundTrip(d.sequence, EncodeFrames(d.payload.frames));
    FramesRoundTrip(d.payload.frames);
  }

  lemma AckRoundTrip(ranges: seq<Range>)
    requires |AllRecords(ranges)| <= MAX_ACK_SEQUENCES
    ensures var d := Datagram(FLAGS_ACK, 0, AckPayload(ranges));
            DatagramFault(d).None? && DecodeDatagram(EncodeDatagram(d)) == Ok(Datagram(FLAGS_ACK, 0, AckPayload(AllRecords(ranges))))
  {
    ControlBody(FLAGS_ACK, ranges);
  }

  lemma NackRoundTrip(ranges: seq<Range>)
    requires |AllRecords(ranges)| <= MAX_ACK_SEQUENCES
    ensures var d := Datagram(FLAGS_NACK, 0, NackPayload(ranges));
            DatagramFault(d).None? && DecodeDatagram(EncodeDatagram(d)) == Ok(Datagram(FLAGS_NACK, 0, NackPayload(AllRecords(ranges))))
  {
    ControlBody(FLAGS_NACK, ranges);
  }

  lemma ControlBody(flags: u8, ranges: seq<Range>)
    requires |AllRecords(ranges)| <= MAX_ACK_SEQUENCES
    ensures var s := [flags] + EncodePayload(ranges);
            s[0] == flags && s[1..] == EncodePayload(ranges) && DecodePayload(s[1..]) == Ok(Parsed(AllRecords(ranges), []))
  {
    var body := EncodePayload(ranges);
    assert ([flags] + body)[1..] == body && body + [] == body;
    PayloadRoundTrip(ranges, []);
  }

  /** A control datagram is read back with its ranges cut into records that name the same numbers. */
  lemma ControlRoundTrip(flags: u8, ranges: seq<Range>, isAck: bool)
    requires flags == if isAck then FLAGS_ACK else FLAGS_NACK
    requires |AllRecords(ranges)| <= MAX_ACK_SEQUENCES
    ensures var d := Datagram(flags, 0, if isAck then AckPayload(ranges) else NackPayload(ranges));
            var e := Datagram(flags, 0, if isAck then AckPayload(AllRecords(ranges)) else NackPayload(AllRecords(ranges)));
            DatagramFault(d).None? && DecodeDatagram(EncodeDatagram(d)) == Ok(e)
    ensures forall s: Seq24 :: Covers(AllRecords(ranges), s) <==> Covers(ranges, s)
  {
    if isAck { AckRoundTrip(ranges); } else { NackRoundTrip(ranges); }
    forall s: Seq24 ensures Covers(AllRecords(ranges), s) <==> Covers(ranges, s) { AllRecordsCover(ranges, s); }
  }

  // ----- the codec in place -----

  lemma {:induction false} FramesFaultAt(frames: seq<Frame>, i: nat)
    requires i <= |frames| && FramesFault(frames[..i]).None?
    ensures FramesFault(frames) == FramesFault(frames[i..])
  {
    if i == 0 {
      assert frames[0..] == frames;
    } else {
      assert frames[..i][1..] == frames[1..][..i - 1];
      FramesFaultAt(frames[1..], i - 1);
      assert frames[1..][i - 1..] == frames[i..];
    }
  }

  lemma {:induction false} EncodeFramesConcat(a: seq<Frame>, b: seq<Frame>)
    requires FramesFault(a).None? && FramesFault(b).None?
    ensures FramesFault(a + b).None? && EncodeFrames(a + b) == EncodeFrames(a) + EncodeFrames(b)
  {
    if a == [] {
      assert a + b == b;
    } else {
      assert (a + b)[1..] == a[1..] + b;
      EncodeFramesConcat(a[1..], b);
      Assoc(EncodeFrame(a[0]), EncodeFrames(a[1..]), EncodeFrames(b));
    }
  }

  method PutFrames(frames: seq<Frame>, dst: Buffer) returns (r: Option<EncodeError>)
    modifies dst
    ensures r == FramesFault(frames)
    ensures r.None? ==> dst.bytes == old(dst.bytes) + EncodeFrames(frames)
    ensures old(dst.bytes) <= dst.bytes
  {
    for i := 0 to |frames|
      invariant FramesFault(frames[..i]).None?
      invariant dst.bytes == old(dst.bytes) + EncodeFrames(frames[..i])
    {
      FramesFaultAt(frames, i);
      r := PutFrame(frames[i], dst);
      if r.Some? { return; }
      assert frames[..i + 1] == frames[..i] + [frames[i]];
      assert EncodeFrames([frames[i]]) == EncodeFrame(frames[i]);
      EncodeFramesConcat(frames[..i], [frames[i]]);
      Assoc(old(dst.bytes), EncodeFrames(frames[..i]), EncodeFrame(frames[i]));
    }
    assert frames[..|frames|] == frames;
    r := None;
  }

  /** Refuses flags that do not name the payload, then appends header and contents. */
  method PutDatagram(d: Datagram, dst: Buffer) returns (r: Option<EncodeError>)
    modifies dst
    ensures r == DatagramFault(d)
    ensures r.None? ==> dst.bytes == old(dst.bytes) + EncodeDatagram(d)
    ensures old(dst.bytes) <= dst.bytes
  {
    if ClassifyFlags(d.flags) != Ok(d.payload.KindOf()) { return Some(BadDatagramFlags); }
    dst.Put([d.flags]);
    match d.payload {
      case FramesPayload(frames) =>
        dst.Put(EncodeU24(d.sequence));
        r := PutFrames(frames, dst);
        if r.None? {
          Assoc(old(dst.bytes) + [d.flags], EncodeU24(d.sequence), EncodeFrames(frames));
          Assoc(old(dst.bytes), [d.flags], EncodeU24(d.sequence) + EncodeFrames(frames));
        }
      case AckPayload(ranges) =>
        r := PutPayload(ranges, dst);
        if r.None? { Assoc(old(dst.bytes), [d.flags], EncodePayload(ranges)); }
      case NackPayload(ranges) =>
        r := PutPayload(ranges, dst);
        if r.None? { Assoc(old(dst.bytes), [d.flags], EncodePayload(ranges)); }
    }
  }

  method TakeFrames(src: Buffer) returns (r: Result<seq<Frame>, DecodeError>)
    modifies src
    ensures r == DecodeFrames(old(src.bytes))
  {
    var frames: seq<Frame> := [];
    ghost var whole := src.bytes;
    ReadNone(whole);
    while src.bytes != []
      invariant ReadSoFar(whole, frames, src.bytes)
      decreases |src.bytes|
    {
      ghost var before := src.bytes;
      var frame := TakeFrame(src);
      ReadMore(whole, frames, before);
      if frame.Err? { return Err(frame.error); }
      frames := frames + [frame.value];
    }
    assert frames + [] == frames;
    r := Ok(frames);
  }

  /** After `done` frames have been read, `rest` is still to be read. */
  ghost predicate ReadSoFar(whole: Bytes, done: seq<Frame>, rest: Bytes) {
    DecodeFrames(whole) == match DecodeFrames(rest) case Err(e) => Err(e) case Ok(fs) => Ok(done + fs)
  }

  lemma ReadNone(whole: Bytes)
    ensures ReadSoFar(whole, [], whole)
  {
    if DecodeFrames(whole).Ok? { assert [] + DecodeFrames(whole).value == DecodeFrames(whole).value; }
  }

  lemma ReadMore(whole: Bytes, done: seq<Frame>, rest: Bytes)
    requires ReadSoFar(whole, done, rest) && rest != []
    ensures var d := DecodeFrame(rest);
            && (d.Err? ==> DecodeFrames(whole) == Err(d.error))
            && (d.Ok? ==> |d.value.rest| < |rest| && ReadSoFar(whole, done + [d.value.value], d.value.rest))
  {
    var d := DecodeFrame(rest);
    if d.Ok? && DecodeFrames(d.value.rest).Ok? {
      AssocFrames(done, d.value.value, DecodeFrames(d.value.rest).value);
    }
  }

  lemma AssocFrames(a: seq<Frame>, f: Frame, c: seq<Frame>)
    ensures a + ([f] + c) == a + [f] + c
  {
  }

  method TakeDatagram(src: Buffer) returns (r: Result<Datagram, DecodeError>)
    modifies src
    ensures r == DecodeDatagram(old(src.bytes))
  {
    var raw := src.TakeU8();
    if raw.Err? { return Err(raw.error); }
    var flags := Truncate(raw.value);
    match ClassifyFlags(raw.value) {
      case Err(e) => return Err(e);
      case Ok(DataKind) =>
        var number := src.TakeU24();
        if number.Err? { return Err(number.error); }
        var frames := TakeFrames(src);
        r := if frames.Err? then Err(frames.error) else Ok(Datagram(flags, number.value, FramesPayload(frames.value)));
      case Ok(AckKind) =>
        var ranges := TakePayload(src);
        r := if ranges.Err? then Err(ranges.error) else Ok(Datagram(flags, 0, AckPayload(ranges.value)));
      case Ok(NackKind) =>
        var ranges := TakePayload(src);
        r := if ranges.Err? then Err(ranges.error) else Ok(Datagram(flags, 0, NackPayload(ranges.value)));
    }
  }
}
