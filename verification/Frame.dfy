/** Reliability classes, frame headers, frames and their codec
    (src/protocol/reliability.rs, src/protocol/frame_header.rs, src/protocol/frame.rs). */
module Frames {
  import opened Base
  import opened Sequence24
  import opened Wire

  const MAX_SPLIT_PARTS: nat := 8192

  // ----- reliability -----

  datatype Reliability =
    | Unreliable
    | UnreliableSequenced
    | Reliable
    | ReliableOrdered
    | ReliableSequenced
    | UnreliableWithAckReceipt
    | ReliableWithAckReceipt
    | ReliableOrderedWithAckReceipt
  {
    predicate IsReliable() {
      !Unreliable? && !UnreliableSequenced? && !UnreliableWithAckReceipt?
    }

    predicate IsOrdered() { ReliableOrdered? || ReliableOrderedWithAckReceipt? }

    predicate IsSequenced() { UnreliableSequenced? || ReliableSequenced? }

    /** Ordered and sequenced frames both carry an ordering index and channel. */
    predicate HasOrdering() { IsOrdered() || IsSequenced() }
  }

  function ReliabilityCode(r: Reliability): (c: u8)
    ensures c < 8
  {
    match r
    case Unreliable => 0
    case UnreliableSequenced => 1
    case Reliable => 2
    case ReliableOrdered => 3
    case ReliableSequenced => 4
    case UnreliableWithAckReceipt => 5
    case ReliableWithAckReceipt => 6
    case ReliableOrderedWithAckReceipt => 7
  }

  function ReliabilityOf(code: u8): Result<Reliability, DecodeError> {
    match code
    case 0 => Ok(Unreliable)
    case 1 => Ok(UnreliableSequenced)
    case 2 => Ok(Reliable)
    case 3 => Ok(ReliableOrdered)
    case 4 => Ok(ReliableSequenced)
    case 5 => Ok(UnreliableWithAckReceipt)
    case 6 => Ok(ReliableWithAckReceipt)
    case 7 => Ok(ReliableOrderedWithAckReceipt)
    case _ => Err(UnknownReliability)
  }

  // ----- frame header: reliability in the top three bits, split flag 0x10, B-and-AS flag 0x04 -----

  datatype FrameHeader = FrameHeader(reliability: Reliability, isSplit: bool, needsBas: bool)

  function HeaderByte(h: FrameHeader): u8 {
    32 * ReliabilityCode(h.reliability) + (if h.isSplit then 16 else 0) + (if h.needsBas then 4 else 0)
  }

  function HeaderOf(raw: u8): Result<FrameHeader, DecodeError> {
    match ReliabilityOf(raw / 32)
    case Err(e) => Err(e)
    case Ok(r) => Ok(FrameHeader(r, raw / 16 % 2 == 1, raw / 4 % 2 == 1))
  }

  /** Every byte reads as some header, and a header survives the trip. */
  lemma HeaderRoundTrip(h: FrameHeader, raw: u8)
    ensures HeaderOf(HeaderByte(h)) == Ok(h)
    ensures HeaderOf(raw).Ok?
  {
    assert ReliabilityOf(ReliabilityCode(h.reliability)) == Ok(h.reliability);
  }

  // ----- frames -----

  datatype SplitInfo = SplitInfo(partCount: u32, partId: u16, partIndex: u32)

  datatype Frame = Frame(
    header: FrameHeader,
    bitLength: u16,
    reliableIndex: Option<Seq24>,
    sequenceIndex: Option<Seq24>,
    orderingIndex: Option<Seq24>,
    orderingChannel: Option<u8>,
    split: Option<SplitInfo>,
    payload: Bytes)

  /** `(len as u16) << 3` keeps only sixteen bits, so lengths are taken modulo 8192. */
  function BitLength(payloadLen: nat): u16 { payloadLen * 8 % 0x1_0000 }

  function PayloadLen(bitLength: u16): nat { (bitLength + 7) / 8 }

  lemma BitLengthTruncates(n: nat)
    ensures PayloadLen(BitLength(n)) == n % 8192
    ensures PayloadLen(BitLength(n)) == n <==> n < 8192
  {
    assert n * 8 % 0x1_0000 == n % 8192 * 8;
  }

  function Overhead(r: Reliability, isSplit: bool): nat {
    3 + (if r.IsReliable() then 3 else 0) + (if r.IsSequenced() then 3 else 0)
    + (if r.HasOrdering() then 4 else 0) + (if isSplit then 10 else 0)
  }

  function FrameSize(f: Frame): nat {
    Overhead(f.header.reliability, f.header.isSplit) + PayloadLen(f.bitLength)
  }

  /** Exactly the optional fields that the header announces are present. */
  predicate WellFormed(f: Frame) {
    var rel := f.header.reliability;
    && (f.reliableIndex.Some? <==> rel.IsReliable())
    && (f.sequenceIndex.Some? <==> rel.IsSequenced())
    && (f.orderingIndex.Some? <==> rel.HasOrdering())
    && (f.orderingChannel.Some? <==> rel.HasOrdering())
    && (f.split.Some? <==> f.header.isSplit)
  }

  /** What the decoder insists on beyond the layout. */
  predicate Acceptable(f: Frame) {
    && PayloadLen(f.bitLength) > 0
    && (f.split.Some? ==> 0 < f.split.value.partCount <= MAX_SPLIT_PARTS
                          && f.split.value.partIndex < f.split.value.partCount)
  }

  // ----- encoding -----

  function EncodeIndex(present: bool, index: Option<Seq24>): Bytes
    requires present ==> index.Some?
  {
    if present then EncodeU24(index.value) else []
  }

  function EncodeOrdering(f: Frame): Bytes
    requires f.header.reliability.HasOrdering() ==> f.orderingIndex.Some? && f.orderingChannel.Some?
  {
    if f.header.reliability.HasOrdering() then EncodeU24(f.orderingIndex.value) + [f.orderingChannel.value] else []
  }

  function EncodeSplit(f: Frame): Bytes
    requires f.header.isSplit ==> f.split.Some?
  {
    if f.header.isSplit then
      EncodeU32(f.split.value.partCount) + EncodeU16(f.split.value.partId) + EncodeU32(f.split.value.partIndex)
    else []
  }

  /** The first thing wrong with a frame, in the order the encoder looks. */
  function EncodeFault(f: Frame): Option<EncodeError> {
    var rel := f.header.reliability;
    if PayloadLen(f.bitLength) != |f.payload| then Some(FrameBitLengthMismatch)
    else if rel.IsReliable() && f.reliableIndex.None? then Some(MissingReliableIndex)
    else if rel.IsSequenced() && f.sequenceIndex.None? then Some(MissingSequenceIndex)
    else if rel.HasOrdering() && f.orderingIndex.None? then Some(MissingOrderingIndex)
    else if rel.HasOrdering() && f.orderingChannel.None? then Some(MissingOrderingChannel)
    else if f.header.isSplit && f.split.None? then Some(MissingSplitIndices)
    else None
  }

  function EncodeFrame(f: Frame): (s: Bytes)
    requires EncodeFault(f).None?
    ensures |s| == FrameSize(f)
  {
    [HeaderByte(f.header)] + EncodeU16(f.bitLength)
    + EncodeIndex(f.header.reliability.IsReliable(), f.reliableIndex)
    + EncodeIndex(f.header.reliability.IsSequenced(), f.sequenceIndex)
    + EncodeOrdering(f) + EncodeSplit(f) + f.payload
  }

  // ----- decoding -----

  function DecodeIndex(present: bool, src: Bytes): Decoded<Option<Seq24>> {
    if !present then Ok(Parsed(None, src))
    else match DecodeU24(src)
      case Err(e) => Err(e)
      case Ok(p) => Ok(Parsed(Some(p.value), p.rest))
  }

  function DecodeOrdering(present: bool, src: Bytes): Decoded<Option<(Seq24, u8)>> {
    if !present then Ok(Parsed(None, src))
    else match DecodeU24(src)
      case Err(e) => Err(e)
      case Ok(index) =>
        match DecodeU8(index.rest)
        case Err(e) => Err(e)
        case Ok(channel) => Ok(Parsed(Some((index.value, channel.value)), channel.rest))
  }

  function DecodeSplit(present: bool, src: Bytes): Decoded<Option<SplitInfo>> {
    if !present then Ok(Parsed(None, src))
    else match DecodeU32(src)
      case Err(e) => Err(e)
      case Ok(count) =>
        if count.value == 0 then Err(SplitCountZero)
        else if count.value > MAX_SPLIT_PARTS then Err(SplitIndexOutOfRange)
        else match DecodeU16(count.rest)
          case Err(e) => Err(e)
          case Ok(id) =>
            match DecodeU32(id.rest)
            case Err(e) => Err(e)
            case Ok(index) =>
              if index.value >= count.value then Err(SplitIndexOutOfRange)
              else Ok(Parsed(Some(SplitInfo(count.value, id.value, index.value)), index.rest))
  }

  function DecodeBody(h: FrameHeader, bitLength: u16, src: Bytes): Decoded<Frame> {
    match DecodeIndex(h.reliability.IsReliable(), src)
    case Err(e) => Err(e)
    case Ok(rel) =>
      match DecodeIndex(h.reliability.IsSequenced(), rel.rest)
      case Err(e) => Err(e)
      case Ok(sq) =>
        match DecodeOrdering(h.reliability.HasOrdering(), sq.rest)
        case Err(e) => Err(e)
        case Ok(ord) =>
          match DecodeSplit(h.isSplit, ord.rest)
          case Err(e) => Err(e)
          case Ok(split) =>
            var n := PayloadLen(bitLength);
            if |split.rest| < n then Err(UnexpectedEof)
            else
              var index := if ord.value.Some? then Some(ord.value.value.0) else None;
              var channel := if ord.value.Some? then Some(ord.value.value.1) else None;
              Ok(Parsed(Frame(h, bitLength, rel.value, sq.value, index, channel, split.value, split.rest[..n]),
                        split.rest[n..]))
  }

  function DecodeFrame(src: Bytes): (r: Decoded<Frame>)
    ensures r.Ok? ==> |r.value.rest| < |src|
  {
    if |src| < 1 then Err(UnexpectedEof)
    else match HeaderOf(src[0])
      case Err(e) => Err(e)
      case Ok(h) =>
        match DecodeU16(src[1..])
        case Err(e) => Err(e)
        case Ok(bits) =>
          if PayloadLen(bits.value) == 0 then Err(InvalidFrameBitLength)
          else DecodeBody(h, bits.value, bits.rest)
  }

  // ----- the round trip, and exactly when it holds -----

  lemma IndexRoundTrip(present: bool, index: Option<Seq24>, tail: Bytes)
    requires present <==> index.Some?
    ensures DecodeIndex(present, EncodeIndex(present, index) + tail) == Ok(Parsed(index, tail))
  {
    if present { U24RoundTrip(index.value, tail); }
    else { assert [] + tail == tail; }
  }

  lemma OrderingRoundTrip(f: Frame, tail: Bytes)
    requires f.orderingIndex.Some? <==> f.header.reliability.HasOrdering()
    requires f.orderingChannel.Some? <==> f.header.reliability.HasOrdering()
    ensures DecodeOrdering(f.header.reliability.HasOrdering(), EncodeOrdering(f) + tail)
         == Ok(Parsed(if f.orderingIndex.Some? then Some((f.orderingIndex.value, f.orderingChannel.value)) else None, tail))
  {
    if f.header.reliability.HasOrdering() {
      var c := [f.orderingChannel.value] + tail;
      assert EncodeOrdering(f) + tail == EncodeU24(f.orderingIndex.value) + c;
      U24RoundTrip(f.orderingIndex.value, c);
      assert c[1..] == tail;
    } else {
      assert [] + tail == tail;
    }
  }

  /** A split field decodes to itself when its numbers are in range and is refused otherwise. */
  lemma SplitRoundTrip(f: Frame, tail: Bytes)
    requires f.split.Some? <==> f.header.isSplit
    ensures var r := DecodeSplit(f.header.isSplit, EncodeSplit(f) + tail);
            if f.split.None? || (0 < f.split.value.partCount <= MAX_SPLIT_PARTS
                                 && f.split.value.partIndex < f.split.value.partCount)
            then r == Ok(Parsed(f.split, tail)) else r.Err?
  {
    if f.header.isSplit {
      var s := f.split.value;
      var c := EncodeU32(s.partIndex) + tail;
      var b := EncodeU16(s.partId) + c;
      assert EncodeSplit(f) + tail == EncodeU32(s.partCount) + b;
      U32RoundTrip(s.partCount, b);
      U16RoundTrip(s.partId, c);
      U32RoundTrip(s.partIndex, tail);
    } else {
      assert [] + tail == tail;
    }
  }

  /** The encoding after the two leading fields, with whatever follows the frame. */
  ghost function Body(f: Frame, tail: Bytes): Bytes
    requires EncodeFault(f).None?
  {
    EncodeIndex(f.header.reliability.IsReliable(), f.reliableIndex)
    + (EncodeIndex(f.header.reliability.IsSequenced(), f.sequenceIndex)
       + (EncodeOrdering(f) + (EncodeSplit(f) + (f.payload + tail))))
  }

  lemma BodyRoundTrip(f: Frame, tail: Bytes)
    requires WellFormed(f) && EncodeFault(f).None? && PayloadLen(f.bitLength) > 0
    ensures var r := DecodeBody(f.header, f.bitLength, Body(f, tail));
            if Acceptable(f) then r == Ok(Parsed(f, tail)) else r.Err?
  {
    var e := f.payload + tail;
    var d := EncodeSplit(f) + e;
    var c := EncodeOrdering(f) + d;
    var b := EncodeIndex(f.header.reliability.IsSequenced(), f.sequenceIndex) + c;
    IndexRoundTrip(f.header.reliability.IsReliable(), f.reliableIndex, b);
    IndexRoundTrip(f.header.reliability.IsSequenced(), f.sequenceIndex, c);
    OrderingRoundTrip(f, d);
    SplitRoundTrip(f, e);
    assert e[..|f.payload|] == f.payload && e[|f.payload|..] == tail;
  }

  /** Moves the bytes after the frame inside the grouping that the decoder follows. */
  lemma Regroup(f: Frame, tail: Bytes)
    requires EncodeFault(f).None?
    ensures EncodeFrame(f) + tail == [HeaderByte(f.header)] + (EncodeU16(f.bitLength) + Body(f, tail))
  {
    var h, bits := [HeaderByte(f.header)], EncodeU16(f.bitLength);
    var i := EncodeIndex(f.header.reliability.IsReliable(), f.reliableIndex);
    var j := EncodeIndex(f.header.reliability.IsSequenced(), f.sequenceIndex);
    var o, s := EncodeOrdering(f), EncodeSplit(f);
    Assoc(h + bits + i + j + o + s, f.payload, tail);
    Assoc(h + bits + i + j + o, s, f.payload + tail);
    Assoc(h + bits + i + j, o, s + (f.payload + tail));
    Assoc(h + bits + i, j, o + (s + (f.payload + tail)));
    Assoc(h + bits, i, j + (o + (s + (f.payload + tail))));
    Assoc(h, bits, Body(f, tail));
  }

  /** A well-formed frame that encodes decodes to itself, leaving what follows it untouched,
      if and only if its payload is nonempty and its split numbers are in range; otherwise
      the decoder refuses it. It is never misread. */
  lemma FrameRoundTrip(f: Frame, tail: Bytes)
    requires WellFormed(f) && EncodeFault(f).None?
    ensures var r := DecodeFrame(EncodeFrame(f) + tail);
            if Acceptable(f) then r == Ok(Parsed(f, tail)) else r.Err?
  {
    var body := Body(f, tail);
    var bits := EncodeU16(f.bitLength) + body;
    Regroup(f, tail);
    assert ([HeaderByte(f.header)] + bits)[1..] == bits;
    HeaderRoundTrip(f.header, 0);
    U16RoundTrip(f.bitLength, body);
    if PayloadLen(f.bitLength) > 0 { BodyRoundTrip(f, tail); }
  }

  /** Whatever the decoder accepts is well formed, within range and encodable again. */
  lemma DecodedFrame(src: Bytes)
    requires DecodeFrame(src).Ok?
    ensures var f := DecodeFrame(src).value.value;
            WellFormed(f) && Acceptable(f) && EncodeFault(f).None?
  {
  }

  // ----- the codec in place -----

  method PutIndex(present: bool, index: Option<Seq24>, missing: EncodeError, dst: Buffer)
    returns (r: Option<EncodeError>)
    modifies dst
    ensures r == if present && index.None? then Some(missing) else None
    ensures r.None? ==> dst.bytes == old(dst.bytes) + EncodeIndex(present, index)
    ensures old(dst.bytes) <= dst.bytes
  {
    if present {
      if index.None? { return Some(missing); }
      dst.Put(EncodeU24(index.value));
    }
    r := None;
  }

  method PutOrdering(f: Frame, dst: Buffer) returns (r: Option<EncodeError>)
    modifies dst
    ensures r == if !f.header.reliability.HasOrdering() then None
                 else if f.orderingIndex.None? then Some(MissingOrderingIndex)
                 else if f.orderingChannel.None? then Some(MissingOrderingChannel) else None
    ensures r.None? ==> dst.bytes == old(dst.bytes) + EncodeOrdering(f)
    ensures old(dst.bytes) <= dst.bytes
  {
    if f.header.reliability.HasOrdering() {
      if f.orderingIndex.None? { return Some(MissingOrderingIndex); }
      dst.Put(EncodeU24(f.orderingIndex.value));
      if f.orderingChannel.None? { return Some(MissingOrderingChannel); }
      dst.Put([f.orderingChannel.value]);
      Assoc(old(dst.bytes), EncodeU24(f.orderingIndex.value), [f.orderingChannel.value]);
    }
    r := None;
  }

  method PutSplit(f: Frame, dst: Buffer) returns (r: Option<EncodeError>)
    modifies dst
    ensures r == if f.header.isSplit && f.split.None? then Some(MissingSplitIndices) else None
    ensures r.None? ==> dst.bytes == old(dst.bytes) + EncodeSplit(f)
    ensures old(dst.bytes) <= dst.bytes
  {
    if f.header.isSplit {
      if f.split.None? { return Some(MissingSplitIndices); }
      var s := f.split.value;
      dst.Put(EncodeU32(s.partCount));
      dst.Put(EncodeU16(s.partId));
      dst.Put(EncodeU32(s.partIndex));
      Assoc(old(dst.bytes), EncodeU32(s.partCount), EncodeU16(s.partId));
      Assoc(old(dst.bytes), EncodeU32(s.partCount) + EncodeU16(s.partId), EncodeU32(s.partIndex));
    }
    r := None;
  }

  /** Appends the encoding, or stops at the first fault having written only the fields before it. */
  method PutFrame(f: Frame, dst: Buffer) returns (r: Option<EncodeError>)
    modifies dst
    ensures r == EncodeFault(f)
    ensures r.None? ==> dst.bytes == old(dst.bytes) + EncodeFrame(f)
    ensures old(dst.bytes) <= dst.bytes
  {
    if PayloadLen(f.bitLength) != |f.payload| { return Some(FrameBitLengthMismatch); }
    ghost var start := dst.bytes;
    var rel := f.header.reliability;
    dst.Put([HeaderByte(f.header)]);
    ghost var done := [HeaderByte(f.header)];
    dst.Put(EncodeU16(f.bitLength));
    Assoc(start, done, EncodeU16(f.bitLength));
    done := done + EncodeU16(f.bitLength);
    r := PutIndex(rel.IsReliable(), f.reliableIndex, MissingReliableIndex, dst);
    if r.Some? { return; }
    Assoc(start, done, EncodeIndex(rel.IsReliable(), f.reliableIndex));
    done := done + EncodeIndex(rel.IsReliable(), f.reliableIndex);
    r := PutIndex(rel.IsSequenced(), f.sequenceIndex, MissingSequenceIndex, dst);
    if r.Some? { return; }
    Assoc(start, done, EncodeIndex(rel.IsSequenced(), f.sequenceIndex));
    done := done + EncodeIndex(rel.IsSequenced(), f.sequenceIndex);
    r := PutOrdering(f, dst);
    if r.Some? { return; }
    Assoc(start, done, EncodeOrdering(f));
    done := done + EncodeOrdering(f);
    r := PutSplit(f, dst);
    if r.Some? { return; }
    Assoc(start, done, EncodeSplit(f));
    done := done + EncodeSplit(f);
    dst.Put(f.payload);
    Assoc(start, done, f.payload);
    r := None;
  }

  method TakeIndex(present: bool, src: Buffer) returns (r: Result<Option<Seq24>, DecodeError>)
    modifies src
    ensures Took(DecodeIndex(present, old(src.bytes)), r, src.bytes)
  {
    if !present { return Ok(None); }
    var t := src.TakeU24();
    r := if t.Err? then Err(t.error) else Ok(Some(t.value));
  }

  method TakeOrdering(present: bool, src: Buffer) returns (r: Result<Option<(Seq24, u8)>, DecodeError>)
    modifies src
    ensures Took(DecodeOrdering(present, old(src.bytes)), r, src.bytes)
  {
    if !present { return Ok(None); }
    var index := src.TakeU24();
    if index.Err? { return Err(index.error); }
    var channel := src.TakeU8();
    r := if channel.Err? then Err(channel.error) else Ok(Some((index.value, channel.value)));
  }

  method TakeSplit(present: bool, src: Buffer) returns (r: Result<Option<SplitInfo>, DecodeError>)
    modifies src
    ensures Took(DecodeSplit(present, old(src.bytes)), r, src.bytes)
  {
    if !present { return Ok(None); }
    var count := src.TakeU32();
    if count.Err? { return Err(count.error); }
    if count.value == 0 { return Err(SplitCountZero); }
    if count.value > MAX_SPLIT_PARTS { return Err(SplitIndexOutOfRange); }
    var id := src.TakeU16();
    if id.Err? { return Err(id.error); }
    var index := src.TakeU32();
    if index.Err? { return Err(index.error); }
    if index.value >= count.value { return Err(SplitIndexOutOfRange); }
    r := Ok(Some(SplitInfo(count.value, id.value, index.value)));
  }

  method TakeBody(h: FrameHeader, bitLength: u16, src: Buffer) returns (r: Result<Frame, DecodeError>)
    modifies src
    ensures Took(DecodeBody(h, bitLength, old(src.bytes)), r, src.bytes)
  {
    var rel := TakeIndex(h.reliability.IsReliable(), src);
    if rel.Err? { return Err(rel.error); }
    var sq := TakeIndex(h.reliability.IsSequenced(), src);
    if sq.Err? { return Err(sq.error); }
    var ord := TakeOrdering(h.reliability.HasOrdering(), src);
    if ord.Err? { return Err(ord.error); }
    var split := TakeSplit(h.isSplit, src);
    if split.Err? { return Err(split.error); }
    var payload := src.Take(PayloadLen(bitLength));
    if payload.Err? { return Err(payload.error); }
    var index := if ord.value.Some? then Some(ord.value.value.0) else None;
    var channel := if ord.value.Some? then Some(ord.value.value.1) else None;
    r := Ok(Frame(h, bitLength, rel.value, sq.value, index, channel, split.value, payload.value));
  }

  /** Consumes one frame from the front. */
  method TakeFrame(src: Buffer) returns (r: Result<Frame, DecodeError>)
    modifies src
    ensures Took(DecodeFrame(old(src.bytes)), r, src.bytes)
  {
    var raw := src.TakeU8();
    if raw.Err? { return Err(raw.error); }
    var h := HeaderOf(raw.value);
    if h.Err? { return Err(h.error); }
    var bits := src.TakeU16();
    if bits.Err? { return Err(bits.error); }
    if PayloadLen(bits.value) == 0 { return Err(InvalidFrameBitLength); }
    r := TakeBody(h.value, bits.value, src);
  }
}
