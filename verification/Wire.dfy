/** Primitive wire codecs (src/protocol/primitives.rs) and the byte buffer they work on.

    An encoder is a function to the bytes it appends. A decoder is a function
    of the unread bytes to the value and the bytes left over. The buffer class
    carries both out in place, and the codecs of whole messages use it. */
module Wire {
  import opened Base
  import opened Sequence24

  type Bytes = seq<u8>

  datatype DecodeError =
    | UnexpectedEof
    | UnknownReliability
    | InvalidFrameBitLength
    | SplitCountZero
    | SplitTooLarge
    | SplitIndexOutOfRange
    | SplitBufferFull
    | SplitCountMismatch
    | MissingSplitInfo
    | InvalidAckRangeCount
    | InvalidDatagramFlags
    | InvalidAddrVersion
    | InvalidRequest2Layout
    | InvalidMagic
    | InvalidOfflinePacketId

  datatype EncodeError =
    | MissingReliableIndex
    | MissingSequenceIndex
    | MissingOrderingIndex
    | MissingOrderingChannel
    | MissingSplitIndices
    | FrameBitLengthMismatch
    | AckRecordOverflow
    | BadDatagramFlags
    | InvalidMtu

  /** A decoded value and the bytes after it. */
  datatype Parsed<+T> = Parsed(value: T, rest: Bytes)

  type Decoded<+T> = Result<Parsed<T>, DecodeError>

  // ----- big-endian integers -----

  function Pow256(n: nat): (p: nat)
    ensures p > 0
  {
    if n == 0 then 1 else 256 * Pow256(n - 1)
  }

  function BigEndian(v: nat, n: nat): (s: Bytes)
    ensures |s| == n
  {
    if n == 0 then [] else BigEndian(v / 256, n - 1) + [v % 256]
  }

  function FromBigEndian(s: Bytes): (v: nat)
    ensures v < Pow256(|s|)
  {
    if s == [] then 0 else 256 * FromBigEndian(s[..|s| - 1]) + s[|s| - 1]
  }

  lemma {:induction false} BigEndianRoundTrip(v: nat, n: nat)
    requires v < Pow256(n)
    ensures FromBigEndian(BigEndian(v, n)) == v
  {
    if n > 0 {
      BigEndianRoundTrip(v / 256, n - 1);
      var s := BigEndian(v, n);
      assert s[..n - 1] == BigEndian(v / 256, n - 1);
    }
  }

  function EncodeU16(v: u16): Bytes { BigEndian(v, 2) }

  function EncodeU32(v: u32): Bytes { BigEndian(v, 4) }

  function EncodeU64(v: u64): Bytes { BigEndian(v, 8) }

  lemma Widths()
    ensures Pow256(1) == 0x100 && Pow256(2) == 0x1_0000
    ensures Pow256(4) == 0x1_0000_0000 && Pow256(8) == 0x1_0000_0000_0000_0000
  {
    assert Pow256(4) == 0x1_0000_0000;
    assert Pow256(6) == 0x1_0000_0000_0000;
  }

  function DecodeU8(src: Bytes): Decoded<u8> {
    if |src| < 1 then Err(UnexpectedEof) else Ok(Parsed(src[0], src[1..]))
  }

  function DecodeU16(src: Bytes): Decoded<u16> {
    Widths();
    if |src| < 2 then Err(UnexpectedEof) else Ok(Parsed(FromBigEndian(src[..2]), src[2..]))
  }

  function DecodeU32(src: Bytes): Decoded<u32> {
    Widths();
    if |src| < 4 then Err(UnexpectedEof) else Ok(Parsed(FromBigEndian(src[..4]), src[4..]))
  }

  function DecodeU64(src: Bytes): Decoded<u64> {
    Widths();
    if |src| < 8 then Err(UnexpectedEof) else Ok(Parsed(FromBigEndian(src[..8]), src[8..]))
  }

  lemma U16RoundTrip(v: u16, tail: Bytes)
    ensures DecodeU16(EncodeU16(v) + tail) == Ok(Parsed(v, tail))
  {
    Widths();
    BigEndianRoundTrip(v, 2);
    assert (EncodeU16(v) + tail)[..2] == EncodeU16(v);
    assert (EncodeU16(v) + tail)[2..] == tail;
  }

  lemma U32RoundTrip(v: u32, tail: Bytes)
    ensures DecodeU32(EncodeU32(v) + tail) == Ok(Parsed(v, tail))
  {
    Widths();
    BigEndianRoundTrip(v, 4);
    assert (EncodeU32(v) + tail)[..4] == EncodeU32(v);
    assert (EncodeU32(v) + tail)[4..] == tail;
  }

  lemma U64RoundTrip(v: u64, tail: Bytes)
    ensures DecodeU64(EncodeU64(v) + tail) == Ok(Parsed(v, tail))
  {
    Widths();
    BigEndianRoundTrip(v, 8);
    assert (EncodeU64(v) + tail)[..8] == EncodeU64(v);
    assert (EncodeU64(v) + tail)[8..] == tail;
  }

  // ----- booleans and 24-bit little-endian numbers -----

  function EncodeBool(b: bool): Bytes { [if b then 1 else 0] }

  /** Only the byte 1 reads as true. */
  function DecodeBool(src: Bytes): Decoded<bool> {
    if |src| < 1 then Err(UnexpectedEof) else Ok(Parsed(src[0] == 1, src[1..]))
  }

  function EncodeU24(v: Seq24): (s: Bytes)
    ensures |s| == 3
  {
    [v % 256, v / 256 % 256, v / 65536]
  }

  function DecodeU24(src: Bytes): Decoded<Seq24> {
    if |src| < 3 then Err(UnexpectedEof)
    else
      var b0: int, b1: int, b2: int := src[0], src[1], src[2];
      Ok(Parsed(b0 + 256 * b1 + 65536 * b2, src[3..]))
  }

  lemma U24RoundTrip(v: Seq24, tail: Bytes)
    ensures DecodeU24(EncodeU24(v) + tail) == Ok(Parsed(v, tail))
  {
    var s := EncodeU24(v) + tail;
    assert s[0] == v % 256 && s[1] == v / 256 % 256 && s[2] == v / 65536;
    assert s[3..] == tail;
  }

  lemma BoolRoundTrip(b: bool, tail: Bytes)
    ensures DecodeBool(EncodeBool(b) + tail) == Ok(Parsed(b, tail))
  {
    assert (EncodeBool(b) + tail)[1..] == tail;
  }

  lemma Assoc(a: Bytes, b: Bytes, c: Bytes)
    ensures (a + b) + c == a + (b + c)
  {
  }

  // ----- the buffer -----

  /** An in-place decoder did what the decoding function says: same value or error, and on
      success the same bytes left. */
  ghost predicate Took<T>(d: Decoded<T>, r: Result<T, DecodeError>, left: Bytes) {
    match d
    case Err(e) => r == Err(e)
    case Ok(p) => r == Ok(p.value) && left == p.rest
  }

  /** A growable byte buffer: encoders append at the back, decoders consume from the front. */
  class Buffer {
    var bytes: Bytes

    constructor (initial: Bytes)
      ensures bytes == initial
    {
      bytes := initial;
    }

    method Put(slice: Bytes)
      modifies this
      ensures bytes == old(bytes) + slice
    {
      bytes := bytes + slice;
    }

    /** Consumes `n` bytes if there are that many, and nothing otherwise. */
    method Take(n: nat) returns (r: Result<Bytes, DecodeError>)
      modifies this
      ensures n <= |old(bytes)| ==> r == Ok(old(bytes)[..n]) && bytes == old(bytes)[n..]
      ensures n > |old(bytes)| ==> r == Err(UnexpectedEof) && bytes == old(bytes)
    {
      if |bytes| < n { return Err(UnexpectedEof); }
      r := Ok(bytes[..n]);
      bytes := bytes[n..];
    }

    method TakeU8() returns (r: Result<u8, DecodeError>)
      modifies this
      ensures Took(DecodeU8(old(bytes)), r, bytes)
    {
      var t := Take(1);
      if t.Err? { return Err(t.error); }
      r := Ok(t.value[0]);
    }

    method TakeU16() returns (r: Result<u16, DecodeError>)
      modifies this
      ensures Took(DecodeU16(old(bytes)), r, bytes)
    {
      Widths();
      var t := Take(2);
      if t.Err? { return Err(t.error); }
      r := Ok(FromBigEndian(t.value));
    }

    method TakeU32() returns (r: Result<u32, DecodeError>)
      modifies this
      ensures Took(DecodeU32(old(bytes)), r, bytes)
    {
      Widths();
      var t := Take(4);
      if t.Err? { return Err(t.error); }
      r := Ok(FromBigEndian(t.value));
    }

    method TakeU24() returns (r: Result<Seq24, DecodeError>)
      modifies this
      ensures Took(DecodeU24(old(bytes)), r, bytes)
    {
      var t := Take(3);
      if t.Err? { return Err(t.error); }
      var b0: int, b1: int, b2: int := t.value[0], t.value[1], t.value[2];
      r := Ok(b0 + 256 * b1 + 65536 * b2);
    }
  }
}
