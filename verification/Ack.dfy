/** Acknowledgement ranges and the ACK/NACK payload codec (src/protocol/ack.rs). */
module Ack {
  import opened Base
  import opened Sequence24
  import opened Wire

  const MAX_ACK_SEQUENCES: nat := 8192

  /** A circular range: from `start` forward to `end`, both included. */
  datatype Range = Range(start: Seq24, end: Seq24) {
    predicate Wraps() { start > end }

    function Size(): nat { if start == end then 4 else 7 }

    /** The records a range is sent as: one, or two when it passes the end of the space. */
    function Records(): (rs: seq<Range>)
      ensures 1 <= |rs| <= 2
      ensures forall r <- rs :: !r.Wraps()
    {
      if Wraps() then [Range(start, MODULO - 1), Range(0, end)] else [this]
    }

    function Length(): nat { DistanceTo(start, end) + 1 }

    predicate Contains(s: Seq24) { DistanceTo(start, s) <= DistanceTo(start, end) }
  }

  function Single(s: Seq24): Range { Range(s, s) }

  /** Some range of the list contains the number. */
  ghost predicate Covers(rs: seq<Range>, s: Seq24) {
    exists r <- rs :: r.Contains(s)
  }

  lemma CoversConcat(a: seq<Range>, b: seq<Range>, s: Seq24)
    ensures Covers(a + b, s) <==> Covers(a, s) || Covers(b, s)
  {
    if Covers(a, s) { var r :| r in a && r.Contains(s); assert r in a + b; }
    if Covers(b, s) { var r :| r in b && r.Contains(s); assert r in a + b; }
  }

  // ----- walking a range -----

  /** The numbers `for_each_sequence` visits, in order. */
  function Walk(from: Seq24, end: Seq24): (w: seq<Seq24>)
    ensures w != [] && w[0] == from
    decreases DistanceTo(from, end)
  {
    if from == end then [from] else [from] + Walk(Next(from), end)
  }

  /** The walk visits exactly the numbers of the range, each once. */
  lemma {:induction false} WalkVisits(from: Seq24, end: Seq24, s: Seq24)
    ensures s in Walk(from, end) <==> Range(from, end).Contains(s)
    ensures |Walk(from, end)| == DistanceTo(from, end) + 1
    ensures forall i | 0 <= i < |Walk(from, end)| :: DistanceTo(from, Walk(from, end)[i]) == i
    decreases DistanceTo(from, end)
  {
    if from != end {
      var next := Next(from);
      WalkVisits(next, end, s);
      var w := Walk(next, end);
      forall i | 0 <= i < |w| ensures DistanceTo(from, w[i]) == i + 1 {
        assert DistanceTo(next, w[i]) == i;
      }
    }
  }

  // ----- records of a list of ranges -----

  function AllRecords(ranges: seq<Range>): (rs: seq<Range>)
    ensures forall r <- rs :: !r.Wraps()
    ensures |ranges| <= |rs| <= 2 * |ranges|
  {
    if ranges == [] then [] else ranges[0].Records() + AllRecords(ranges[1..])
  }

  function PayloadSize(ranges: seq<Range>): nat { 2 + RecordsSize(AllRecords(ranges)) }

  function RecordsSize(rs: seq<Range>): (n: nat)
    ensures 4 * |rs| <= n <= 7 * |rs|
  {
    if rs == [] then 0 else rs[0].Size() + RecordsSize(rs[1..])
  }

  lemma {:induction false} RecordsSizeConcat(a: seq<Range>, b: seq<Range>)
    ensures RecordsSize(a + b) == RecordsSize(a) + RecordsSize(b)
  {
    if a == [] {
      assert a + b == b;
    } else {
      assert (a + b)[1..] == a[1..] + b;
      RecordsSizeConcat(a[1..], b);
    }
  }

  lemma {:induction false} AllRecordsConcat(a: seq<Range>, b: seq<Range>)
    ensures AllRecords(a + b) == AllRecords(a) + AllRecords(b)
  {
    if a == [] {
      assert a + b == b;
    } else {
      assert (a + b)[1..] == a[1..] + b;
      AllRecordsConcat(a[1..], b);
    }
  }

  lemma RecordsCover(r: Range, s: Seq24)
    ensures Covers(r.Records(), s) <==> r.Contains(s)
  {
    if r.Wraps() {
      assert r.Records()[0] == Range(r.start, MODULO - 1);
      assert r.Records()[1] == Range(0, r.end);
      assert r.Contains(s) <==> Range(r.start, MODULO - 1).Contains(s) || Range(0, r.end).Contains(s);
    } else {
      assert r.Records()[0] == r;
    }
  }

  /** Splitting at the end of the space does not change which numbers are named. */
  lemma {:induction false} AllRecordsCover(ranges: seq<Range>, s: Seq24)
    ensures Covers(AllRecords(ranges), s) <==> Covers(ranges, s)
  {
    if ranges != [] {
      AllRecordsCover(ranges[1..], s);
      RecordsCover(ranges[0], s);
      CoversConcat(ranges[0].Records(), AllRecords(ranges[1..]), s);
      CoversConcat([ranges[0]], ranges[1..], s);
      assert [ranges[0]] + ranges[1..] == ranges;
      assert Covers([ranges[0]], s) <==> ranges[0].Contains(s) by { assert [ranges[0]][0] == ranges[0]; }
    }
  }

  // ----- codec -----

  function EncodeRange(r: Range): (s: Bytes)
    ensures |s| == r.Size()
  {
    if r.start == r.end then EncodeBool(true) + EncodeU24(r.start)
    else EncodeBool(false) + (EncodeU24(r.start) + EncodeU24(r.end))
  }

  function DecodeRange(src: Bytes): (d: Decoded<Range>)
    ensures d.Ok? ==> |d.value.rest| < |src|
  {
    match DecodeBool(src)
    case Err(e) => Err(e)
    case Ok(singleton) =>
      match DecodeU24(singleton.rest)
      case Err(e) => Err(e)
      case Ok(start) =>
        if singleton.value then Ok(Parsed(Range(start.value, start.value), start.rest))
        else match DecodeU24(start.rest)
          case Err(e) => Err(e)
          case Ok(end) => Ok(Parsed(Range(start.value, end.value), end.rest))
  }

  lemma RangeRoundTrip(r: Range, tail: Bytes)
    ensures DecodeRange(EncodeRange(r) + tail) == Ok(Parsed(r, tail))
  {
    if r.start == r.end {
      Assoc(EncodeBool(true), EncodeU24(r.start), tail);
      BoolRoundTrip(true, EncodeU24(r.start) + tail);
      U24RoundTrip(r.start, tail);
    } else {
      Assoc(EncodeBool(false), EncodeU24(r.start) + EncodeU24(r.end), tail);
      Assoc(EncodeU24(r.start), EncodeU24(r.end), tail);
      BoolRoundTrip(false, EncodeU24(r.start) + (EncodeU24(r.end) + tail));
      U24RoundTrip(r.start, EncodeU24(r.end) + tail);
      U24RoundTrip(r.end, tail);
    }
  }

  function EncodeRanges(rs: seq<Range>): (s: Bytes)
    ensures |s| == RecordsSize(rs)
  {
    if rs == [] then [] else EncodeRange(rs[0]) + EncodeRanges(rs[1..])
  }

  function DecodeRanges(n: nat, src: Bytes): Decoded<seq<Range>> {
    if n == 0 then Ok(Parsed([], src))
    else match DecodeRange(src)
      case Err(e) => Err(e)
      case Ok(first) =>
        match DecodeRanges(n - 1, first.rest)
        case Err(e) => Err(e)
        case Ok(others) => Ok(Parsed([first.value] + others.value, others.rest))
  }

  lemma {:induction false} RangesRoundTrip(rs: seq<Range>, tail: Bytes)
    ensures DecodeRanges(|rs|, EncodeRanges(rs) + tail) == Ok(Parsed(rs, tail))
  {
    if rs == [] {
      assert [] + tail == tail;
    } else {
      Assoc(EncodeRange(rs[0]), EncodeRanges(rs[1..]), tail);
      RangeRoundTrip(rs[0], EncodeRanges(rs[1..]) + tail);
      RangesRoundTrip(rs[1..], tail);
      assert [rs[0]] + rs[1..] == rs;
    }
  }

  function EncodePayload(ranges: seq<Range>): (s: Bytes)
    requires |AllRecords(ranges)| <= MAX_ACK_SEQUENCES
    ensures |s| == PayloadSize(ranges)
  {
    EncodeU16(|AllRecords(ranges)|) + EncodeRanges(AllRecords(ranges))
  }

  function DecodePayload(src: Bytes): Decoded<seq<Range>> {
    match DecodeU16(src)
    case Err(e) => Err(e)
    case Ok(count) =>
      if count.value > MAX_ACK_SEQUENCES then Err(InvalidAckRangeCount)
      else DecodeRanges(count.value, count.rest)
  }

  /** A payload decodes to its records, which name the same numbers as the ranges did. */
  lemma PayloadRoundTrip(ranges: seq<Range>, tail: Bytes)
    requires |AllRecords(ranges)| <= MAX_ACK_SEQUENCES
    ensures DecodePayload(EncodePayload(ranges) + tail) == Ok(Parsed(AllRecords(ranges), tail))
    ensures forall s: Seq24 :: Covers(AllRecords(ranges), s) <==> Covers(ranges, s)
  {
    var rs := AllRecords(ranges);
    Assoc(EncodeU16(|rs|), EncodeRanges(rs), tail);
    U16RoundTrip(|rs|, EncodeRanges(rs) + tail);
    RangesRoundTrip(rs, tail);
    forall s: Seq24 ensures Covers(rs, s) <==> Covers(ranges, s) { AllRecordsCover(ranges, s); }
  }

  // ----- the codec in place -----

  method PutRange(r: Range, dst: Buffer)
    modifies dst
    ensures dst.bytes == old(dst.bytes) + EncodeRange(r)
  {
    var singleton := r.start == r.end;
    dst.Put(EncodeBool(singleton));
    dst.Put(EncodeU24(r.start));
    Assoc(old(dst.bytes), EncodeBool(singleton), EncodeU24(r.start));
    if !singleton {
      dst.Put(EncodeU24(r.end));
      Assoc(old(dst.bytes), EncodeBool(singleton) + EncodeU24(r.start), EncodeU24(r.end));
      Assoc(EncodeBool(singleton), EncodeU24(r.start), EncodeU24(r.end));
    }
  }

  lemma EncodeRangesConcat(a: seq<Range>, b: seq<Range>)
    ensures EncodeRanges(a + b) == EncodeRanges(a) + EncodeRanges(b)
  {
    if a == [] {
      assert a + b == b;
    } else {
      assert (a + b)[1..] == a[1..] + b;
      Assoc(EncodeRange(a[0]), EncodeRanges(a[1..]), EncodeRanges(b));
    }
  }

  /** Writes one range as its records. */
  method PutRecords(r: Range, dst: Buffer)
    modifies dst
    ensures dst.bytes == old(dst.bytes) + EncodeRanges(r.Records())
  {
    if r.Wraps() {
      var left, right := Range(r.start, MODULO - 1), Range(0, r.end);
      PutRange(left, dst);
      PutRange(right, dst);
      Assoc(old(dst.bytes), EncodeRange(left), EncodeRange(right));
      assert EncodeRanges([right]) == EncodeRange(right);
      assert [left, right][1..] == [right];
    } else {
      PutRange(r, dst);
      assert EncodeRanges([r]) == EncodeRange(r);
    }
  }

  lemma RecordsNext(ranges: seq<Range>, i: nat)
    requires i < |ranges|
    ensures AllRecords(ranges[..i + 1]) == AllRecords(ranges[..i]) + ranges[i].Records()
  {
    assert ranges[..i + 1] == ranges[..i] + [ranges[i]];
    AllRecordsConcat(ranges[..i], [ranges[i]]);
    assert AllRecords([ranges[i]]) == ranges[i].Records();
  }

  method CountRecords(ranges: seq<Range>) returns (count: nat)
    ensures count == |AllRecords(ranges)|
  {
    count := 0;
    for i := 0 to |ranges|
      invariant count == |AllRecords(ranges[..i])|
    {
      RecordsNext(ranges, i);
      count := count + if ranges[i].Wraps() then 2 else 1;
    }
    assert ranges[..|ranges|] == ranges;
  }

  method PutAllRecords(ranges: seq<Range>, dst: Buffer)
    modifies dst
    ensures dst.bytes == old(dst.bytes) + EncodeRanges(AllRecords(ranges))
  {
    ghost var start := dst.bytes;
    for i := 0 to |ranges|
      invariant dst.bytes == start + EncodeRanges(AllRecords(ranges[..i]))
    {
      RecordsNext(ranges, i);
      EncodeRangesConcat(AllRecords(ranges[..i]), ranges[i].Records());
      Assoc(start, EncodeRanges(AllRecords(ranges[..i])), EncodeRanges(ranges[i].Records()));
      PutRecords(ranges[i], dst);
    }
    assert ranges[..|ranges|] == ranges;
  }

  /** Counts the records, refuses more than 8192 before writing anything, then writes them. */
  method PutPayload(ranges: seq<Range>, dst: Buffer) returns (r: Option<EncodeError>)
    modifies dst
    ensures r == if |AllRecords(ranges)| > MAX_ACK_SEQUENCES then Some(AckRecordOverflow) else None
    ensures dst.bytes == if r.None? then old(dst.bytes) + EncodePayload(ranges) else old(dst.bytes)
  {
    var count := CountRecords(ranges);
    if count > MAX_ACK_SEQUENCES { return Some(AckRecordOverflow); }
    dst.Put(EncodeU16(count));
    PutAllRecords(ranges, dst);
    Assoc(old(dst.bytes), EncodeU16(count), EncodeRanges(AllRecords(ranges)));
    r := None;
  }

  method TakeRange(src: Buffer) returns (r: Result<Range, DecodeError>)
    modifies src
    ensures Took(DecodeRange(old(src.bytes)), r, src.bytes)
  {
    var singleton := src.TakeU8();
    if singleton.Err? { return Err(singleton.error); }
    var start := src.TakeU24();
    if start.Err? { return Err(start.error); }
    if singleton.value == 1 { return Ok(Range(start.value, start.value)); }
    var end := src.TakeU24();
    r := if end.Err? then Err(end.error) else Ok(Range(start.value, end.value));
  }

  /** What remains to be decoded after a prefix of the records has been read. */
  ghost function Resume(done: seq<Range>, rest: Decoded<seq<Range>>): Decoded<seq<Range>> {
    match rest
    case Err(e) => Err(e)
    case Ok(p) => Ok(Parsed(done + p.value, p.rest))
  }

  method TakePayload(src: Buffer) returns (r: Result<seq<Range>, DecodeError>)
    modifies src
    ensures Took(DecodePayload(old(src.bytes)), r, src.bytes)
  {
    var count := src.TakeU16();
    if count.Err? { return Err(count.error); }
    if count.value > MAX_ACK_SEQUENCES { return Err(InvalidAckRangeCount); }
    ghost var whole := DecodeRanges(count.value, src.bytes);
    var ranges: seq<Range> := [];
    if whole.Ok? { assert ranges + whole.value.value == whole.value.value; }
    for i := 0 to count.value
      invariant whole == Resume(ranges, DecodeRanges(count.value - i, src.bytes))
    {
      ghost var before := src.bytes;
      var range := TakeRange(src);
      if range.Err? { return Err(range.error); }
      ghost var others := DecodeRanges(count.value - i - 1, src.bytes);
      if others.Ok? { assert ranges + ([range.value] + others.value.value) == ranges + [range.value] + others.value.value; }
      ranges := ranges + [range.value];
    }
    assert whole == Ok(Parsed(ranges + [], src.bytes));
    assert ranges + [] == ranges;
    r := Ok(ranges);
  }
}
