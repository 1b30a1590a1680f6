/** Queueing of outgoing payloads (src/session/mod.rs): numbering, splitting, the priority heap,
    its byte count and back-pressure. */
module Outboxes {
  import opened Base
  import opened Sequence24
  import opened Wire
  import opened Frames
  import opened Datagrams
  import Splits

  datatype Priority = Immediate | High | Normal | Low {
    function Level(): (l: nat)
      ensures l < 4
    {
      match this
      case Immediate => 0
      case High => 1
      case Normal => 2
      case Low => 3
    }
  }

  datatype Queued = Queued(
    weight: nat, encodedSize: nat, isReliable: bool, priority: Priority, receipt: Option<nat>, frame: Frame)

  /** The cached facts of a queued frame are those of the frame. */
  predicate QueuedOk(q: Queued) {
    q.encodedSize == FrameSize(q.frame) && q.isReliable == q.frame.header.reliability.IsReliable()
  }

  // ----- weights -----

  datatype WeightTable = Weights(next: seq<nat>, lastMin: nat)

  /** No level's next weight is below its base weight, so the subtraction below cannot wrap. */
  type Weights = w: WeightTable | |w.next| == 4 && forall l | 0 <= l < 4 :: w.next[l] >= BaseWeight(l)
    witness Weights([0, 3, 10, 27], 0)

  function Shift(level: nat): nat
    requires level < 4
  {
    [1, 2, 4, 8][level]
  }

  function BaseWeight(level: nat): nat
    requires level < 4
  {
    Shift(level) * level + level
  }

  const BASE_WEIGHTS: seq<nat> := [0, 3, 10, 27]

  /** The weight of the next frame of a level; on an empty heap the old entry is used once more
      before the table is reset. */
  function NextWeight(w: Weights, heapEmpty: bool, level: nat): (Weights, nat)
    requires level < 4
  {
    var stale := w.next[level];
    var (next, weight) :=
      if heapEmpty then (BASE_WEIGHTS, stale)
      else if stale >= w.lastMin then
        var n := w.lastMin + BaseWeight(level);
        (w.next[level := n + Shift(level) * (level + 1) + level], n)
      else (w.next, stale);
    (Weights(next, weight - Shift(level) * level + level), weight)
  }

  /** Of two frames of one level queued one after the other, the later is the lighter one, and so
      leaves first, if and only if the earlier found an empty heap and an old table entry above
      twice its level's share. */
  lemma LaterLighterIff(w: Weights, heapEmpty: bool, level: nat)
    requires level < 4
    ensures var (mid, first) := NextWeight(w, heapEmpty, level);
            NextWeight(mid, false, level).1 < first <==> heapEmpty && w.next[level] > 2 * Shift(level) * level
  {
    assert level == 0 || level == 1 || level == 2 || level == 3;
  }

  /** Two frames of normal priority are queued and sent; of the next two the later is lighter. */
  lemma LaterFrameLighter()
    ensures var (w1, _) := NextWeight(Weights(BASE_WEIGHTS, 0), true, Normal.Level());
            var (w2, _) := NextWeight(w1, false, Normal.Level());
            var (w3, first) := NextWeight(w2, true, Normal.Level());
            NextWeight(w3, false, Normal.Level()).1 < first
  {
    var (w1, _) := NextWeight(Weights(BASE_WEIGHTS, 0), true, Normal.Level());
    var (w2, _) := NextWeight(w1, false, Normal.Level());
    LaterLighterIff(w2, true, Normal.Level());
  }

  // ----- numbering -----

  datatype Numbers = Numbers(
    write: Seq24, reliable: Seq24, split: u16, ordering: seq<Seq24>, sequencing: seq<Seq24>)

  function GrowCounters(counters: seq<Seq24>, channel: u8): (r: seq<Seq24>)
    ensures |r| == Max(|counters|, channel + 1) && counters <= r
    ensures forall i | |counters| <= i < |r| :: r[i] == 0
  {
    if channel < |counters| then counters else counters + seq(channel + 1 - |counters|, _ => 0)
  }

  /** The counter of a channel; one that does not exist yet stands at zero. */
  function CounterAt(counters: seq<Seq24>, channel: u8): Seq24 {
    if channel < |counters| then counters[channel] else 0
  }

  function Count(counters: seq<Seq24>, channel: u8): (seq<Seq24>, Seq24) {
    var grown := GrowCounters(counters, channel);
    (grown[channel := Next(grown[channel])], grown[channel])
  }

  lemma CountAt(counters: seq<Seq24>, channel: u8, k: u8)
    ensures Count(counters, channel).1 == CounterAt(counters, channel)
    ensures CounterAt(Count(counters, channel).0, k)
         == if k == channel then Next(CounterAt(counters, k)) else CounterAt(counters, k)
  {
  }

  function NumberOrdering(n: Numbers, rel: Reliability, channel: u8): (Numbers, Option<Seq24>) {
    if !rel.HasOrdering() then (n, None)
    else var (counters, index) := Count(n.ordering, channel); (n.(ordering := counters), Some(index))
  }

  function NumberSequence(n: Numbers, rel: Reliability, channel: u8): (Numbers, Option<Seq24>) {
    if !rel.IsSequenced() then (n, None)
    else var (counters, index) := Count(n.sequencing, channel); (n.(sequencing := counters), Some(index))
  }

  // ----- frames for a payload -----

  function MaxPayload(mtu: nat, rel: Reliability, isSplit: bool): (n: nat)
    ensures n >= 1
  {
    var overhead := HEADER_SIZE + Overhead(rel, isSplit);
    if mtu > overhead then mtu - overhead else 1
  }

  function NormalizeForSplit(rel: Reliability): (r: Reliability)
    ensures r.IsReliable()
    ensures r.IsOrdered() == rel.IsOrdered() && r.IsSequenced() == rel.IsSequenced()
  {
    match rel
    case Unreliable => Reliable
    case UnreliableSequenced => ReliableSequenced
    case UnreliableWithAckReceipt => ReliableWithAckReceipt
    case _ => rel
  }

  /** Pieces of at most `size` bytes, in order. */
  function Chunks(payload: Bytes, size: nat): seq<Bytes>
    requires size >= 1
    decreases |payload|
  {
    if payload == [] then []
    else
      var take := Min(|payload|, size);
      [payload[..take]] + Chunks(payload[take..], size)
  }

  function CeilDiv(a: nat, b: nat): nat
    requires b >= 1
  {
    (a + b - 1) / b
  }

  function CastU32(n: nat): u32 { n % 0x1_0000_0000 }

  function SingleFrame(rel: Reliability, reliable: Seq24, sequence: Option<Seq24>, ordering: Option<Seq24>,
                       channel: u8, payload: Bytes): Frame
  {
    Frame(FrameHeader(rel, false, false), BitLength(|payload|),
          if rel.IsReliable() then Some(reliable) else None, sequence, ordering,
          if ordering.Some? then Some(channel) else None, None, payload)
  }

  function PartFrame(rel: Reliability, reliable: Seq24, sequence: Option<Seq24>, ordering: Option<Seq24>,
                     channel: u8, split: SplitInfo, part: Bytes): Frame
  {
    Frame(FrameHeader(rel, true, false), BitLength(|part|),
          if rel.IsReliable() then Some(reliable) else None, sequence, ordering,
          if ordering.Some? then Some(channel) else None, Some(split), part)
  }

  /** Frames and the counters after numbering them. */
  datatype Numbered = Numbered(numbers: Numbers, frames: seq<Frame>)

  function SingleFrames(n: Numbers, payload: Bytes, rel: Reliability, channel: u8): Numbered {
    var (n1, ordering) := NumberOrdering(n, rel, channel);
    var (n2, sequence) := NumberSequence(n1, rel, channel);
    Numbered(if rel.IsReliable() then n2.(reliable := Next(n2.reliable)) else n2,
             [SingleFrame(rel, n2.reliable, sequence, ordering, channel, payload)])
  }

  /** The frames of consecutive parts; `done` of `count` are already numbered. */
  function PartFrames(rel: Reliability, reliable: Seq24, sequence: Option<Seq24>, ordering: Option<Seq24>,
                      channel: u8, id: u16, count: nat, done: nat, parts: seq<Bytes>): (fs: seq<Frame>)
    ensures |fs| == |parts|
    decreases |parts|
  {
    if parts == [] then []
    else
      var split := SplitInfo(CastU32(count), id, CastU32(done));
      [PartFrame(rel, reliable, sequence, ordering, channel, split, parts[0])]
      + PartFrames(rel, if rel.IsReliable() then Next(reliable) else reliable, sequence, ordering,
                   channel, id, count, done + 1, parts[1..])
  }

  function Skip(s: Seq24, n: nat): Seq24
    decreases n
  {
    if n == 0 then s else Skip(Next(s), n - 1)
  }

  function SplitFrames(n: Numbers, mtu: nat, payload: Bytes, rel: Reliability, channel: u8): Numbered {
    var r := NormalizeForSplit(rel);
    var parts := Chunks(payload, MaxPayload(mtu, r, true));
    var id := n.split;
    var n0 := n.(split := (n.split + 1) % 0x1_0000);
    var (n1, ordering) := NumberOrdering(n0, r, channel);
    var (n2, sequence) := NumberSequence(n1, r, channel);
    Numbered(n2.(reliable := Skip(n2.reliable, |parts|)),
             PartFrames(r, n2.reliable, sequence, ordering, channel, id, |parts|, 0, parts))
  }

  predicate FitsSingle(mtu: nat, len: nat, rel: Reliability) { len <= MaxPayload(mtu, rel, false) }

  function FramesFor(n: Numbers, mtu: nat, payload: Bytes, rel: Reliability, channel: u8): Numbered {
    if FitsSingle(mtu, |payload|, rel) then SingleFrames(n, payload, rel, channel)
    else SplitFrames(n, mtu, payload, rel, channel)
  }

  // ----- the outbox -----

  datatype Outbox = Outbox(heap: multiset<Queued>, weights: Weights, bytes: nat)

  function SaturatingSub(a: nat, b: nat): nat { if a >= b then a - b else 0 }

  function TakePicked(o: Outbox, picked: seq<Queued>): Outbox {
    Outbox(o.heap - multiset(picked), o.weights, SaturatingSub(o.bytes, Sizes(picked)))
  }

  function PushFrame(o: Outbox, f: Frame, priority: Priority, receipt: Option<nat>): Outbox
  {
    var (weights, weight) := NextWeight(o.weights, o.heap == multiset{}, priority.Level());
    var q := Queued(weight, FrameSize(f), f.header.reliability.IsReliable(), priority, receipt, f);
    Outbox(o.heap + multiset{q}, weights, o.bytes + FrameSize(f))
  }

  function PushFrames(o: Outbox, frames: seq<Frame>, priority: Priority, receipt: Option<nat>): (p: Outbox)
  {
    if frames == [] then o
    else
      var before := PushFrames(o, frames[..|frames| - 1], priority, receipt);
      PushFrame(before, frames[|frames| - 1], priority, receipt)
  }

  function Sizes(qs: seq<Queued>): nat {
    if qs == [] then 0 else Sizes(qs[..|qs| - 1]) + qs[|qs| - 1].encodedSize
  }

  /** The summed encoded size of a heap. */
  ghost function HeapBytes(heap: multiset<Queued>): nat
    decreases |heap|
  {
    if heap == multiset{} then 0
    else var q :| q in heap; q.encodedSize + HeapBytes(heap - multiset{q})
  }

  lemma {:induction false} HeapBytesTake(heap: multiset<Queued>, q: Queued)
    requires q in heap
    ensures HeapBytes(heap) == q.encodedSize + HeapBytes(heap - multiset{q})
    decreases |heap|
  {
    var p :| p in heap && HeapBytes(heap) == p.encodedSize + HeapBytes(heap - multiset{p});
    if p != q {
      HeapBytesTake(heap - multiset{p}, q);
      HeapBytesTake(heap - multiset{q}, p);
      assert heap - multiset{p} - multiset{q} == heap - multiset{q} - multiset{p};
    }
  }

  lemma HeapBytesPut(heap: multiset<Queued>, q: Queued)
    ensures HeapBytes(heap + multiset{q}) == HeapBytes(heap) + q.encodedSize
  {
    HeapBytesTake(heap + multiset{q}, q);
    assert heap + multiset{q} - multiset{q} == heap;
  }

  lemma {:induction false} HeapBytesTakeAll(heap: multiset<Queued>, qs: seq<Queued>)
    requires multiset(qs) <= heap
    ensures HeapBytes(heap) == Sizes(qs) + HeapBytes(heap - multiset(qs))
  {
    if qs == [] {
      assert heap - multiset(qs) == heap;
    } else {
      var n := |qs| - 1;
      assert qs == qs[..n] + [qs[n]];
      assert multiset(qs) == multiset(qs[..n]) + multiset{qs[n]};
      HeapBytesTakeAll(heap, qs[..n]);
      HeapBytesTake(heap - multiset(qs[..n]), qs[n]);
      assert heap - multiset(qs[..n]) - multiset{qs[n]} == heap - multiset(qs);
    }
  }

  /** Counts and caches agree with the heap. */
  ghost predicate OutboxOk(o: Outbox) {
    o.bytes == HeapBytes(o.heap) && forall q <- o.heap :: QueuedOk(q)
  }

  lemma PushFrameOk(o: Outbox, f: Frame, priority: Priority, receipt: Option<nat>)
    requires OutboxOk(o)
    ensures var p := PushFrame(o, f, priority, receipt);
            && OutboxOk(p) && |p.heap| == |o.heap| + 1 && p.bytes == o.bytes + FrameSize(f)
  {
    var (weights, weight) := NextWeight(o.weights, o.heap == multiset{}, priority.Level());
    var q := Queued(weight, FrameSize(f), f.header.reliability.IsReliable(), priority, receipt, f);
    HeapBytesPut(o.heap, q);
  }

  /** Pushing frames keeps the byte count equal to the summed size of the heap. */
  lemma {:induction false} PushFramesOk(o: Outbox, frames: seq<Frame>, priority: Priority, receipt: Option<nat>)
    requires OutboxOk(o)
    ensures var p := PushFrames(o, frames, priority, receipt);
            && OutboxOk(p) && |p.heap| == |o.heap| + |frames| && p.bytes == o.bytes + FramesSize(frames)
  {
    if frames != [] {
      var init, last := frames[..|frames| - 1], frames[|frames| - 1];
      var before := PushFrames(o, init, priority, receipt);
      PushFramesOk(o, init, priority, receipt);
      PushFrameOk(before, last, priority, receipt);
      FramesSizeLast(frames);
    }
  }

  lemma FramesSizeLast(frames: seq<Frame>)
    requires frames != []
    ensures FramesSize(frames) == FramesSize(frames[..|frames| - 1]) + FrameSize(frames[|frames| - 1])
  {
    var n := |frames| - 1;
    assert frames == frames[..n] + [frames[n]];
    FramesSizeConcat(frames[..n], [frames[n]]);
    assert FramesSize([frames[n]]) == FrameSize(frames[n]) + FramesSize([frames[n]][1..]);
  }

  /** Taking frames out of the heap keeps the byte count exact. */
  lemma TakePickedOk(o: Outbox, picked: seq<Queued>)
    requires OutboxOk(o) && multiset(picked) <= o.heap
    ensures OutboxOk(TakePicked(o, picked)) && TakePicked(o, picked).bytes + Sizes(picked) == o.bytes
  {
    HeapBytesTakeAll(o.heap, picked);
    var heap := o.heap - multiset(picked);
    forall q <- heap ensures QueuedOk(q) { assert q in o.heap; }
  }

  // ----- what splitting yields -----

  lemma CeilDivStep(a: nat, b: nat)
    requires b >= 1
    ensures a == 0 ==> CeilDiv(a, b) == 0
    ensures 0 < a <= b ==> CeilDiv(a, b) == 1
    ensures a > b ==> CeilDiv(a, b) == 1 + CeilDiv(a - b, b)
  {
    if a > b {
      assert (a + b - 1) / b == (a - b + b - 1) / b + 1 by { DivShift(a - b + b - 1, b); }
    } else if a > 0 {
      assert (a + b - 1) / b == (a - 1) / b + 1 by { DivShift(a - 1, b); }
      assert (a - 1) / b == 0 by { DivSmall(a - 1, b); }
    } else {
      DivSmall(b - 1, b);
    }
  }

  lemma DivShift(x: nat, b: nat)
    requires b >= 1
    ensures (x + b) / b == x / b + 1
  {
    var q, r := x / b, x % b;
    assert x == q * b + r;
    assert x + b == (q + 1) * b + r;
    DivUnique(x + b, b, q + 1, r);
  }

  lemma DivSmall(x: nat, b: nat)
    requires x < b
    ensures x / b == 0
  {
    DivUnique(x, b, 0, x);
  }

  lemma DivUnique(x: nat, b: nat, q: nat, r: nat)
    requires b >= 1 && x == q * b + r && r < b
    ensures x / b == q
  {
    var p, s := x / b, x % b;
    assert x == p * b + s;
    assert (p - q) * b == r - s;
    MulGrows(p - q, b);
  }

  lemma MulGrows(k: int, b: nat)
    ensures k >= 1 ==> k * b >= b
    ensures k <= -1 ==> k * b + b <= 0
  {
  }

  /** The parts cover the payload in order, none is empty or too long, and there are as many as
      the back-pressure estimate says. */
  lemma {:induction false} ChunksCover(payload: Bytes, size: nat)
    requires size >= 1
    ensures Flat(Chunks(payload, size)) == payload
    ensures |Chunks(payload, size)| == CeilDiv(|payload|, size)
    ensures forall c <- Chunks(payload, size) :: 1 <= |c| <= size
    decreases |payload|
  {
    CeilDivStep(|payload|, size);
    if payload != [] {
      var take := Min(|payload|, size);
      var rest := payload[take..];
      ChunksCover(rest, size);
      assert payload == payload[..take] + rest;
      if |payload| <= size { assert rest == []; CeilDivStep(0, size); }
      var cs := Chunks(payload, size);
      assert cs[1..] == Chunks(rest, size);
      forall c <- cs ensures 1 <= |c| <= size { assert c == cs[0] || c in cs[1..]; }
    }
  }

  /** Concatenation from the front. */
  function Flat(parts: seq<Bytes>): Bytes {
    if parts == [] then [] else parts[0] + Flat(parts[1..])
  }

  lemma {:induction false} FlatConcat(a: seq<Bytes>, b: seq<Bytes>)
    ensures Flat(a + b) == Flat(a) + Flat(b)
  {
    if a == [] {
      assert a + b == b;
    } else {
      assert (a + b)[1..] == a[1..] + b;
      FlatConcat(a[1..], b);
      Assoc(a[0], Flat(a[1..]), Flat(b));
    }
  }

  /** The splitter and the assembler concatenate alike. */
  lemma {:induction false} FlatIsConcat(parts: seq<Bytes>)
    ensures Flat(parts) == Splits.Concat(parts)
  {
    if parts != [] {
      var n := |parts| - 1;
      FlatIsConcat(parts[..n]);
      assert parts == parts[..n] + [parts[n]];
      FlatConcat(parts[..n], [parts[n]]);
      assert Flat([parts[n]]) == parts[n];
    }
  }

  // ----- the estimate -----

  datatype Estimate = Estimate(frames: nat, bytes: nat, reliability: Reliability)

  function EstimateImpact(mtu: nat, len: nat, rel: Reliability): Estimate {
    if FitsSingle(mtu, len, rel) then Estimate(1, Overhead(rel, false) + len, rel)
    else
      var r := NormalizeForSplit(rel);
      var count := CeilDiv(len, MaxPayload(mtu, r, true));
      Estimate(count, len + count * Overhead(r, true), r)
  }

  /** The longest payload piece that queueing puts in one frame. */
  function LongestPiece(mtu: nat, len: nat, rel: Reliability): nat {
    if FitsSingle(mtu, len, rel) then len else Min(len, MaxPayload(mtu, NormalizeForSplit(rel), true))
  }

  /** Every piece is short enough for its length field. */
  ghost predicate AllShort(parts: seq<Bytes>) { forall c <- parts :: |c| < 8192 }

  lemma AllShortCons(parts: seq<Bytes>)
    requires parts != []
    ensures AllShort(parts) <==> |parts[0]| < 8192 && AllShort(parts[1..])
  {
    if |parts[0]| < 8192 && AllShort(parts[1..]) {
      forall c <- parts ensures |c| < 8192 { assert c == parts[0] || c in parts[1..]; }
    }
  }

  lemma MulStep(n: nat, k: nat)
    requires n >= 1
    ensures n * k == k + (n - 1) * k
  {
  }

  lemma {:induction false} PartFramesSize(rel: Reliability, reliable: Seq24, sequence: Option<Seq24>, ordering: Option<Seq24>,
                       channel: u8, id: u16, count: nat, done: nat, parts: seq<Bytes>)
    ensures var total := FramesSize(PartFrames(rel, reliable, sequence, ordering, channel, id, count, done, parts));
            var most := |Flat(parts)| + |parts| * Overhead(rel, true);
            total <= most && (total == most <==> AllShort(parts))
    decreases |parts|
  {
    if parts != [] {
      var next := if rel.IsReliable() then Next(reliable) else reliable;
      var rest := PartFrames(rel, next, sequence, ordering, channel, id, count, done + 1, parts[1..]);
      PartFramesSize(rel, next, sequence, ordering, channel, id, count, done + 1, parts[1..]);
      BitLengthTruncates(|parts[0]|);
      var fs := PartFrames(rel, reliable, sequence, ordering, channel, id, count, done, parts);
      assert fs[1..] == rest && FramesSize(fs) == FrameSize(fs[0]) + FramesSize(rest);
      assert FrameSize(fs[0]) == Overhead(rel, true) + |parts[0]| % 8192;
      MulStep(|parts|, Overhead(rel, true));
      AllShortCons(parts);
    }
  }

  lemma {:induction false} ChunksLongest(payload: Bytes, size: nat)
    requires size >= 1
    ensures AllShort(Chunks(payload, size)) <==> Min(|payload|, size) < 8192
  {
    if payload != [] {
      var cs := Chunks(payload, size);
      assert cs[0] in cs;
      if Min(|payload|, size) < 8192 {
        ChunksCover(payload, size);
        var take := Min(|payload|, size);
        if take < size { assert payload[take..] == []; assert cs == [payload[..take]]; }
      }
    }
  }

  /** What back-pressure assumes of a payload against what queueing it adds: the number of
      frames is exact, the bytes are never more, and the bytes are exact if and only if every
      piece is short enough for its sixteen-bit length field. */
  lemma EstimateExact(n: Numbers, mtu: nat, payload: Bytes, rel: Reliability, channel: u8)
    ensures var e := EstimateImpact(mtu, |payload|, rel);
            var fs := FramesFor(n, mtu, payload, rel, channel).frames;
            && |fs| == e.frames && FramesSize(fs) <= e.bytes
            && (FramesSize(fs) == e.bytes <==> LongestPiece(mtu, |payload|, rel) < 8192)
  {
    var fs := FramesFor(n, mtu, payload, rel, channel).frames;
    if FitsSingle(mtu, |payload|, rel) {
      BitLengthTruncates(|payload|);
      assert FramesSize(fs) == FrameSize(fs[0]) + FramesSize(fs[1..]);
    } else {
      var r := NormalizeForSplit(rel);
      var size := MaxPayload(mtu, r, true);
      var parts := Chunks(payload, size);
      ChunksCover(payload, size);
      ChunksLongest(payload, size);
      var n0 := n.(split := (n.split + 1) % 0x1_0000);
      var (n1, ordering) := NumberOrdering(n0, r, channel);
      var (n2, sequence) := NumberSequence(n1, r, channel);
      PartFramesSize(r, n2.reliable, sequence, ordering, channel, n.split, |parts|, 0, parts);
    }
  }

  /** At an MTU of 20000 bytes a payload of 9000 goes out in one piece, and the estimate is 8192
      bytes more than what is queued. */
  lemma LongPieceMiscounted(n: Numbers, payload: Bytes, channel: u8)
    requires |payload| == 9000
    ensures FramesSize(FramesFor(n, 20000, payload, Unreliable, channel).frames) + 8192
         == EstimateImpact(20000, 9000, Unreliable).bytes
  {
    var fs := FramesFor(n, 20000, payload, Unreliable, channel).frames;
    BitLengthTruncates(9000);
    assert fs[1..] == [] && FramesSize(fs) == FrameSize(fs[0]) + FramesSize(fs[1..]);
  }

  // ----- back-pressure -----

  datatype Mode = Delay | Shed | Disconnect

  datatype Action = Allow | DropIt | Defer | DisconnectPeer

  datatype QueueLimits = QueueLimits(maxFrames: nat, maxBytes: nat, softRatio: real, mode: Mode)

  function SoftLimit(hard: nat, ratio: real): nat {
    var floor := (hard as real * ratio).Floor;
    if floor > 1 then floor else 1
  }

  function Decide(lim: QueueLimits, o: Outbox, e: Estimate, priority: Priority): Action {
    var frames, bytes := |o.heap| + e.frames, o.bytes + e.bytes;
    if frames > Max(lim.maxFrames, 1) || bytes > Max(lim.maxBytes, 1) then
      match lim.mode
      case Delay => Defer
      case Shed => if !e.reliability.IsReliable() || priority.Normal? || priority.Low? then DropIt else Defer
      case Disconnect => DisconnectPeer
    else if frames > SoftLimit(Max(lim.maxFrames, 1), lim.softRatio)
            || bytes > SoftLimit(Max(lim.maxBytes, 1), lim.softRatio) then Defer
    else Allow
  }

  /** What the queue would hold is over a limit. */
  predicate Over(o: Outbox, e: Estimate, maxFrames: nat, maxBytes: nat) {
    |o.heap| + e.frames > maxFrames || o.bytes + e.bytes > maxBytes
  }

  predicate OverHard(lim: QueueLimits, o: Outbox, e: Estimate) { Over(o, e, Max(lim.maxFrames, 1), Max(lim.maxBytes, 1)) }

  predicate OverSoft(lim: QueueLimits, o: Outbox, e: Estimate) {
    Over(o, e, SoftLimit(Max(lim.maxFrames, 1), lim.softRatio), SoftLimit(Max(lim.maxBytes, 1), lim.softRatio))
  }

  /** A payload is accepted exactly within all limits; it is dropped only over a hard limit in
      shedding mode, and never when it is reliable and of high priority; a disconnect is asked for
      exactly over a hard limit in disconnect mode. */
  lemma BackpressureRules(lim: QueueLimits, o: Outbox, e: Estimate, priority: Priority)
    ensures var d := Decide(lim, o, e, priority);
            && (d.Allow? <==> !OverHard(lim, o, e) && !OverSoft(lim, o, e))
            && (d.DropIt? ==> OverHard(lim, o, e) && lim.mode == Shed)
            && (d.DropIt? && e.reliability.IsReliable() ==> priority.Normal? || priority.Low?)
            && (d.DisconnectPeer? <==> OverHard(lim, o, e) && lim.mode == Disconnect)
            && (lim.mode == Delay ==> d.Allow? || d.Defer?)
  {
  }

  /** The queue is within its soft limits. */
  ghost predicate WithinSoft(lim: QueueLimits, o: Outbox) {
    && |o.heap| <= SoftLimit(Max(lim.maxFrames, 1), lim.softRatio)
    && o.bytes <= SoftLimit(Max(lim.maxBytes, 1), lim.softRatio)
  }

  datatype QueueResult = Enqueued(reliableBytes: nat) | Dropped | Deferred | DisconnectRequested

  function ReliableBytes(frames: seq<Frame>): nat {
    if frames == [] then 0
    else ReliableBytes(frames[..|frames| - 1])
         + if frames[|frames| - 1].header.reliability.IsReliable() then FrameSize(frames[|frames| - 1]) else 0
  }

  /** An accepted payload leaves the queue consistent and within its soft limits. */
  lemma AllowedStaysWithin(lim: QueueLimits, o: Outbox, n: Numbers, mtu: nat, payload: Bytes, rel: Reliability,
                           channel: u8, priority: Priority, receipt: Option<nat>)
    requires OutboxOk(o)
    requires Decide(lim, o, EstimateImpact(mtu, |payload|, rel), priority).Allow?
    ensures var fs := FramesFor(n, mtu, payload, rel, channel).frames;
            var p := PushFrames(o, fs, priority, receipt);
            OutboxOk(p) && WithinSoft(lim, p)
  {
    var fs := FramesFor(n, mtu, payload, rel, channel).frames;
    EstimateExact(n, mtu, payload, rel, channel);
    PushFramesOk(o, fs, priority, receipt);
  }
}
