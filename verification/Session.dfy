/** The session object of src/session/mod.rs. Its methods update it in place, as the original
    does, and each is proved to be the step of the sending or receiving half that the run
    theorems are about. */
module Sessions {
  import opened Base
  import opened Sequence24
  import opened Wire
  import opened Frames
  import opened Ack
  import opened AckQueues
  import opened Datagrams
  import opened Congestion
  import opened Pacing
  import opened Outboxes
  import opened Flights
  import opened Send
  import opened Receive
  import Reorder
  import Splits
  import Tracking
  import opened Conservation
  import opened Ticks

  class Session {
    const tunables: TxConfig
    const intake: RxConfig
    const nackFirst: bool

    var mtu: nat
    // sending
    var numbers: Numbers
    var outbox: Outbox
    var flight: Flight
    var incomingAcks: seq<Range>
    var incomingNacks: seq<Range>
    var cc: Cc
    var pace: Pace
    var disconnect: bool
    // receiving
    var readIndex: Seq24
    const tracker: Tracking.ReliableTracker
    const assembler: Splits.SplitAssembler
    const ordering: Reorder.OrderingChannels
    const outgoingAcks: AckQueue
    const outgoingNacks: AckQueue
    var nextAckFlush: Instant
    var nextNackFlush: Instant

    ghost function Tx(): Tx
      reads this
    {
      Send.Tx(mtu, numbers, outbox, flight, incomingAcks, incomingNacks, cc, pace, disconnect)
    }

    ghost function Rx(): Rx
      reads this, tracker, assembler, ordering, outgoingAcks, outgoingNacks
    {
      Receive.Rx(readIndex, tracker.Value(), assembler.entries, ordering.channels,
                 outgoingAcks.queue, outgoingNacks.queue, nextAckFlush, nextNackFlush)
    }

    ghost predicate Valid()
      reads this, tracker, assembler, ordering, outgoingAcks, outgoingNacks
    {
      && OutboxOk(outbox) && pace.budget >= 0.0
      && assembler.Valid() && ordering.Valid() && outgoingAcks != outgoingNacks
      && tracker.maxWindow == intake.reliableWindow
      && assembler.Lim() == intake.splits && ordering.Lim() == intake.ordering
      && outgoingAcks.maxRanges == intake.queueCapacity == outgoingNacks.maxRanges
    }

    /** A fresh session. The intake limits are given as the parts normalise them: at least one,
        and a positive time-to-live. */
    constructor (mtu: nat, tunables: TxConfig, intake: RxConfig, nackFirst: bool, channels: nat,
                 window: real, threshold: real, rto: real, startFull: bool, now: Instant)
      requires 0.0 < intake.splits.ttl && 1 <= intake.splits.maxParts && 1 <= intake.splits.maxConcurrent
      requires 1 <= intake.ordering.maxPending && 1 <= intake.ordering.maxGap
      ensures Valid() && InRange(cc, tunables.cc) && FreshTx(Tx(), tunables)
      ensures this.mtu == mtu && this.tunables == tunables && this.intake == intake && this.nackFirst == nackFirst
      ensures readIndex == 0 && tracker.Value() == Tracking.Tracker(0, []) && assembler.entries == map[]
      ensures (forall c <- ordering.channels :: c == Reorder.FRESH) && outgoingAcks.queue == [] == outgoingNacks.queue
      ensures fresh(tracker) && fresh(assembler) && fresh(ordering) && fresh(outgoingAcks) && fresh(outgoingNacks)
      ensures numbers.write == 0 && numbers.split == 0 && (forall c <- numbers.ordering :: c == 0)
      ensures pace.budget == if startFull then tunables.pace.maxBudget else 0.0
    {
      this.tunables, this.intake, this.nackFirst, this.mtu := tunables, intake, nackFirst, mtu;
      numbers := Numbers(0, 0, 0, seq(16, _ => 0), seq(16, _ => 0));
      outbox := Outbox(multiset{}, Weights(BASE_WEIGHTS, 0), 0);
      flight := Flight(map[], map[]);
      incomingAcks, incomingNacks := [], [];
      var settings := tunables.cc;
      cc := Cc(None, 0.0, Clamp(rto, settings.minRto, settings.maxRto),
               MaxReal(Clamp(window, settings.minWindow, settings.maxWindow), 1.0),
               Clamp(threshold, settings.minWindow, settings.maxWindow), now);
      pace := Pace(if startFull then tunables.pace.maxBudget else 0.0, tunables.pace.minRate, now);
      disconnect := false;
      readIndex := 0;
      tracker := new Tracking.ReliableTracker(intake.reliableWindow);
      assembler := new Splits.SplitAssembler(intake.splits.ttl, intake.splits.maxParts, intake.splits.maxConcurrent);
      ordering := new Reorder.OrderingChannels(channels, intake.ordering.maxPending, intake.ordering.maxGap);
      outgoingAcks := new AckQueue(intake.queueCapacity);
      outgoingNacks := new AckQueue(intake.queueCapacity);
      nextAckFlush, nextNackFlush := now, now;
    }

    // ----- datagram numbers -----

    method PushAck(s: Seq24, now: Instant)
      requires Valid()
      modifies this`nextAckFlush, outgoingAcks
      ensures Valid() && Rx() == NoteAck(old(Rx()), intake, s, now) && Tx() == old(Tx())
    {
      var wasEmpty := outgoingAcks.queue == [];
      outgoingAcks.Add(Single(s));
      if wasEmpty { nextAckFlush := now + intake.ackFlushInterval; }
    }

    /** Walks from `start` to the end of the next piece to report. */
    method ChunkEnd(start: Seq24, end: Seq24) returns (cut: Seq24)
      requires DistanceTo(start, end) < HALF
      ensures cut == if DistanceTo(start, end) < MAX_ACK_SEQUENCES then end else Plus(start, MAX_ACK_SEQUENCES - 1)
    {
      cut := start;
      var count: nat := 0;
      while count < MAX_ACK_SEQUENCES - 1 && Lt(cut, end)
        invariant count <= MAX_ACK_SEQUENCES - 1 && count <= DistanceTo(start, end) && cut == Plus(start, count)
        decreases MAX_ACK_SEQUENCES - count
      {
        CmpByDistance(cut, end);
        cut := Next(cut);
        count := count + 1;
      }
      CmpByDistance(cut, end);
    }

    method PushNack(r: Range, now: Instant)
      modifies this`nextNackFlush, outgoingNacks
      ensures outgoingNacks.queue == Push(old(outgoingNacks.queue), outgoingNacks.maxRanges, r)
      ensures nextNackFlush == if old(outgoingNacks.queue) == [] then now + intake.nackFlushInterval else old(nextNackFlush)
    {
      var wasEmpty := outgoingNacks.queue == [];
      outgoingNacks.Add(r);
      if wasEmpty { nextNackFlush := now + intake.nackFlushInterval; }
    }

    method PushChunks(from: Seq24, to: Seq24, now: Instant, ghost rx: Rx)
      requires DistanceTo(from, to) < HALF && outgoingNacks.maxRanges == intake.queueCapacity
      requires rx.nacks == outgoingNacks.queue && rx.nextNackFlush == nextNackFlush
      modifies this`nextNackFlush, outgoingNacks
      ensures Reported(rx, intake, NackChunks(from, to), outgoingNacks.queue, nextNackFlush, now)
    {
      var start := from;
      ghost var done: seq<Range> := [];
      while true
        invariant Reporting(rx, intake, from, to, start, done, outgoingNacks.queue, nextNackFlush, now)
        decreases DistanceTo(start, to)
      {
        var cut := ChunkEnd(start, to);
        ReportNext(rx, intake, from, to, start, done, outgoingNacks.queue, nextNackFlush, now, cut);
        PushNack(Range(start, cut), now);
        done := done + [Range(start, cut)];
        if cut == to { break; }
        start := Next(cut);
      }
    }

    method PushNacks(from: Seq24, to: Seq24, now: Instant)
      requires Valid() && DistanceTo(from, to) < HALF
      modifies this`nextNackFlush, outgoingNacks
      ensures Valid() && Tx() == old(Tx())
      ensures var rx := old(Rx());
              Rx() == rx.(nacks := PushAll(rx.nacks, intake.queueCapacity, NackChunks(from, to)),
                          nextNackFlush := if rx.nacks == [] then now + intake.nackFlushInterval else rx.nextNackFlush)
    {
      PushChunks(from, to, now, Rx());
    }

    method ProcessDatagramSequence(s: Seq24, now: Instant)
      requires Valid()
      modifies this`readIndex, this`nextAckFlush, this`nextNackFlush, outgoingAcks, outgoingNacks
      ensures Valid() && Rx() == NoteNumber(old(Rx()), intake, s, now) && Tx() == old(Tx())
    {
      var expected := readIndex;
      if Gt(expected, s) {
        PushAck(s, now);
        return;
      }
      readIndex := Next(s);
      if s != expected {
        CmpByDistance(expected, s);
        PushNacks(expected, Prev(s), now);
      }
      PushAck(s, now);
    }

    // ----- frames -----

    /** A whole frame meets the ordering channels; sequenced frames pass only if newer. */
    method ReleaseFrame(g: Frame) returns (out: seq<Frame>)
      requires Valid()
      modifies ordering
      ensures Valid() && (Rx(), Ok(out)) == Release(old(Rx()), intake, g)
    {
      if g.header.reliability.IsSequenced() {
        var r := ordering.HandleSequencedFrame(g);
        return if r.Accept? then [g] else [];
      }
      if g.header.reliability.IsOrdered() {
        var r := ordering.HandleOrderedFrame(g);
        return if r.Ready? then r.frames else [];
      }
      out := [g];
    }

    method TakeFrameIn(f: Frame, now: Instant) returns (r: Result<seq<Frame>, DecodeError>)
      requires Valid()
      modifies tracker, assembler, ordering
      ensures Valid() && (Rx(), r) == HandleFrame(old(Rx()), intake, f, now)
    {
      var isSplit := f.header.isSplit;
      if f.header.reliability.IsReliable() && !isSplit && f.reliableIndex.Some? {
        var seen := tracker.IsSeen(f.reliableIndex.value);
        if seen { return Ok([]); }
      }
      var assembled := assembler.AddFrame(f, now);
      if assembled.Err? { return Err(assembled.error); }
      if assembled.value.None? { return Ok([]); }
      var g := assembled.value.value;
      if !isSplit && g.header.reliability.IsReliable() && g.reliableIndex.Some? {
        var _ := tracker.Mark(g.reliableIndex.value);
      }
      var out := ReleaseFrame(g);
      r := Ok(out);
    }

    /** The frames of a datagram in turn; an error ends it and nothing is handed up. */
    method HandleAllFrames(frames: seq<Frame>, now: Instant) returns (r: Result<seq<Frame>, DecodeError>)
      requires Valid()
      modifies tracker, assembler, ordering
      ensures Valid() && Tx() == old(Tx())
      ensures var t := HandleFrames(old(Rx()), intake, frames, now); Rx() == t.rx && r == HandedUp(t)
    {
      var out: seq<Frame> := [];
      ghost var rx := Rx();
      for i := 0 to |frames|
        invariant Valid() && Tx() == old(Tx())
        invariant HandleFrames(rx, intake, frames[..i], now) == Taken(Rx(), out, None)
      {
        assert frames[..i + 1][..i] == frames[..i];
        var step := TakeFrameIn(frames[i], now);
        if step.Err? {
          StopsThere(rx, intake, frames, i + 1, now);
          return Err(step.error);
        }
        out := out + step.value;
      }
      assert frames[..|frames|] == frames;
      r := Ok(out);
    }

    method IngestDatagram(d: Datagram, now: Instant) returns (r: Result<seq<Frame>, DecodeError>)
      requires Valid()
      modifies this`readIndex, this`nextAckFlush, this`nextNackFlush, this`incomingAcks, this`incomingNacks
      modifies tracker, assembler, ordering, outgoingAcks, outgoingNacks
      ensures Valid()
      ensures match d.payload
              case AckPayload(acks) => r == Ok([]) && Rx() == old(Rx()) && Tx() == Step(old(Tx()), tunables, AckIn(acks))
              case NackPayload(nacks) => r == Ok([]) && Rx() == old(Rx()) && Tx() == Step(old(Tx()), tunables, NackIn(nacks))
              case FramesPayload(frames) =>
                var t := IngestFrames(old(Rx()), intake, d.sequence, frames, now);
                Rx() == t.rx && r == HandedUp(t) && Tx() == old(Tx())
    {
      match d.payload {
        case AckPayload(acks) => incomingAcks := incomingAcks + acks; return Ok([]);
        case NackPayload(nacks) => incomingNacks := incomingNacks + nacks; return Ok([]);
        case FramesPayload(frames) =>
          ProcessDatagramSequence(d.sequence, now);
          r := HandleAllFrames(frames, now);
      }
    }

    // ----- acknowledgements out -----

    method DrainAckDatagram(now: Instant) returns (d: Option<Datagram>)
      requires Valid()
      modifies this`nextAckFlush, outgoingAcks
      ensures Valid() && (Rx(), d) == DrainAcks(old(Rx()), intake, mtu, now) && Tx() == old(Tx())
    {
      var ranges := outgoingAcks.PopForMtu(mtu, 3, intake.ackMaxRanges);
      DrainedPrefix(ranges, outgoingAcks.queue, old(outgoingAcks.queue));
      if ranges == [] { return None; }
      nextAckFlush := now + intake.ackFlushInterval;
      d := Some(Datagram(FLAGS_ACK, 0, AckPayload(ranges)));
    }

    method DrainNackDatagram(now: Instant) returns (d: Option<Datagram>)
      requires Valid()
      modifies this`nextNackFlush, outgoingNacks
      ensures Valid() && (Rx(), d) == DrainNacks(old(Rx()), intake, mtu, now) && Tx() == old(Tx())
    {
      var ranges := outgoingNacks.PopForMtu(mtu, 3, intake.nackMaxRanges);
      DrainedPrefix(ranges, outgoingNacks.queue, old(outgoingNacks.queue));
      if ranges == [] { return None; }
      nextNackFlush := now + intake.nackFlushInterval;
      d := Some(Datagram(FLAGS_NACK, 0, NackPayload(ranges)));
    }

    // ----- queueing -----

    method NextReliableIndex() returns (index: Seq24)
      modifies this`numbers
      ensures index == old(numbers.reliable) && numbers == old(numbers).(reliable := Next(index))
    {
      index := numbers.reliable;
      numbers := numbers.(reliable := Next(index));
    }

    method NextOrderingIndex(rel: Reliability, channel: u8) returns (index: Option<Seq24>)
      modifies this`numbers
      ensures (numbers, index) == NumberOrdering(old(numbers), rel, channel)
    {
      if !rel.HasOrdering() { return None; }
      if channel >= |numbers.ordering| {
        numbers := numbers.(ordering := numbers.ordering + seq(channel + 1 - |numbers.ordering|, _ => 0));
      }
      index := Some(numbers.ordering[channel]);
      numbers := numbers.(ordering := numbers.ordering[channel := Next(index.value)]);
    }

    method NextSequenceIndex(rel: Reliability, channel: u8) returns (index: Option<Seq24>)
      modifies this`numbers
      ensures (numbers, index) == NumberSequence(old(numbers), rel, channel)
    {
      if !rel.IsSequenced() { return None; }
      if channel >= |numbers.sequencing| {
        numbers := numbers.(sequencing := numbers.sequencing + seq(channel + 1 - |numbers.sequencing|, _ => 0));
      }
      index := Some(numbers.sequencing[channel]);
      numbers := numbers.(sequencing := numbers.sequencing[channel := Next(index.value)]);
    }

    method TakeWeight(priority: Priority) returns (weight: nat)
      modifies this`outbox
      ensures var (weights, w) := NextWeight(old(outbox.weights), old(outbox.heap) == multiset{}, priority.Level());
              weight == w && outbox == old(outbox).(weights := weights)
    {
      var level := priority.Level();
      var table := outbox.weights;
      weight := table.next[level];
      var next := table.next;
      if outbox.heap != multiset{} {
        if weight >= table.lastMin {
          weight := table.lastMin + Shift(level) * level + level;
          next := next[level := weight + Shift(level) * (level + 1) + level];
        }
      } else {
        next := BASE_WEIGHTS;
      }
      outbox := outbox.(weights := Weights(next, weight - Shift(level) * level + level));
    }

    method PushOutgoingFrame(f: Frame, priority: Priority, receipt: Option<nat>)
      modifies this`outbox
      ensures outbox == PushFrame(old(outbox), f, priority, receipt)
    {
      var weight := TakeWeight(priority);
      var q := Queued(weight, FrameSize(f), f.header.reliability.IsReliable(), priority, receipt, f);
      outbox := outbox.(bytes := outbox.bytes + FrameSize(f), heap := outbox.heap + multiset{q});
    }

    method EnqueueSingleFrame(payload: Bytes, rel: Reliability, channel: u8, priority: Priority, receipt: Option<nat>)
      returns (bytes: nat)
      modifies this`numbers, this`outbox
      ensures var built := SingleFrames(old(numbers), payload, rel, channel);
              && numbers == built.numbers && outbox == PushFrames(old(outbox), built.frames, priority, receipt)
              && bytes == ReliableBytes(built.frames)
    {
      var order := NextOrderingIndex(rel, channel);
      var sequence := NextSequenceIndex(rel, channel);
      ghost var reliable := numbers.reliable;
      var index: Option<Seq24> := None;
      if rel.IsReliable() {
        var i := NextReliableIndex();
        index := Some(i);
      }
      var f := Frame(FrameHeader(rel, false, false), BitLength(|payload|), index, sequence, order,
                     if order.Some? then Some(channel) else None, None, payload);
      assert f == SingleFrame(rel, reliable, sequence, order, channel, payload);
      PushOutgoingFrame(f, priority, receipt);
      bytes := if rel.IsReliable() then FrameSize(f) else 0;
      OneFrame(old(outbox), f, priority, receipt);
    }

    method NextSplitId() returns (id: u16)
      modifies this`numbers
      ensures id == old(numbers.split) && numbers == old(numbers).(split := (id + 1) % 0x1_0000)
    {
      id := numbers.split;
      numbers := numbers.(split := (id + 1) % 0x1_0000);
    }

    /** Cuts the payload into parts and queues a frame for each. */
    method PushParts(payload: Bytes, size: nat, rel: Reliability, sequence: Option<Seq24>, order: Option<Seq24>, channel: u8,
                     id: u16, count: nat, priority: Priority, receipt: Option<nat>)
      returns (bytes: nat)
      requires rel.IsReliable() && size >= 1 && count == |Chunks(payload, size)|
      modifies this`numbers, this`outbox
      ensures var parts := Chunks(payload, size);
              var frames := PartFrames(rel, old(numbers.reliable), sequence, order, channel, id, count, 0, parts);
              && numbers == old(numbers).(reliable := Skip(old(numbers.reliable), count))
              && outbox == PushFrames(old(outbox), frames, priority, receipt) && bytes == ReliableBytes(frames)
    {
      ghost var job := Job(payload, size, rel, sequence, order, channel, id, count, priority, receipt, numbers.reliable, outbox);
      ghost var made: seq<Frame> := [];
      var rest := payload;
      bytes := 0;
      for i := 0 to count
        invariant PartsDone(job, i, rest, numbers.reliable, made, outbox, bytes)
        invariant numbers == old(numbers).(reliable := numbers.reliable)
      {
        var take := Min(|rest|, size);
        PartsNext(job, i, rest, numbers.reliable, made, outbox, bytes);
        var f := PushPart(rest[..take], rel, sequence, order, channel, SplitInfo(CastU32(count), id, CastU32(i)), priority, receipt);
        bytes := bytes + FrameSize(f);
        rest := rest[take..];
        made := made + [f];
      }
      PartsEnd(job, rest, numbers.reliable, made, outbox, bytes);
    }

    method PushPart(part: Bytes, rel: Reliability, sequence: Option<Seq24>, order: Option<Seq24>, channel: u8,
                    split: SplitInfo, priority: Priority, receipt: Option<nat>)
      returns (f: Frame)
      requires rel.IsReliable()
      modifies this`numbers, this`outbox
      ensures f == PartFrame(rel, old(numbers.reliable), sequence, order, channel, split, part)
      ensures numbers == old(numbers).(reliable := Next(old(numbers.reliable)))
      ensures outbox == PushFrame(old(outbox), f, priority, receipt)
    {
      var index := NextReliableIndex();
      f := Frame(FrameHeader(rel, true, false), BitLength(|part|), Some(index), sequence, order,
                 if order.Some? then Some(channel) else None, Some(split), part);
      PushOutgoingFrame(f, priority, receipt);
    }

    method EnqueueSplitFrames(payload: Bytes, rel: Reliability, channel: u8, priority: Priority, receipt: Option<nat>)
      returns (bytes: nat)
      modifies this`numbers, this`outbox
      ensures var built := SplitFrames(old(numbers), mtu, payload, rel, channel);
              && numbers == built.numbers && outbox == PushFrames(old(outbox), built.frames, priority, receipt)
              && bytes == ReliableBytes(built.frames)
    {
      var r := NormalizeForSplit(rel);
      var id := NextSplitId();
      ghost var n0 := numbers;
      var order := NextOrderingIndex(r, channel);
      ghost var n1 := numbers;
      var sequence := NextSequenceIndex(r, channel);
      SplitFramesFrom(old(numbers), mtu, payload, rel, channel, n0, n1, order, numbers, sequence);
      var size := MaxPayload(mtu, r, true);
      var count := CountParts(payload, size);
      bytes := PushParts(payload, size, r, sequence, order, channel, id, count, priority, receipt);
    }

    method CountParts(payload: Bytes, size: nat) returns (count: nat)
      requires size >= 1
      ensures count == |Chunks(payload, size)|
    {
      ChunksCover(payload, size);
      count := CeilDiv(|payload|, size);
    }

    method Enqueue(payload: Bytes, rel: Reliability, channel: u8, priority: Priority, receipt: Option<nat>) returns (bytes: nat)
      modifies this`numbers, this`outbox
      ensures var built := FramesFor(old(numbers), mtu, payload, rel, channel);
              && numbers == built.numbers && outbox == PushFrames(old(outbox), built.frames, priority, receipt)
              && bytes == ReliableBytes(built.frames)
    {
      if |payload| <= MaxPayload(mtu, rel, false) {
        bytes := EnqueueSingleFrame(payload, rel, channel, priority, receipt);
      } else {
        bytes := EnqueueSplitFrames(payload, rel, channel, priority, receipt);
      }
    }

    method QueuePayloadWithReceipt(payload: Bytes, rel: Reliability, channel: u8, priority: Priority, receipt: Option<nat>)
      returns (r: QueueResult)
      requires Valid()
      modifies this`numbers, this`outbox, this`disconnect
      ensures Valid() && Rx() == old(Rx())
      ensures (Tx(), r) == QueuePayload(old(Tx()), tunables, payload, rel, channel, priority, receipt)
    {
      match Decide(tunables.queue, outbox, EstimateImpact(mtu, |payload|, rel), priority) {
        case DropIt => r := Dropped;
        case Defer => r := Deferred;
        case DisconnectPeer =>
          disconnect := true;
          r := DisconnectRequested;
        case Allow => r := Admit(payload, rel, channel, priority, receipt);
      }
    }

    method Admit(payload: Bytes, rel: Reliability, channel: u8, priority: Priority, receipt: Option<nat>)
      returns (r: QueueResult)
      requires Valid() && Decide(tunables.queue, outbox, EstimateImpact(mtu, |payload|, rel), priority) == Allow
      modifies this`numbers, this`outbox
      ensures Valid() && Rx() == old(Rx())
      ensures (Tx(), r) == QueuePayload(old(Tx()), tunables, payload, rel, channel, priority, receipt)
    {
      ghost var built := FramesFor(numbers, mtu, payload, rel, channel);
      PushFramesOk(outbox, built.frames, priority, receipt);
      QueueAdmitted(Tx(), tunables, payload, rel, channel, priority, receipt, built);
      var bytes := Enqueue(payload, rel, channel, priority, receipt);
      r := Enqueued(bytes);
    }

    // ----- acknowledgements in -----

    method CountOff(ids: seq<nat>) returns (reported: seq<nat>)
      modifies this`flight
      ensures (flight.receipts, reported) == ReleaseReceipts(old(flight.receipts), ids) && flight.sent == old(flight.sent)
    {
      reported := [];
      for i := 0 to |ids|
        invariant (flight.receipts, reported) == ReleaseReceipts(old(flight.receipts), ids[..i]) && flight.sent == old(flight.sent)
      {
        assert ids[..i + 1][..i] == ids[..i];
        var id := ids[i];
        if id in flight.receipts {
          if flight.receipts[id] > 1 {
            flight := flight.(receipts := flight.receipts[id := flight.receipts[id] - 1]);
          } else {
            flight := flight.(receipts := flight.receipts - {id});
            reported := reported + [id];
          }
        }
      }
      assert ids[..|ids|] == ids;
    }

    method AckOne(s: Seq24, now: Instant) returns (removed: bool, reported: seq<nat>)
      modifies this`flight, this`cc
      ensures (Tx(), reported) == AckNumber(old(Tx()), tunables, s, now) && removed == (s in old(flight.sent))
    {
      if s !in flight.sent { return false, []; }
      var acked := flight.sent[s];
      flight := flight.(sent := flight.sent - {s});
      cc := OnReliableAck(cc, tunables.cc);
      if acked.retries == 0 { cc := ObserveRtt(cc, tunables.cc, Since(now, acked.sendTime)); }
      reported := CountOff(acked.receiptIds);
      removed := true;
    }

    /** Visits the numbers of a range from its start to its end. */
    method AckRange(r: Range, now: Instant, was: nat, ids: seq<nat>, ghost start: Tx, ghost before: seq<Seq24>)
      returns (acked: nat, reported: seq<nat>)
      requires AckedSoFar(start, tunables, before, now, Tx(), was, ids)
      modifies this`flight, this`cc
      ensures AckedSoFar(start, tunables, before + Walk(r.start, r.end), now, Tx(), acked, reported)
    {
      var s := r.start;
      ghost var visited := before;
      acked, reported := was, ids;
      while true
        invariant before + Walk(r.start, r.end) == visited + Walk(s, r.end)
        invariant AckedSoFar(start, tunables, visited, now, Tx(), acked, reported)
        decreases DistanceTo(s, r.end)
      {
        ghost var tx := Tx();
        var removed, more := AckOne(s, now);
        AckedNext(start, tunables, visited, now, tx, acked, reported, s);
        if removed { acked := acked + 1; }
        reported := reported + more;
        WalkNext(visited, s, r.end);
        visited := visited + [s];
        if s == r.end { break; }
        s := Next(s);
      }
    }

    method WorkOffAcks(now: Instant) returns (acked: nat, reported: seq<nat>)
      modifies this`flight, this`cc, this`incomingAcks
      ensures incomingAcks == []
      ensures (Tx(), acked, reported) == AckNumbers(old(Tx()).(incomingAcks := []), tunables, WalkAll(old(incomingAcks)), now)
    {
      ghost var start, ranges := Tx(), incomingAcks;
      ghost var done: nat := 0;
      acked, reported := 0, [];
      while incomingAcks != []
        invariant done <= |ranges| && incomingAcks == ranges[done..]
        invariant AckedSoFar(start, tunables, WalkAll(ranges[..done]), now, Tx(), acked, reported)
        decreases |incomingAcks|
      {
        var r := incomingAcks[0];
        incomingAcks := incomingAcks[1..];
        acked, reported := AckRange(r, now, acked, reported, start, WalkAll(ranges[..done]));
        WalkAllNext(ranges, done);
        done := done + 1;
      }
      assert ranges[..done] == ranges;
    }

    method NackOne(s: Seq24, now: Instant) returns (hit: bool)
      modifies this`flight
      ensures (flight, hit) == ScheduleResend(old(flight), s, now)
    {
      hit := s in flight.sent && flight.sent[s].resendable && flight.sent[s].nextSend > now;
      if hit {
        flight := flight.(sent := flight.sent[s := flight.sent[s].(nextSend := now, nackPending := true)]);
      }
    }

    method NackRange(r: Range, now: Instant, was: nat, ghost start: Tx, ghost before: seq<Seq24>) returns (nacked: nat)
      requires NackedSoFar(start, before, now, Tx(), was)
      modifies this`flight
      ensures NackedSoFar(start, before + Walk(r.start, r.end), now, Tx(), nacked)
    {
      var s := r.start;
      ghost var visited := before;
      nacked := was;
      while true
        invariant before + Walk(r.start, r.end) == visited + Walk(s, r.end)
        invariant NackedSoFar(start, visited, now, Tx(), nacked)
        decreases DistanceTo(s, r.end)
      {
        ghost var tx := Tx();
        var hit := NackOne(s, now);
        NackedNext(start, visited, now, tx, nacked, s);
        if hit { nacked := nacked + 1; }
        WalkNext(visited, s, r.end);
        visited := visited + [s];
        if s == r.end { break; }
        s := Next(s);
      }
    }

    method WorkOffNacks(now: Instant) returns (nacked: nat)
      modifies this`flight, this`incomingNacks
      ensures incomingNacks == []
      ensures (Tx(), nacked) == NackNumbers(old(Tx()).(incomingNacks := []), WalkAll(old(incomingNacks)), now)
    {
      ghost var start, ranges := Tx(), incomingNacks;
      ghost var done: nat := 0;
      nacked := 0;
      while incomingNacks != []
        invariant done <= |ranges| && incomingNacks == ranges[done..]
        invariant NackedSoFar(start, WalkAll(ranges[..done]), now, Tx(), nacked)
        decreases |incomingNacks|
      {
        var r := incomingNacks[0];
        incomingNacks := incomingNacks[1..];
        nacked := NackRange(r, now, nacked, start, WalkAll(ranges[..done]));
        WalkAllNext(ranges, done);
        done := done + 1;
      }
      assert ranges[..done] == ranges;
    }

    method ProcessIncomingReceipts(now: Instant) returns (progress: ReceiptProgress)
      requires Valid()
      modifies this`flight, this`cc, this`incomingAcks, this`incomingNacks
      ensures Valid() && Rx() == old(Rx()) && (Tx(), progress) == Process(old(Tx()), tunables, now)
    {
      var acked, reported := WorkOffAcks(now);
      var nacked := WorkOffNacks(now);
      if nacked > 0 { cc := OnNackLoss(cc, tunables.cc, now); }
      progress := ReceiptProgress(acked, nacked, reported);
    }

    // ----- resending -----

    /** The first key in the order of the table. */
    method FirstOf(todo: set<Seq24>, ghost base: Seq24) returns (k: Seq24)
      requires todo != {} && InWindow(base, todo)
      ensures k in todo && forall j <- todo | j != k :: DistanceTo(base, k) < DistanceTo(base, j)
    {
      ghost var least := LeastKey(base, todo);
      k :| k in todo && forall j <- todo :: !Gt(k, j);
      forall j <- todo | j != k ensures DistanceTo(base, k) < DistanceTo(base, j) { LeastFirst(base, todo, k, j); }
    }

    /** The tracked numbers in the order of the table. */
    method KeysInOrder(ghost base: Seq24) returns (keys: seq<Seq24>)
      requires InWindow(base, flight.sent.Keys)
      ensures InOrder(base, keys) && forall k: Seq24 :: k in keys <==> k in flight.sent
    {
      keys := [];
      var todo := flight.sent.Keys;
      while todo != {}
        invariant todo <= flight.sent.Keys && InOrder(base, keys)
        invariant forall k: Seq24 :: k in flight.sent <==> k in keys || k in todo
        invariant forall s <- keys, k <- todo :: DistanceTo(base, s) < DistanceTo(base, k)
        decreases |todo|
      {
        var k := FirstOf(todo, base);
        InOrderMore(base, keys, k);
        todo := todo - {k};
        keys := keys + [k];
      }
    }

    /** Goes through the tracked datagrams in number order and selects those due, until the count
        or the byte budget is used up. */
    method SelectDue(keys: seq<Seq24>, now: Instant, maxCount: nat, maxBytes: nat) returns (selected: seq<Seq24>, timedOut: bool)
      requires forall k <- keys :: k in flight.sent
      ensures var c := Choose(flight.sent, keys, now, maxCount, maxBytes); selected == c.selected && timedOut == c.timedOut
    {
      selected, timedOut := [], false;
      var total: nat := 0;
      for i := 0 to |keys|
        invariant Choose(flight.sent, keys[..i], now, maxCount, maxBytes) == Choice(selected, total, timedOut, false)
      {
        ChooseNext(flight.sent, keys, i, now, maxCount, maxBytes);
        var t := flight.sent[keys[i]];
        var size := DatagramSize(t.datagram);
        if |selected| >= maxCount || (t.resendable && t.nextSend <= now && total + size > maxBytes) {
          ChoiceStops(flight.sent, keys, i + 1, now, maxCount, maxBytes);
          return;
        }
        if t.resendable && t.nextSend <= now {
          total := total + size;
          timedOut := timedOut || !t.nackPending;
          selected := selected + [keys[i]];
        }
      }
      assert keys[..|keys|] == keys;
    }

    method CollectDue(now: Instant, maxCount: nat, maxBytes: nat) returns (due: seq<Seq24>, timedOut: bool)
      requires Orderly(Tx())
      ensures Resends(Tx(), due, maxCount, maxBytes, now) && InTurn(Tx(), due, now) && timedOut == TimesOut(Tx(), due)
    {
      ghost var tx := Tx();
      OrderedIff(tx.flight.sent.Keys);
      ghost var base: Seq24 :| InWindow(base, tx.flight.sent.Keys);
      var keys := KeysInOrder(base);
      due, timedOut := SelectDue(keys, now, maxCount, maxBytes);
      ChosenWell(tx, base, keys, now, maxCount, maxBytes);
    }

    method ResendAll(due: seq<Seq24>, timedOut: bool, now: Instant) returns (out: seq<Datagram>)
      requires timedOut == TimesOut(Tx(), due)
      modifies this`flight, this`cc
      ensures Tx() == Resend(old(Tx()), tunables, due, now) && out == Selected(old(Tx()), due)
    {
      if due == [] { return []; }
      if timedOut { cc := OnTimeout(cc, tunables.cc, now); }
      out := MarkResent(due, now, old(Tx()));
    }

    method CollectResendable(now: Instant, maxCount: nat, maxBytes: nat)
      returns (out: seq<Datagram>, ghost selected: seq<Seq24>)
      requires Orderly(Tx())
      modifies this`flight, this`cc
      ensures Resends(old(Tx()), selected, maxCount, maxBytes, now) && InTurn(old(Tx()), selected, now)
      ensures Tx() == Resend(old(Tx()), tunables, selected, now) && out == Selected(old(Tx()), selected)
    {
      var due, timedOut := CollectDue(now, maxCount, maxBytes);
      selected := due;
      out := ResendAll(due, timedOut, now);
    }

    method MarkResent(due: seq<Seq24>, now: Instant, ghost tx: Tx) returns (out: seq<Datagram>)
      requires tx.flight == flight
      modifies this`flight
      ensures flight == ResentAll(old(flight), due, now, cc.rto) && out == Selected(tx, due)
    {
      out := [];
      for i := 0 to |due|
        invariant flight == ResentAll(old(flight), due[..i], now, cc.rto) && out == Selected(tx, due[..i])
      {
        assert due[..i + 1][..i] == due[..i];
        Emission.ResentKeeps(old(flight), due[..i], now, cc.rto);
        Emission.ResentKeys(old(flight), due[..i], now, cc.rto);
        var s := due[i];
        if s in flight.sent {
          var t := flight.sent[s];
          flight := flight.(sent := flight.sent[s :=
            t.(sendTime := now, nextSend := now + cc.rto, retries := t.retries + 1, nackPending := false)]);
          out := out + [t.datagram];
        }
      }
      assert due[..|due|] == due;
    }

    // ----- building datagrams -----

    method PopMin() returns (q: Queued)
      requires outbox.heap != multiset{}
      modifies this`outbox
      ensures q in old(outbox.heap) && (forall p <- old(outbox.heap) :: q.weight <= p.weight)
      ensures outbox == old(outbox).(heap := old(outbox.heap) - multiset{q})
    {
      ghost var least := Lightest(outbox.heap);
      q :| q in outbox.heap && forall p <- outbox.heap :: q.weight <= p.weight;
      outbox := outbox.(heap := outbox.heap - multiset{q});
    }

    /** The lightest queued frame that still fits, leaving the others queued; none if and only if
        no queued frame fits. */
    method PopNextFrame(allowReliable: bool, size: nat, budget: nat) returns (q: Option<Queued>)
      modifies this`outbox
      ensures q.None? ==> outbox == old(outbox) && forall p <- old(outbox.heap) :: !Fits(p, mtu, allowReliable, size, budget)
      ensures q.Some? ==> && q.value in old(outbox.heap) && Fits(q.value, mtu, allowReliable, size, budget)
                          && outbox == old(outbox).(heap := old(outbox.heap) - multiset{q.value})
                          && forall p <- old(outbox.heap) :: Fits(p, mtu, allowReliable, size, budget) ==> q.value.weight <= p.weight
    {
      var deferred: seq<Queued> := [];
      q := None;
      while outbox.heap != multiset{}
        invariant q.None? && outbox == old(outbox).(heap := outbox.heap)
        invariant outbox.heap + multiset(deferred) == old(outbox.heap)
        invariant forall p <- deferred :: !Fits(p, mtu, allowReliable, size, budget)
        decreases |outbox.heap|
      {
        var candidate := PopMin();
        if Fits(candidate, mtu, allowReliable, size, budget) {
          q := Some(candidate);
          break;
        }
        deferred := deferred + [candidate];
      }
      PutBackAll(deferred);
      if q.None? { DeferredAll(deferred, old(outbox.heap), mtu, allowReliable, size, budget); }
    }

    method PutBackAll(deferred: seq<Queued>)
      modifies this`outbox
      ensures outbox == old(outbox).(heap := old(outbox.heap) + multiset(deferred))
    {
      for i := 0 to |deferred|
        invariant outbox == old(outbox).(heap := old(outbox.heap) + multiset(deferred[..i]))
      {
        assert deferred[..i + 1] == deferred[..i] + [deferred[i]];
        outbox := outbox.(heap := outbox.heap + multiset{deferred[i]});
      }
      assert deferred[..|deferred|] == deferred;
    }

    /** Fills a datagram from the queue. */
    method PickFrames(budget: nat) returns (load: Load, remaining: nat, ghost picked: seq<Queued>)
      modifies this`outbox
      ensures Picked(old(Tx()), picked, budget, remaining, outbox) && load == LoadOf(picked)
      ensures picked == [] ==> NothingFits(old(Tx()), budget)
      ensures LightestFirst(old(Tx()), picked, budget) && NoneLeft(old(Tx()), picked, budget)
    {
      load, remaining, picked := Load([], [], false, false), budget, [];
      var size: nat := HEADER_SIZE;
      ghost var tx := Tx();
      FillingStart(tx, budget);
      while true
        invariant Filling(tx, picked, budget, remaining, outbox, size, load) && LightestFirst(tx, picked, budget)
        decreases |outbox.heap|
      {
        ghost var before := outbox;
        var q := PopNextFrame(load.hasReliable || CanEmit(cc, |flight.sent|), size, remaining);
        if q.None? {
          FillingStops(tx, picked, budget, remaining, before, size, load);
          break;
        }
        var item := q.value;
        FillingMore(tx, picked, budget, remaining, before, size, load, item);
        LightestMore(tx, picked, budget, remaining, before, size, load, item);
        size := size + item.encodedSize;
        remaining := remaining - item.encodedSize;
        outbox := outbox.(bytes := SaturatingSub(outbox.bytes, item.encodedSize));
        load := load.Add(item);
        picked := picked + [item];
      }
    }

    /** Tracks a datagram that must be acknowledged. */
    method TrackSent(d: Datagram, now: Instant, ids: seq<nat>)
      requires d.payload.FramesPayload?
      modifies this`flight
      ensures flight == Track(old(flight), d, ids, now, cc.rto, AnyReliable(d.payload.frames))
    {
      var receipts := flight.receipts;
      for i := 0 to |ids|
        invariant receipts == BumpReceipts(flight.receipts, ids[..i]) && flight == old(flight)
      {
        assert ids[..i + 1][..i] == ids[..i];
        receipts := receipts[ids[i] := (if ids[i] in receipts then receipts[ids[i]] else 0) + 1];
      }
      assert ids[..|ids|] == ids;
      var t := Tracked(d, now, now + cc.rto, 0, false, AnyReliable(d.payload.frames), ids);
      flight := Flight(flight.sent[d.sequence := t], receipts);
    }

    /** Numbers the datagram and tracks it if it must be acknowledged. */
    method Wrap(load: Load, now: Instant) returns (d: Datagram)
      requires load.hasReliable == AnyReliable(load.frames)
      modifies this`numbers, this`flight
      ensures d == load.AsDatagram(outbox.heap != multiset{}, old(numbers.write))
      ensures numbers == old(numbers).(write := Next(old(numbers.write)))
      ensures flight == load.Tracking(old(flight), d, now, cc.rto)
    {
      var flags := if outbox.heap != multiset{} || load.hasSplit then FLAGS_CONTINUOUS else FLAGS_HAS_B_AND_AS;
      d := Datagram(flags, numbers.write, FramesPayload(load.frames));
      numbers := numbers.(write := Next(numbers.write));
      if load.hasReliable || load.ids != [] { TrackSent(d, now, load.ids); }
    }

    method PickLoad(budget: nat, ghost now: Instant) returns (load: Load, remaining: nat, ghost picked: seq<Queued>)
      requires OutboxOk(outbox)
      modifies this`outbox
      ensures Wrappable(old(Tx()), now, budget, load, remaining, picked, outbox)
      ensures LightestFirst(old(Tx()), picked, budget) && NoneLeft(old(Tx()), picked, budget)
    {
      load, remaining, picked := PickFrames(budget);
      BuiltFrom(old(Tx()), picked, budget, remaining, outbox, now, load);
    }

    method FillDatagram(now: Instant, budget: nat) returns (d: Option<Datagram>, remaining: nat, ghost picked: seq<Queued>)
      requires OutboxOk(outbox)
      modifies this`outbox, this`numbers, this`flight
      ensures Built(old(Tx()), now, budget, d, remaining, picked, Tx())
      ensures LightestFirst(old(Tx()), picked, budget) && NoneLeft(old(Tx()), picked, budget)
    {
      ghost var tx := Tx();
      var load;
      load, remaining, picked := PickLoad(budget, now);
      if load.frames == [] { return None, budget, picked; }
      var datagram := Finish(load, now, tx, budget, remaining, picked);
      d := Some(datagram);
    }

    method Finish(load: Load, now: Instant, ghost tx: Tx, ghost budget: nat, ghost remaining: nat, ghost picked: seq<Queued>)
      returns (d: Datagram)
      requires load.frames != [] && Wrappable(tx, now, budget, load, remaining, picked, outbox) && Tx() == tx.(outbox := outbox)
      modifies this`numbers, this`flight
      ensures Built(tx, now, budget, Some(d), remaining, picked, Tx())
    {
      d := Wrap(load, now);
      assert Tx() == tx.(numbers := tx.numbers.(write := Next(tx.numbers.write)), outbox := outbox,
                         flight := load.Tracking(tx.flight, d, now, tx.cc.rto));
    }

    /** One new datagram, filled with the lightest frames that fit until none does, or none if and
        only if nothing queued fits or the budget is used up. */
    method BuildDataDatagram(now: Instant, budget: nat) returns (d: Option<Datagram>, remaining: nat, ghost picked: seq<Queued>)
      requires OutboxOk(outbox)
      modifies this`outbox, this`numbers, this`flight
      ensures OutboxOk(outbox) && Built(old(Tx()), now, budget, d, remaining, picked, Tx())
      ensures d.Some? ==> LightestFirst(old(Tx()), picked, budget) && NoneLeft(old(Tx()), picked, budget)
    {
      if outbox.heap == multiset{} || budget == 0 { return None, budget, []; }
      ghost var tx := Tx();
      d, remaining, picked := FillDatagram(now, budget);
      BuiltOk(tx, now, budget, d, remaining, picked, Tx());
    }

    // ----- a tick -----

    method FlushAckIfDue(now: Instant) returns (out: seq<Datagram>)
      requires Valid()
      modifies this`nextAckFlush, outgoingAcks
      ensures Valid() && (Rx(), out) == FlushAcks(old(Rx()), intake, mtu, now) && Tx() == old(Tx())
    {
      if outgoingAcks.queue == [] || now < nextAckFlush { return []; }
      var d := DrainAckDatagram(now);
      out := if d.Some? then [d.value] else [];
    }

    method FlushNackIfDue(now: Instant) returns (out: seq<Datagram>)
      requires Valid()
      modifies this`nextNackFlush, outgoingNacks
      ensures Valid() && (Rx(), out) == FlushNacks(old(Rx()), intake, mtu, now) && Tx() == old(Tx())
    {
      if outgoingNacks.queue == [] || now < nextNackFlush { return []; }
      var d := DrainNackDatagram(now);
      out := if d.Some? then [d.value] else [];
    }

    method PruneSplitState(now: Instant)
      requires Valid()
      modifies assembler
      ensures Valid() && Rx() == Sweep(old(Rx()), intake, now) && Tx() == old(Tx())
    {
      var _ := assembler.PruneExpired(now);
    }

    method FlushControl(now: Instant) returns (out: seq<Datagram>)
      requires Valid()
      modifies this`nextAckFlush, this`nextNackFlush, outgoingAcks, outgoingNacks
      ensures Valid() && (Rx(), out) == FlushBoth(old(Rx()), intake, mtu, now, nackFirst) && Tx() == old(Tx())
    {
      if nackFirst {
        var a := FlushNackIfDue(now);
        var b := FlushAckIfDue(now);
        out := a + b;
      } else {
        var a := FlushAckIfDue(now);
        var b := FlushNackIfDue(now);
        out := a + b;
      }
    }

    /** The whole bytes the pacing budget allows, if pacing is on. */
    method Afford(limit: nat) returns (bytes: nat)
      ensures bytes == Affordable(Tx(), tunables, limit)
    {
      bytes := limit;
      if tunables.pace.enabled { bytes := Min(limit, if pace.budget < 0.0 then 0 else pace.budget.Floor); }
    }

    method ResendPhase(now: Instant, maxCount: nat, maxBytes: nat)
      returns (out: seq<Datagram>, ghost selected: seq<Seq24>)
      requires Orderly(Tx())
      modifies this`flight, this`cc, this`pace
      ensures Ran(old(Tx()), tunables,
                  [Again(selected, maxCount, Affordable(old(Tx()), tunables, maxBytes), now)] + [Pay(DatagramsSize(out))], Tx(), out)
    {
      ghost var tx := Tx();
      var limit := Afford(maxBytes);
      out, selected := CollectResendable(now, maxCount, limit);
      ghost var again := Again(selected, maxCount, limit, now);
      RanOne(tx, tunables, again, Tx(), out);
      PayAfter(tx, tunables, [again], Tx(), out);
      pace := Spend(pace, tunables.pace, DatagramsSize(out));
    }

    /** How many bytes of new frames may go out: what the budget affords, or one datagram's worth
        if and only if an immediate frame waits and the budget is too small for any frame. */
    method NewBytesBudget(maxBytes: nat) returns (budget: nat, bypass: bool)
      ensures budget == NewBudget(Tx(), tunables, maxBytes)
      ensures bypass <==> Bypasses(Tx(), tunables, maxBytes)
    {
      budget := Afford(maxBytes);
      var tooSmall := outbox.heap != multiset{} && forall q <- outbox.heap :: budget < q.encodedSize;
      bypass := tunables.pace.enabled && (budget == 0 || tooSmall) && maxBytes > 0
                && exists q <- outbox.heap :: q.priority.Immediate?;
      if bypass { budget := Max(Min(mtu, maxBytes), 1); }
    }

    method SendNew(now: Instant, maxCount: nat, budget: nat)
      returns (out: seq<Datagram>, bytes: nat, ghost picks: seq<seq<Queued>>)
      requires OutboxOk(outbox)
      modifies this`outbox, this`numbers, this`flight
      ensures OutboxOk(outbox) && |picks| <= maxCount && bytes == DatagramsSize(out)
      ensures Ran(old(Tx()), tunables, Emits(picks, budget, now), Tx(), out)
    {
      ghost var tx := Tx();
      out, bytes, picks := [], 0, [];
      var remaining := budget;
      SendingStart(tx, tunables, now, budget);
      while |out| < maxCount
        invariant OutboxOk(outbox) && |out| <= maxCount
        invariant Sending(tx, tunables, now, picks, Tx(), out, bytes, budget, remaining)
      {
        ghost var before := Tx();
        ghost var was := remaining;
        var d; ghost var picked;
        d, remaining, picked := BuildDataDatagram(now, remaining);
        if d.None? { break; }
        SendingMore(tx, tunables, now, picks, before, out, bytes, budget, was, d.value, remaining, picked, Tx());
        bytes := bytes + DatagramSize(d.value);
        out := out + [d.value];
        picks := picks + [picked];
        if remaining == 0 { break; }
      }
    }

    method NewPhase(now: Instant, maxCount: nat, maxBytes: nat)
      returns (out: seq<Datagram>, ghost picks: seq<seq<Queued>>)
      requires OutboxOk(outbox)
      modifies this`outbox, this`numbers, this`flight, this`pace
      ensures OutboxOk(outbox) && |picks| <= maxCount
      ensures var emits := Emits(picks, NewBudget(old(Tx()), tunables, maxBytes), now);
              && out == SendsAll(old(Tx()), tunables, emits)
              && Ran(old(Tx()), tunables, emits + [Pay(DatagramsSize(out))], Tx(), out)
    {
      var budget, _ := NewBytesBudget(maxBytes);
      out, picks := SendAndPay(now, maxCount, budget);
    }

    method SendAndPay(now: Instant, maxCount: nat, budget: nat)
      returns (out: seq<Datagram>, ghost picks: seq<seq<Queued>>)
      requires OutboxOk(outbox)
      modifies this`outbox, this`numbers, this`flight, this`pace
      ensures OutboxOk(outbox) && |picks| <= maxCount && out == SendsAll(old(Tx()), tunables, Emits(picks, budget, now))
      ensures Ran(old(Tx()), tunables, Emits(picks, budget, now) + [Pay(DatagramsSize(out))], Tx(), out)
    {
      ghost var tx := Tx();
      var bytes;
      out, bytes, picks := SendNew(now, maxCount, budget);
      PayAfter(tx, tunables, Emits(picks, budget, now), Tx(), out);
      pace := Spend(pace, tunables.pace, bytes);
    }

    method RefreshPacing(now: Instant)
      modifies this`pace
      ensures Ran(old(Tx()), tunables, [Refill(now)], Tx(), [])
    {
      RanOne(Tx(), tunables, Refill(now), Tx().(pace := Refresh(pace, tunables.pace, cc, mtu, now)), []);
      pace := Refresh(pace, tunables.pace, cc, mtu, now);
    }

    /** Refreshes the pacing budget, sends datagrams due again, then new ones. */
    method SendData(now: Instant, ghost limits: Limits, maxNew: nat, maxNewBytes: nat, maxResend: nat, maxResendBytes: nat)
      returns (out: seq<Datagram>, ghost tick: Tick)
      requires OutboxOk(outbox) && Orderly(Tx()) && limits == Limits(maxNew, maxNewBytes, maxResend, maxResendBytes)
      modifies this`outbox, this`numbers, this`flight, this`cc, this`pace
      ensures OutboxOk(outbox) && tick.now == now && tick.limits == limits && |tick.picks| <= maxNew
      ensures Ran(old(Tx()), tunables, TickSteps(old(Tx()), tunables, tick), Tx(), out)
    {
      ghost var tx := Tx();
      RefreshPacing(now);
      ghost var refreshed := Tx();
      var again; ghost var selected;
      again, selected := ResendPhase(now, maxResend, maxResendBytes);
      ghost var mid := Tx();
      var more; ghost var picks;
      more, picks := NewPhase(now, maxNew, maxNewBytes);
      out := again + more;
      tick := Tick(now, limits, selected, picks);
      TickRan(tx, tunables, tick, refreshed, again, mid, more, Tx());
    }

    method SendPaced(now: Instant, ghost limits: Limits, maxNew: nat, maxNewBytes: nat, maxResend: nat, maxResendBytes: nat)
      returns (out: seq<Datagram>, ghost tick: Tick)
      requires OutboxOk(outbox) && pace.budget >= 0.0
      requires Orderly(Tx()) && limits == Limits(maxNew, maxNewBytes, maxResend, maxResendBytes)
      modifies this`outbox, this`numbers, this`flight, this`cc, this`pace
      ensures OutboxOk(outbox) && pace.budget >= 0.0 && tick.now == now && tick.limits == limits && |tick.picks| <= maxNew
      ensures Ran(old(Tx()), tunables, TickSteps(old(Tx()), tunables, tick), Tx(), out)
      ensures tunables.pace.enabled ==>
                DatagramsSize(out) as real + pace.budget
                <= old(pace.budget) + Earned(tunables.pace, old(pace.lastUpdate), now)
                   + (HEADER_SIZE * |tick.picks| + Allowance(old(Tx()), tunables, tick)) as real
    {
      ghost var tx := Tx();
      out, tick := SendData(now, limits, maxNew, maxNewBytes, maxResend, maxResendBytes);
      TickKeepsBudget(tx, tunables, tick);
      if tunables.pace.enabled { TickPaced(tx, tunables, tick); }
    }

    /** One tick: the pacing budget is refreshed, due acknowledgements go out, then datagrams due
        again, then new ones, and stale split entries are dropped. All of it is the steps of a
        tick of the sending machine, within the pacing budget, and a flush of the receiving half. */
    method OnTick(now: Instant, maxNew: nat, maxNewBytes: nat, maxResend: nat, maxResendBytes: nat)
      returns (control: seq<Datagram>, data: seq<Datagram>, ghost tick: Tick)
      requires Valid() && Orderly(Tx())
      modifies this`outbox, this`numbers, this`flight, this`cc, this`pace, this`nextAckFlush, this`nextNackFlush
      modifies outgoingAcks, outgoingNacks, assembler
      ensures Valid() && (Rx(), control) == TickRx(old(Rx()), intake, mtu, now, nackFirst)
      ensures tick.now == now && tick.limits == Limits(maxNew, maxNewBytes, maxResend, maxResendBytes) && |tick.picks| <= maxNew
      ensures Ran(old(Tx()), tunables, TickSteps(old(Tx()), tunables, tick), Tx(), data)
      ensures tunables.pace.enabled ==>
                DatagramsSize(data) as real + pace.budget
                <= old(pace.budget) + Earned(tunables.pace, old(pace.lastUpdate), now)
                   + (HEADER_SIZE * |tick.picks| + Allowance(old(Tx()), tunables, tick)) as real
    {
      control := FlushControl(now);
      ghost var rx := Rx();
      data, tick := SendPaced(now, Limits(maxNew, maxNewBytes, maxResend, maxResendBytes), maxNew, maxNewBytes, maxResend, maxResendBytes);
      assert Rx() == rx;
      PruneSplitState(now);
    }
  }

  // ----- new datagrams -----

  lemma PayAfter(tx: Tx, cfg: TxConfig, evs: seq<Event>, mid: Tx, out: seq<Datagram>)
    requires Ran(tx, cfg, evs, mid, out)
    ensures Ran(tx, cfg, evs + [Pay(DatagramsSize(out))], mid.(pace := Spend(mid.pace, cfg.pace, DatagramsSize(out))), out)
  {
    RanMore(tx, cfg, evs, mid, out, Pay(DatagramsSize(out)));
    assert out + [] == out;
  }

  /** The datagrams built so far, their bytes, and what is left of the budget. */
  ghost predicate Sending(tx: Tx, cfg: TxConfig, now: Instant, picks: seq<seq<Queued>>, mid: Tx, out: seq<Datagram>,
                          bytes: nat, budget: nat, remaining: nat)
  {
    && Ran(tx, cfg, Emits(picks, budget, now), mid, out) && |out| == |picks|
    && bytes == DatagramsSize(out) && remaining == BudgetLeft(picks, budget)
  }

  lemma SendingStart(tx: Tx, cfg: TxConfig, now: Instant, budget: nat)
    ensures Sending(tx, cfg, now, [], tx, [], 0, budget, budget)
  {
  }

  lemma SendingMore(tx: Tx, cfg: TxConfig, now: Instant, picks: seq<seq<Queued>>, before: Tx, out: seq<Datagram>,
                    bytes: nat, budget: nat, was: nat, d: Datagram, remaining: nat, picked: seq<Queued>, after: Tx)
    requires Sending(tx, cfg, now, picks, before, out, bytes, budget, was)
    requires Built(before, now, was, Some(d), remaining, picked, after)
    ensures Sending(tx, cfg, now, picks + [picked], after, out + [d], bytes + DatagramSize(d), budget, remaining)
  {
    assert (picks + [picked])[..|picks|] == picks;
    RanMore(tx, cfg, Emits(picks, budget, now), before, out, Emit(picked, was, now));
    SizesConcat(out, [d]);
    SizeOne(d);
  }

  // ----- picking frames -----

  /** A queued frame fits the datagram being filled. */
  predicate Fits(q: Queued, mtu: nat, allowReliable: bool, size: nat, budget: nat) {
    size + q.encodedSize <= mtu && q.encodedSize <= budget && (allowReliable || !q.isReliable)
  }

  lemma {:induction false} Lightest(heap: multiset<Queued>) returns (q: Queued)
    requires heap != multiset{}
    ensures q in heap && forall p <- heap :: q.weight <= p.weight
    decreases |heap|
  {
    var some :| some in heap;
    var rest := heap - multiset{some};
    q := some;
    if rest != multiset{} {
      var r := Lightest(rest);
      if r.weight < some.weight { q := r; }
    }
    forall p <- heap ensures q.weight <= p.weight { assert p == some || p in rest; }
  }

  lemma DeferredAll(deferred: seq<Queued>, heap: multiset<Queued>, mtu: nat, allowReliable: bool, size: nat, budget: nat)
    requires multiset(deferred) == heap && forall p <- deferred :: !Fits(p, mtu, allowReliable, size, budget)
    ensures forall p <- heap :: !Fits(p, mtu, allowReliable, size, budget)
  {
    forall p <- heap ensures !Fits(p, mtu, allowReliable, size, budget) { assert p in multiset(deferred); assert p in deferred; }
  }

  /** The contents of a datagram being filled. */
  datatype Load = Load(frames: seq<Frame>, ids: seq<nat>, hasReliable: bool, hasSplit: bool) {
    function Add(q: Queued): Load {
      Load(frames + [q.frame],
           if q.receipt.Some? && q.receipt.value !in ids then ids + [q.receipt.value] else ids,
           hasReliable || q.isReliable, hasSplit || q.frame.header.isSplit)
    }

    function AsDatagram(moreQueued: bool, number: Seq24): Datagram {
      Datagram(if moreQueued || hasSplit then FLAGS_CONTINUOUS else FLAGS_HAS_B_AND_AS, number, FramesPayload(frames))
    }

    function Tracking(fl: Flight, d: Datagram, now: Instant, rto: real): Flight {
      if hasReliable || ids != [] then Track(fl, d, ids, now, rto, hasReliable) else fl
    }
  }

  predicate AnyReliable(frames: seq<Frame>) { exists f <- frames :: f.header.reliability.IsReliable() }

  ghost function LoadOf(picked: seq<Queued>): Load {
    Load(FramesOf(picked), ReceiptIds(picked), HasReliable(picked), HasSplit(picked))
  }

  ghost predicate NothingFits(tx: Tx, budget: nat) {
    forall p <- tx.outbox.heap :: !Fits(p, tx.mtu, CanEmit(tx.cc, |tx.flight.sent|), HEADER_SIZE, budget)
  }

  /** Outcome of building a datagram: one more step of the machine and its datagram, or nothing
      changed because nothing queued fits. */
  ghost predicate Built(tx: Tx, now: Instant, budget: nat, d: Option<Datagram>, remaining: nat, picked: seq<Queued>, after: Tx) {
    && (d.None? ==> after == tx && remaining == budget && (budget == 0 || NothingFits(tx, budget)))
    && (d.Some? ==> && Picks(tx, picked, budget) && after == Build(tx, picked, now)
                    && d.value == DatagramFor(tx, picked) && remaining == budget - Sizes(picked))
  }

  lemma BuildIs(tx: Tx, picked: seq<Queued>, now: Instant, load: Load)
    requires load == LoadOf(picked)
    ensures var o := TakePicked(tx.outbox, picked);
            var d := load.AsDatagram(o.heap != multiset{}, tx.numbers.write);
            && DatagramFor(tx, picked) == d
            && Build(tx, picked, now)
               == tx.(numbers := tx.numbers.(write := Next(tx.numbers.write)), outbox := o,
                      flight := load.Tracking(tx.flight, d, now, tx.cc.rto))
  {
  }

  predicate HasSplit(picked: seq<Queued>) { exists q <- picked :: q.frame.header.isSplit }

  /** What has been taken from the queue so far can go into one datagram. */
  ghost predicate Picked(tx: Tx, picked: seq<Queued>, budget: nat, remaining: nat, o: Outbox) {
    && multiset(picked) <= tx.outbox.heap && o == TakePicked(tx.outbox, picked)
    && Sizes(picked) <= budget && remaining == budget - Sizes(picked)
    && (picked != [] ==> HEADER_SIZE + Sizes(picked) <= tx.mtu)
    && (HasReliable(picked) ==> CanEmit(tx.cc, |tx.flight.sent|))
  }

  ghost predicate Filling(tx: Tx, picked: seq<Queued>, budget: nat, remaining: nat, o: Outbox, size: nat, load: Load) {
    Picked(tx, picked, budget, remaining, o) && size == HEADER_SIZE + Sizes(picked) && load == LoadOf(picked)
  }

  lemma FillingStart(tx: Tx, budget: nat)
    ensures Filling(tx, [], budget, budget, tx.outbox, HEADER_SIZE, Load([], [], false, false))
  {
    assert tx.outbox.heap - multiset([]) == tx.outbox.heap;
  }

  /** A frame fits a datagram that already holds some. */
  ghost predicate FitsAfter(tx: Tx, picked: seq<Queued>, budget: nat, q: Queued) {
    && Sizes(picked) <= budget
    && Fits(q, tx.mtu, HasReliable(picked) || CanEmit(tx.cc, |tx.flight.sent|), HEADER_SIZE + Sizes(picked), budget - Sizes(picked))
  }

  /** Each frame was the lightest of those that still fitted when it was taken. */
  ghost predicate LightestFirst(tx: Tx, picked: seq<Queued>, budget: nat) {
    picked != [] ==>
      && LightestFirst(tx, picked[..|picked| - 1], budget)
      && NextLightest(tx, picked[..|picked| - 1], budget, picked[|picked| - 1])
  }

  ghost predicate NextLightest(tx: Tx, before: seq<Queued>, budget: nat, q: Queued) {
    var left := tx.outbox.heap - multiset(before);
    && q in left && FitsAfter(tx, before, budget, q)
    && forall p <- left :: FitsAfter(tx, before, budget, p) ==> q.weight <= p.weight
  }

  /** No frame left in the queue fits any more. */
  ghost predicate NoneLeft(tx: Tx, picked: seq<Queued>, budget: nat) {
    forall p <- tx.outbox.heap - multiset(picked) :: !FitsAfter(tx, picked, budget, p)
  }

  lemma LightestMore(tx: Tx, picked: seq<Queued>, budget: nat, remaining: nat, o: Outbox, size: nat, load: Load, q: Queued)
    requires Filling(tx, picked, budget, remaining, o, size, load) && LightestFirst(tx, picked, budget) && q in o.heap
    requires Fits(q, tx.mtu, load.hasReliable || CanEmit(tx.cc, |tx.flight.sent|), size, remaining)
    requires forall p <- o.heap :: Fits(p, tx.mtu, load.hasReliable || CanEmit(tx.cc, |tx.flight.sent|), size, remaining) ==> q.weight <= p.weight
    ensures LightestFirst(tx, picked + [q], budget)
  {
    IsNext(tx, picked, budget, remaining, o, size, load, q);
    LightestOn(tx, picked, budget, q);
  }

  lemma LightestOn(tx: Tx, picked: seq<Queued>, budget: nat, q: Queued)
    requires LightestFirst(tx, picked, budget) && NextLightest(tx, picked, budget, q)
    ensures LightestFirst(tx, picked + [q], budget)
  {
    assert (picked + [q])[..|picked|] == picked;
  }

  lemma IsNext(tx: Tx, picked: seq<Queued>, budget: nat, remaining: nat, o: Outbox, size: nat, load: Load, q: Queued)
    requires Filling(tx, picked, budget, remaining, o, size, load) && q in o.heap
    requires Fits(q, tx.mtu, load.hasReliable || CanEmit(tx.cc, |tx.flight.sent|), size, remaining)
    requires forall p <- o.heap :: Fits(p, tx.mtu, load.hasReliable || CanEmit(tx.cc, |tx.flight.sent|), size, remaining) ==> q.weight <= p.weight
    ensures NextLightest(tx, picked, budget, q)
  {
  }

  lemma FillingStops(tx: Tx, picked: seq<Queued>, budget: nat, remaining: nat, o: Outbox, size: nat, load: Load)
    requires Filling(tx, picked, budget, remaining, o, size, load)
    requires forall p <- o.heap :: !Fits(p, tx.mtu, load.hasReliable || CanEmit(tx.cc, |tx.flight.sent|), size, remaining)
    ensures NoneLeft(tx, picked, budget)
    ensures Picked(tx, picked, budget, remaining, o) && load == LoadOf(picked) && (picked == [] ==> NothingFits(tx, budget))
  {
    if picked == [] { PickedEmpty(tx, budget, remaining, o); }
  }

  lemma PickMultiset(heap: multiset<Queued>, picked: seq<Queued>, q: Queued)
    requires multiset(picked) <= heap && q in heap - multiset(picked)
    ensures multiset(picked + [q]) <= heap && heap - multiset(picked + [q]) == heap - multiset(picked) - multiset{q}
  {
    assert multiset(picked + [q]) == multiset(picked) + multiset{q};
  }

  lemma PickProps(picked: seq<Queued>, q: Queued)
    ensures Sizes(picked + [q]) == Sizes(picked) + q.encodedSize && LoadOf(picked + [q]) == LoadOf(picked).Add(q)
  {
    var more := picked + [q];
    assert more[..|picked|] == picked;
    assert q in more;
    if HasReliable(picked) { var p :| p in picked && p.isReliable; assert p in more; }
    if HasSplit(picked) { var p :| p in picked && p.frame.header.isSplit; assert p in more; }
  }

  lemma FillingMore(tx: Tx, picked: seq<Queued>, budget: nat, remaining: nat, o: Outbox, size: nat, load: Load, q: Queued)
    requires Filling(tx, picked, budget, remaining, o, size, load) && q in o.heap
    requires Fits(q, tx.mtu, load.hasReliable || CanEmit(tx.cc, |tx.flight.sent|), size, remaining)
    ensures |o.heap - multiset{q}| < |o.heap|
    ensures Filling(tx, picked + [q], budget, remaining - q.encodedSize,
                    o.(heap := o.heap - multiset{q}, bytes := SaturatingSub(o.bytes, q.encodedSize)),
                    size + q.encodedSize, load.Add(q))
  {
    PickMultiset(tx.outbox.heap, picked, q);
    PickProps(picked, q);
  }

  lemma PickedEmpty(tx: Tx, budget: nat, remaining: nat, o: Outbox)
    requires Picked(tx, [], budget, remaining, o)
    ensures o == tx.outbox && remaining == budget
  {
    assert tx.outbox.heap - multiset([]) == tx.outbox.heap;
  }

  lemma ReliableFrames(picked: seq<Queued>)
    requires forall q <- picked :: QueuedOk(q)
    ensures HasReliable(picked) == AnyReliable(FramesOf(picked))
  {
    FramesOfAt(picked);
    if HasReliable(picked) {
      var q :| q in picked && q.isReliable;
      var i :| 0 <= i < |picked| && picked[i] == q;
      assert FramesOf(picked)[i] in FramesOf(picked);
    }
    if AnyReliable(FramesOf(picked)) {
      var f :| f in FramesOf(picked) && f.header.reliability.IsReliable();
      var i :| 0 <= i < |picked| && FramesOf(picked)[i] == f;
      assert picked[i] in picked;
    }
  }

  lemma PickedOk(tx: Tx, picked: seq<Queued>, budget: nat, remaining: nat, o: Outbox)
    requires OutboxOk(tx.outbox) && Picked(tx, picked, budget, remaining, o)
    ensures HasReliable(picked) == AnyReliable(FramesOf(picked)) && (picked == [] <==> FramesOf(picked) == [])
  {
    FramesOfAt(picked);
    forall q <- picked ensures QueuedOk(q) { assert q in multiset(picked); }
    ReliableFrames(picked);
  }

  /** What is left to do is to number the datagram and track it. */
  ghost predicate Wrappable(tx: Tx, now: Instant, budget: nat, load: Load, remaining: nat, picked: seq<Queued>, o: Outbox) {
    && load.hasReliable == AnyReliable(load.frames)
    && (load.frames == [] ==> o == tx.outbox && Built(tx, now, budget, None, budget, picked, tx))
    && (load.frames != [] ==>
          var d := load.AsDatagram(o.heap != multiset{}, tx.numbers.write);
          Built(tx, now, budget, Some(d), remaining, picked,
                tx.(numbers := tx.numbers.(write := Next(tx.numbers.write)), outbox := o,
                    flight := load.Tracking(tx.flight, d, now, tx.cc.rto))))
  }

  /** A nonempty selection wrapped up is the step for a new datagram; an empty one is none. */
  lemma BuiltFrom(tx: Tx, picked: seq<Queued>, budget: nat, remaining: nat, o: Outbox, now: Instant, load: Load)
    requires OutboxOk(tx.outbox) && Picked(tx, picked, budget, remaining, o) && load == LoadOf(picked)
    requires picked == [] ==> NothingFits(tx, budget)
    ensures Wrappable(tx, now, budget, load, remaining, picked, o)
  {
    PickedOk(tx, picked, budget, remaining, o);
    if picked == [] { PickedEmpty(tx, budget, remaining, o); }
    BuildIs(tx, picked, now, load);
  }

  lemma BuiltOk(tx: Tx, now: Instant, budget: nat, d: Option<Datagram>, remaining: nat, picked: seq<Queued>, after: Tx)
    requires OutboxOk(tx.outbox) && Built(tx, now, budget, d, remaining, picked, after)
    ensures OutboxOk(after.outbox)
  {
    if d.Some? { TakePickedOk(tx.outbox, picked); }
  }

  // ----- selecting datagrams to resend -----

  ghost predicate Due(tx: Tx, k: Seq24, now: Instant) {
    k in tx.flight.sent && tx.flight.sent[k].resendable && tx.flight.sent[k].nextSend <= now
  }

  /** In number order, and no due datagram is passed over for a later one. */
  ghost predicate InTurn(tx: Tx, selected: seq<Seq24>, now: Instant) {
    && (forall i, j | 0 <= i < j < |selected| :: Lt(selected[i], selected[j]))
    && (forall k <- tx.flight.sent, s <- selected :: Due(tx, k, now) && k !in selected ==> Lt(s, k))
  }

  /** The comparison of numbers orders the table of tracked datagrams. */
  ghost predicate Orderly(tx: Tx) { Asymmetric(tx.flight.sent.Keys) && Transitive(tx.flight.sent.Keys) }

  /** It does while the tracked numbers lie less than half a lap behind the next one. */
  lemma WindowedOrderly(tx: Tx)
    requires Windowed(tx)
    ensures Orderly(tx)
  {
    assert InWindow(Plus(tx.numbers.write, HALF + 1), tx.flight.sent.Keys);
    OrderedIff(tx.flight.sent.Keys);
  }

  ghost predicate InOrder(base: Seq24, keys: seq<Seq24>) {
    forall i, j | 0 <= i < j < |keys| :: DistanceTo(base, keys[i]) < DistanceTo(base, keys[j])
  }

  lemma InOrderMore(base: Seq24, keys: seq<Seq24>, k: Seq24)
    requires InOrder(base, keys) && forall s <- keys :: DistanceTo(base, s) < DistanceTo(base, k)
    ensures InOrder(base, keys + [k])
  {
    forall i, j | 0 <= i < j < |keys + [k]|
      ensures DistanceTo(base, (keys + [k])[i]) < DistanceTo(base, (keys + [k])[j])
    {
      assert keys[i] in keys;
    }
  }

  /** The smallest number still to be looked at comes before all others. */
  lemma LeastFirst(base: Seq24, todo: set<Seq24>, k: Seq24, j: Seq24)
    requires InWindow(base, todo) && k in todo && j in todo && j != k && !Gt(k, j)
    ensures DistanceTo(base, k) < DistanceTo(base, j)
  {
    WindowOrder(base, todo, k, j);
    StepByDistance(base, k);
    StepByDistance(base, j);
  }

  /** The selection after looking at some numbers in order; `full` once a limit stopped it. */
  datatype Choice = Choice(selected: seq<Seq24>, total: nat, timedOut: bool, full: bool)

  function Choose(sent: map<Seq24, Tracked>, keys: seq<Seq24>, now: Instant, maxCount: nat, maxBytes: nat): Choice {
    if keys == [] then Choice([], 0, false, false)
    else
      var k, before := keys[|keys| - 1], Choose(sent, keys[..|keys| - 1], now, maxCount, maxBytes);
      if before.full || k !in sent then before else Consider(before, sent[k], k, now, maxCount, maxBytes)
  }

  function Consider(c: Choice, t: Tracked, k: Seq24, now: Instant, maxCount: nat, maxBytes: nat): Choice {
    if |c.selected| >= maxCount then c.(full := true)
    else if !t.resendable || t.nextSend > now then c
    else if c.total + DatagramSize(t.datagram) > maxBytes then c.(full := true)
    else Choice(c.selected + [k], c.total + DatagramSize(t.datagram), c.timedOut || !t.nackPending, false)
  }

  lemma ChooseNext(sent: map<Seq24, Tracked>, keys: seq<Seq24>, i: nat, now: Instant, maxCount: nat, maxBytes: nat)
    requires i < |keys| && keys[i] in sent
    ensures var before := Choose(sent, keys[..i], now, maxCount, maxBytes);
            Choose(sent, keys[..i + 1], now, maxCount, maxBytes)
            == if before.full then before else Consider(before, sent[keys[i]], keys[i], now, maxCount, maxBytes)
  {
    assert keys[..i + 1][..i] == keys[..i];
  }

  lemma {:induction false} ChoiceStops(sent: map<Seq24, Tracked>, keys: seq<Seq24>, i: nat, now: Instant, maxCount: nat, maxBytes: nat)
    requires i <= |keys| && Choose(sent, keys[..i], now, maxCount, maxBytes).full
    ensures Choose(sent, keys, now, maxCount, maxBytes) == Choose(sent, keys[..i], now, maxCount, maxBytes)
    decreases |keys|
  {
    if i == |keys| {
      assert keys[..i] == keys;
    } else {
      var init := keys[..|keys| - 1];
      assert init[..i] == keys[..i];
      ChoiceStops(sent, init, i, now, maxCount, maxBytes);
    }
  }

  lemma SelectedMore(tx: Tx, selected: seq<Seq24>, k: Seq24)
    requires k in tx.flight.sent
    ensures DatagramsSize(Selected(tx, selected + [k])) == DatagramsSize(Selected(tx, selected)) + DatagramSize(tx.flight.sent[k].datagram)
    ensures TimesOut(tx, selected + [k]) <==> TimesOut(tx, selected) || !tx.flight.sent[k].nackPending
  {
    assert (selected + [k])[..|selected|] == selected;
    var ds := Selected(tx, selected);
    assert (ds + [tx.flight.sent[k].datagram])[..|ds|] == ds;
    if !tx.flight.sent[k].nackPending { assert k in selected + [k]; }
    if TimesOut(tx, selected) {
      var s :| s in selected && s in tx.flight.sent && !tx.flight.sent[s].nackPending;
      assert s in selected + [k];
    }
  }

  /** The selected numbers come from those looked at, in their order; a due one is left out only
      after the last selected one. */
  ghost predicate FromKeys(tx: Tx, base: Seq24, keys: seq<Seq24>, c: Choice, now: Instant) {
    && InOrder(base, c.selected) && (forall s <- c.selected :: s in keys && Due(tx, s, now))
    && (forall k <- keys, s <- c.selected :: Due(tx, k, now) && k !in c.selected ==> DistanceTo(base, s) < DistanceTo(base, k))
    && (!c.full ==> forall k <- keys :: Due(tx, k, now) ==> k in c.selected)
  }

  lemma FromKeysMore(tx: Tx, base: Seq24, keys: seq<Seq24>, c: Choice, now: Instant, k: Seq24, d: Choice)
    requires FromKeys(tx, base, keys, c, now) && InOrder(base, keys + [k]) && k in tx.flight.sent
    requires || (d == c && (c.full || !Due(tx, k, now)))
             || d == c.(full := true)
             || (!c.full && d.selected == c.selected + [k] && Due(tx, k, now) && !d.full)
    ensures FromKeys(tx, base, keys + [k], d, now)
  {
    forall s <- keys ensures DistanceTo(base, s) < DistanceTo(base, k) {
      var i :| 0 <= i < |keys| && keys[i] == s;
      assert (keys + [k])[i] == s && (keys + [k])[|keys|] == k;
    }
    if d.selected == c.selected + [k] { InOrderMore(base, c.selected, k); }
  }

  lemma InOrderInit(base: Seq24, keys: seq<Seq24>, k: Seq24)
    requires InOrder(base, keys + [k])
    ensures InOrder(base, keys)
  {
    forall i, j | 0 <= i < j < |keys| ensures DistanceTo(base, keys[i]) < DistanceTo(base, keys[j]) {
      assert (keys + [k])[i] == keys[i] && (keys + [k])[j] == keys[j];
    }
  }

  lemma {:induction false} ChoiceFromKeys(tx: Tx, base: Seq24, keys: seq<Seq24>, now: Instant, maxCount: nat, maxBytes: nat)
    requires InOrder(base, keys) && forall k <- keys :: k in tx.flight.sent
    ensures FromKeys(tx, base, keys, Choose(tx.flight.sent, keys, now, maxCount, maxBytes), now)
  {
    if keys != [] {
      var init, k := keys[..|keys| - 1], keys[|keys| - 1];
      assert keys == init + [k];
      InOrderInit(base, init, k);
      forall s <- init ensures s in tx.flight.sent { assert s in keys; }
      assert k in keys;
      ChoiceFromKeys(tx, base, init, now, maxCount, maxBytes);
      FromKeysMore(tx, base, init, Choose(tx.flight.sent, init, now, maxCount, maxBytes), now, k,
                   Choose(tx.flight.sent, keys, now, maxCount, maxBytes));
    }
  }

  ghost predicate Tallied(tx: Tx, c: Choice, maxCount: nat, maxBytes: nat) {
    && |c.selected| <= maxCount && c.total == DatagramsSize(Selected(tx, c.selected)) <= maxBytes
    && c.timedOut == TimesOut(tx, c.selected)
  }

  lemma ConsiderTallies(tx: Tx, c: Choice, k: Seq24, now: Instant, maxCount: nat, maxBytes: nat)
    requires Tallied(tx, c, maxCount, maxBytes) && k in tx.flight.sent
    ensures Tallied(tx, Consider(c, tx.flight.sent[k], k, now, maxCount, maxBytes), maxCount, maxBytes)
  {
    SelectedMore(tx, c.selected, k);
  }

  lemma {:induction false} ChoiceTallies(tx: Tx, keys: seq<Seq24>, now: Instant, maxCount: nat, maxBytes: nat)
    ensures Tallied(tx, Choose(tx.flight.sent, keys, now, maxCount, maxBytes), maxCount, maxBytes)
  {
    if keys != [] {
      var init, k := keys[..|keys| - 1], keys[|keys| - 1];
      ChoiceTallies(tx, init, now, maxCount, maxBytes);
      if k in tx.flight.sent { ConsiderTallies(tx, Choose(tx.flight.sent, init, now, maxCount, maxBytes), k, now, maxCount, maxBytes); }
    }
  }

  lemma InOrderDistinct(base: Seq24, keys: seq<Seq24>)
    requires InOrder(base, keys)
    ensures forall i, j | 0 <= i < j < |keys| :: keys[i] != keys[j]
  {
  }

  lemma ChosenInTurn(tx: Tx, base: Seq24, keys: seq<Seq24>, c: Choice, now: Instant)
    requires InWindow(base, tx.flight.sent.Keys) && FromKeys(tx, base, keys, c, now)
    requires forall k: Seq24 :: k in keys <==> k in tx.flight.sent
    ensures InTurn(tx, c.selected, now)
  {
    forall i, j | 0 <= i < j < |c.selected| ensures Lt(c.selected[i], c.selected[j]) {
      assert c.selected[i] in c.selected && c.selected[j] in c.selected;
      WindowOrder(base, tx.flight.sent.Keys, c.selected[i], c.selected[j]);
    }
    forall k <- tx.flight.sent, s <- c.selected | Due(tx, k, now) && k !in c.selected ensures Lt(s, k) {
      WindowOrder(base, tx.flight.sent.Keys, s, k);
    }
  }

  lemma ChosenWell(tx: Tx, base: Seq24, keys: seq<Seq24>, now: Instant, maxCount: nat, maxBytes: nat)
    requires InWindow(base, tx.flight.sent.Keys) && InOrder(base, keys) && forall k: Seq24 :: k in keys <==> k in tx.flight.sent
    ensures var c := Choose(tx.flight.sent, keys, now, maxCount, maxBytes);
            && Resends(tx, c.selected, maxCount, maxBytes, now) && InTurn(tx, c.selected, now)
            && c.timedOut == TimesOut(tx, c.selected)
  {
    var c := Choose(tx.flight.sent, keys, now, maxCount, maxBytes);
    ChoiceFromKeys(tx, base, keys, now, maxCount, maxBytes);
    ChoiceTallies(tx, keys, now, maxCount, maxBytes);
    InOrderDistinct(base, c.selected);
    ChosenInTurn(tx, base, keys, c, now);
  }

  // ----- walking ranges -----

  lemma WalkNext(visited: seq<Seq24>, s: Seq24, end: Seq24)
    ensures s == end ==> visited + Walk(s, end) == visited + [s]
    ensures s != end ==> visited + Walk(s, end) == visited + [s] + Walk(Next(s), end) && DistanceTo(Next(s), end) < DistanceTo(s, end)
  {
  }

  lemma WalkAllNext(ranges: seq<Range>, done: nat)
    requires done < |ranges|
    ensures WalkAll(ranges[..done + 1]) == WalkAll(ranges[..done]) + Walk(ranges[done].start, ranges[done].end)
    ensures ranges[done..] != [] && ranges[done..][1..] == ranges[done + 1..] && ranges[done..][0] == ranges[done]
  {
    assert ranges[..done + 1][..done] == ranges[..done];
  }

  /** The numbers given so far have been acknowledged; ranges still waiting do not matter. */
  ghost predicate AckedSoFar(start: Tx, cfg: TxConfig, numbers: seq<Seq24>, now: Instant, tx: Tx, acked: nat, reported: seq<nat>) {
    (tx.(incomingAcks := []), acked, reported) == AckNumbers(start.(incomingAcks := []), cfg, numbers, now)
  }

  lemma AckedNext(start: Tx, cfg: TxConfig, numbers: seq<Seq24>, now: Instant, tx: Tx, acked: nat, reported: seq<nat>, s: Seq24)
    requires AckedSoFar(start, cfg, numbers, now, tx, acked, reported)
    ensures var (after, more) := AckNumber(tx, cfg, s, now);
            AckedSoFar(start, cfg, numbers + [s], now, after, acked + (if s in tx.flight.sent then 1 else 0), reported + more)
  {
    assert (numbers + [s])[..|numbers|] == numbers;
    AckIgnores(tx, cfg, s, now);
    assert s !in tx.flight.sent ==> reported + [] == reported;
  }

  lemma AckIgnores(tx: Tx, cfg: TxConfig, s: Seq24, now: Instant)
    ensures var (after, more) := AckNumber(tx, cfg, s, now);
            AckNumber(tx.(incomingAcks := []), cfg, s, now) == (after.(incomingAcks := []), more)
  {
  }

  ghost predicate NackedSoFar(start: Tx, numbers: seq<Seq24>, now: Instant, tx: Tx, nacked: nat) {
    (tx.(incomingNacks := []), nacked) == NackNumbers(start.(incomingNacks := []), numbers, now)
  }

  lemma NackedNext(start: Tx, numbers: seq<Seq24>, now: Instant, tx: Tx, nacked: nat, s: Seq24)
    requires NackedSoFar(start, numbers, now, tx, nacked)
    ensures var (flight, hit) := ScheduleResend(tx.flight, s, now);
            NackedSoFar(start, numbers + [s], now, tx.(flight := flight), nacked + if hit then 1 else 0)
  {
    assert (numbers + [s])[..|numbers|] == numbers;
  }

  // ----- queueing -----

  lemma SplitFramesFrom(n: Numbers, mtu: nat, payload: Bytes, rel: Reliability, channel: u8,
                        n0: Numbers, n1: Numbers, order: Option<Seq24>, n2: Numbers, sequence: Option<Seq24>)
    requires n0 == n.(split := (n.split + 1) % 0x1_0000)
    requires (n1, order) == NumberOrdering(n0, NormalizeForSplit(rel), channel)
    requires (n2, sequence) == NumberSequence(n1, NormalizeForSplit(rel), channel)
    ensures var r := NormalizeForSplit(rel);
            var parts := Chunks(payload, MaxPayload(mtu, r, true));
            SplitFrames(n, mtu, payload, rel, channel)
            == Numbered(n2.(reliable := Skip(n2.reliable, |parts|)),
                        PartFrames(r, n2.reliable, sequence, order, channel, n.split, |parts|, 0, parts))
  {
  }

  lemma OneFrame(o: Outbox, f: Frame, priority: Priority, receipt: Option<nat>)
    ensures PushFrames(o, [f], priority, receipt) == PushFrame(o, f, priority, receipt)
    ensures ReliableBytes([f]) == if f.header.reliability.IsReliable() then FrameSize(f) else 0
  {
    assert [f][..0] == [];
  }

  lemma MadeOneMore(o: Outbox, made: seq<Frame>, f: Frame, priority: Priority, receipt: Option<nat>)
    ensures PushFrames(o, made + [f], priority, receipt) == PushFrame(PushFrames(o, made, priority, receipt), f, priority, receipt)
    ensures ReliableBytes(made + [f]) == ReliableBytes(made) + if f.header.reliability.IsReliable() then FrameSize(f) else 0
  {
    assert (made + [f])[..|made|] == made;
  }

  /** A payload being cut into parts, with the reliable counter and the outbox as they were. */
  datatype Job = Job(
    payload: Bytes, size: nat, rel: Reliability, sequence: Option<Seq24>, order: Option<Seq24>, channel: u8,
    id: u16, count: nat, priority: Priority, receipt: Option<nat>, reliable: Seq24, outbox: Outbox)

  ghost function FramesLeft(j: Job, done: nat, rest: Bytes, reliable: Seq24): seq<Frame>
    requires j.size >= 1
  {
    PartFrames(j.rel, reliable, j.sequence, j.order, j.channel, j.id, j.count, done, Chunks(rest, j.size))
  }

  /** `made` are the frames of the first `i` parts; `rest` is still to be cut. */
  ghost predicate PartsDone(j: Job, i: nat, rest: Bytes, reliable: Seq24, made: seq<Frame>, o: Outbox, bytes: nat) {
    && j.rel.IsReliable() && j.size >= 1 && i <= j.count && |Chunks(rest, j.size)| == j.count - i
    && FramesLeft(j, 0, j.payload, j.reliable) == made + FramesLeft(j, i, rest, reliable)
    && Skip(reliable, j.count - i) == Skip(j.reliable, j.count)
    && o == PushFrames(j.outbox, made, j.priority, j.receipt) && bytes == ReliableBytes(made)
  }

  function PartOf(j: Job, i: nat, reliable: Seq24, part: Bytes): Frame {
    PartFrame(j.rel, reliable, j.sequence, j.order, j.channel, SplitInfo(CastU32(j.count), j.id, CastU32(i)), part)
  }

  lemma PartsHead(j: Job, i: nat, rest: Bytes, reliable: Seq24)
    requires j.rel.IsReliable() && j.size >= 1 && Chunks(rest, j.size) != []
    ensures var take := Min(|rest|, j.size);
            && FramesLeft(j, i, rest, reliable) == [PartOf(j, i, reliable, rest[..take])] + FramesLeft(j, i + 1, rest[take..], Next(reliable))
            && |Chunks(rest[take..], j.size)| == |Chunks(rest, j.size)| - 1
  {
    var take := Min(|rest|, j.size);
    assert Chunks(rest, j.size)[1..] == Chunks(rest[take..], j.size);
  }

  lemma PartsNext(j: Job, i: nat, rest: Bytes, reliable: Seq24, made: seq<Frame>, o: Outbox, bytes: nat)
    requires PartsDone(j, i, rest, reliable, made, o, bytes) && i < j.count
    ensures var take := Min(|rest|, j.size);
            var f := PartOf(j, i, reliable, rest[..take]);
            PartsDone(j, i + 1, rest[take..], Next(reliable), made + [f], PushFrame(o, f, j.priority, j.receipt), bytes + FrameSize(f))
  {
    var take := Min(|rest|, j.size);
    var f := PartOf(j, i, reliable, rest[..take]);
    PartsHead(j, i, rest, reliable);
    MadeOneMore(j.outbox, made, f, j.priority, j.receipt);
    AssocFrames(made, f, FramesLeft(j, i + 1, rest[take..], Next(reliable)));
  }

  lemma PartsEnd(j: Job, rest: Bytes, reliable: Seq24, made: seq<Frame>, o: Outbox, bytes: nat)
    requires PartsDone(j, j.count, rest, reliable, made, o, bytes)
    ensures made == FramesLeft(j, 0, j.payload, j.reliable) && reliable == Skip(j.reliable, j.count)
  {
    assert FramesLeft(j, j.count, rest, reliable) == [];
  }

  lemma DrainedPrefix(out: seq<Range>, rest: seq<Range>, all: seq<Range>)
    requires out + rest == all
    ensures out == all[..|out|] && rest == all[|out|..]
  {
  }

  /** Once a frame fails, the rest of the datagram is not looked at. */
  lemma {:induction false} StopsThere(rx: Rx, cfg: RxConfig, frames: seq<Frame>, i: nat, now: Instant)
    requires i <= |frames| && HandleFrames(rx, cfg, frames[..i], now).error.Some?
    ensures HandleFrames(rx, cfg, frames, now) == HandleFrames(rx, cfg, frames[..i], now)
    decreases |frames|
  {
    if i == |frames| {
      assert frames[..i] == frames;
    } else {
      var init := frames[..|frames| - 1];
      assert init[..i] == frames[..i];
      StopsThere(rx, cfg, init, i, now);
    }
  }

  /** The pieces before `start` have been reported. */
  ghost predicate Reporting(rx: Rx, cfg: RxConfig, from: Seq24, to: Seq24, start: Seq24, done: seq<Range>,
                            queue: seq<Range>, flush: Instant, now: Instant)
  {
    && DistanceTo(start, to) < HALF && NackChunks(from, to) == done + NackChunks(start, to)
    && Reported(rx, cfg, done, queue, flush, now)
  }

  ghost predicate Reported(rx: Rx, cfg: RxConfig, done: seq<Range>, queue: seq<Range>, flush: Instant, now: Instant) {
    && queue == PushAll(rx.nacks, cfg.queueCapacity, done)
    && flush == if done == [] || rx.nacks != [] then rx.nextNackFlush else now + cfg.nackFlushInterval
  }

  lemma ReportNext(rx: Rx, cfg: RxConfig, from: Seq24, to: Seq24, start: Seq24, done: seq<Range>,
                   queue: seq<Range>, flush: Instant, now: Instant, cut: Seq24)
    requires Reporting(rx, cfg, from, to, start, done, queue, flush, now)
    requires cut == if DistanceTo(start, to) < MAX_ACK_SEQUENCES then to else Plus(start, MAX_ACK_SEQUENCES - 1)
    ensures var more := done + [Range(start, cut)];
            var pushed := Push(queue, cfg.queueCapacity, Range(start, cut));
            var deadline := if queue == [] then now + cfg.nackFlushInterval else flush;
            && Reported(rx, cfg, more, pushed, deadline, now)
            && (cut == to ==> NackChunks(from, to) == more)
            && (cut != to ==> && Reporting(rx, cfg, from, to, Next(cut), more, pushed, deadline, now)
                              && DistanceTo(Next(cut), to) < DistanceTo(start, to))
  {
    NackRound(from, to, start, done, cut);
    PushAllLast(rx.nacks, cfg.queueCapacity, done, Range(start, cut));
  }

  lemma NackRound(from: Seq24, to: Seq24, start: Seq24, done: seq<Range>, cut: Seq24)
    requires NackChunks(from, to) == done + NackChunks(start, to)
    requires cut == if DistanceTo(start, to) < MAX_ACK_SEQUENCES then to else Plus(start, MAX_ACK_SEQUENCES - 1)
    ensures var more := done + [Range(start, cut)];
            if cut == to then NackChunks(from, to) == more
            else NackChunks(from, to) == more + NackChunks(Next(cut), to) && DistanceTo(Next(cut), to) < DistanceTo(start, to)
  {
    if cut != to { assert done + NackChunks(start, to) == done + [Range(start, cut)] + NackChunks(Next(cut), to); }
  }

  lemma PushAllLast(queue: seq<Range>, capacity: nat, done: seq<Range>, r: Range)
    ensures PushAll(queue, capacity, done + [r]) == Push(PushAll(queue, capacity, done), capacity, r)
    ensures queue != [] ==> PushAll(queue, capacity, done) != []
  {
    assert (done + [r])[..|done|] == done;
    PushAllGrows(queue, capacity, done);
  }

  lemma PushGrows(queue: seq<Range>, capacity: nat, r: Range)
    ensures |Push(queue, capacity, r)| >= |queue|
    decreases if r.Wraps() then 1 else 0
  {
    if r.Wraps() {
      PushGrows(queue, capacity, Range(r.start, MODULO - 1));
      PushGrows(Push(queue, capacity, Range(r.start, MODULO - 1)), capacity, Range(0, r.end));
    }
  }

  lemma {:induction false} PushAllGrows(queue: seq<Range>, capacity: nat, ranges: seq<Range>)
    ensures |PushAll(queue, capacity, ranges)| >= |queue|
  {
    if ranges != [] {
      PushAllGrows(queue, capacity, ranges[..|ranges| - 1]);
      PushGrows(PushAll(queue, capacity, ranges[..|ranges| - 1]), capacity, ranges[|ranges| - 1]);
    }
  }
}
