/** Everything a session puts on the wire encodes, fits, and is read back as it was meant. */
module Emission {
  import opened Base
  import opened Sequence24
  import opened Wire
  import opened Frames
  import opened Ack
  import opened AckQueues
  import opened Datagrams
  import opened Outboxes
  import opened Flights
  import opened Send
  import opened Receive

  /** A frame that encodes and that every decoder accepts as it is. */
  ghost predicate Clean(f: Frame) { WellFormed(f) && EncodeFault(f).None? && Acceptable(f) }

  ghost predicate CleanDatagram(d: Datagram) { DataDatagram(d) && forall f <- d.payload.frames :: Clean(f) }

  ghost predicate DataDatagram(d: Datagram) {
    (d.flags == FLAGS_CONTINUOUS || d.flags == FLAGS_HAS_B_AND_AS) && d.payload.FramesPayload?
  }

  /** A payload the wire format can carry: not empty, in pieces below the length limit, at most
      8192 of them. */
  ghost predicate Carriable(mtu: nat, payload: Bytes, rel: Reliability) {
    && payload != [] && LongestPiece(mtu, |payload|, rel) < 8192
    && EstimateImpact(mtu, |payload|, rel).frames <= MAX_SPLIT_PARTS
  }

  // ----- frames -----

  lemma SingleClean(n: Numbers, payload: Bytes, rel: Reliability, channel: u8)
    requires 1 <= |payload| < 8192
    ensures Clean(SingleFrames(n, payload, rel, channel).frames[0])
  {
    BitLengthTruncates(|payload|);
  }

  lemma PartClean(rel: Reliability, reliable: Seq24, sequence: Option<Seq24>, ordering: Option<Seq24>,
                  channel: u8, id: u16, count: nat, done: nat, part: Bytes)
    requires rel.IsReliable() && (sequence.Some? <==> rel.IsSequenced()) && (ordering.Some? <==> rel.HasOrdering())
    requires done < count <= MAX_SPLIT_PARTS && 1 <= |part| < 8192
    ensures Clean(PartFrame(rel, reliable, sequence, ordering, channel, SplitInfo(CastU32(count), id, CastU32(done)), part))
  {
    BitLengthTruncates(|part|);
  }

  lemma {:induction false} PartsClean(rel: Reliability, reliable: Seq24, sequence: Option<Seq24>, ordering: Option<Seq24>,
                   channel: u8, id: u16, count: nat, done: nat, parts: seq<Bytes>)
    requires rel.IsReliable() && (sequence.Some? <==> rel.IsSequenced()) && (ordering.Some? <==> rel.HasOrdering())
    requires done + |parts| == count <= MAX_SPLIT_PARTS
    requires forall c <- parts :: 1 <= |c| < 8192
    ensures forall f <- PartFrames(rel, reliable, sequence, ordering, channel, id, count, done, parts) :: Clean(f)
    decreases |parts|
  {
    if parts != [] {
      assert parts[0] in parts;
      PartClean(rel, reliable, sequence, ordering, channel, id, count, done, parts[0]);
      forall c <- parts[1..] ensures 1 <= |c| < 8192 { assert c in parts; }
      PartsClean(rel, Next(reliable), sequence, ordering, channel, id, count, done + 1, parts[1..]);
    }
  }

  /** The frames built for a carriable payload are clean. */
  lemma FramesClean(n: Numbers, mtu: nat, payload: Bytes, rel: Reliability, channel: u8)
    requires Carriable(mtu, payload, rel)
    ensures forall f <- FramesFor(n, mtu, payload, rel, channel).frames :: Clean(f)
  {
    if FitsSingle(mtu, |payload|, rel) {
      SingleClean(n, payload, rel, channel);
    } else {
      var r := NormalizeForSplit(rel);
      var size := MaxPayload(mtu, r, true);
      var parts := Chunks(payload, size);
      ChunksCover(payload, size);
      ChunksLongest(payload, size);
      var n1 := NumberOrdering(n.(split := (n.split + 1) % 0x1_0000), r, channel);
      var n2 := NumberSequence(n1.0, r, channel);
      PartsClean(r, n2.0.reliable, n2.1, n1.1, channel, n.split, |parts|, 0, parts);
    }
  }

  lemma {:induction false} PartsFormed(rel: Reliability, reliable: Seq24, sequence: Option<Seq24>, ordering: Option<Seq24>,
                    channel: u8, id: u16, count: nat, done: nat, parts: seq<Bytes>)
    requires rel.IsReliable() && (sequence.Some? <==> rel.IsSequenced()) && (ordering.Some? <==> rel.HasOrdering())
    ensures forall f <- PartFrames(rel, reliable, sequence, ordering, channel, id, count, done, parts) :: WellFormed(f)
    decreases |parts|
  {
    if parts != [] {
      PartsFormed(rel, Next(reliable), sequence, ordering, channel, id, count, done + 1, parts[1..]);
    }
  }

  /** Whatever the payload, the frames built for it have exactly the fields their class calls for. */
  lemma FramesFormed(n: Numbers, mtu: nat, payload: Bytes, rel: Reliability, channel: u8)
    ensures forall f <- FramesFor(n, mtu, payload, rel, channel).frames :: WellFormed(f)
  {
    if !FitsSingle(mtu, |payload|, rel) {
      var r := NormalizeForSplit(rel);
      var parts := Chunks(payload, MaxPayload(mtu, r, true));
      var n1 := NumberOrdering(n.(split := (n.split + 1) % 0x1_0000), r, channel);
      var n2 := NumberSequence(n1.0, r, channel);
      PartsFormed(r, n2.0.reliable, n2.1, n1.1, channel, n.split, |parts|, 0, parts);
    }
  }

  /** Each piece of a split payload fits a datagram of its own. */
  lemma PartsFit(n: Numbers, mtu: nat, payload: Bytes, rel: Reliability, channel: u8)
    requires !FitsSingle(mtu, |payload|, rel) && mtu > HEADER_SIZE + Overhead(NormalizeForSplit(rel), true)
    ensures forall f <- SplitFrames(n, mtu, payload, rel, channel).frames :: HEADER_SIZE + FrameSize(f) <= mtu
  {
    var r := NormalizeForSplit(rel);
    var size := MaxPayload(mtu, r, true);
    var parts := Chunks(payload, size);
    ChunksCover(payload, size);
    var n1 := NumberOrdering(n.(split := (n.split + 1) % 0x1_0000), r, channel);
    var n2 := NumberSequence(n1.0, r, channel);
    PartsSmall(r, n2.0.reliable, n2.1, n1.1, channel, n.split, |parts|, 0, parts, size);
  }

  lemma {:induction false} PartsSmall(rel: Reliability, reliable: Seq24, sequence: Option<Seq24>, ordering: Option<Seq24>,
                   channel: u8, id: u16, count: nat, done: nat, parts: seq<Bytes>, size: nat)
    requires rel.IsReliable() && forall c <- parts :: |c| <= size
    ensures forall f <- PartFrames(rel, reliable, sequence, ordering, channel, id, count, done, parts) ::
              FrameSize(f) <= Overhead(rel, true) + size
    decreases |parts|
  {
    if parts != [] {
      assert parts[0] in parts;
      BitLengthTruncates(|parts[0]|);
      PartsSmall(rel, Next(reliable), sequence, ordering, channel, id, count, done + 1, parts[1..], size);
      var rest := PartFrames(rel, Next(reliable), sequence, ordering, channel, id, count, done + 1, parts[1..]);
      var fs := PartFrames(rel, reliable, sequence, ordering, channel, id, count, done, parts);
      assert FrameSize(fs[0]) <= Overhead(rel, true) + size;
      assert fs == [fs[0]] + rest;
    }
  }

  // ----- datagrams -----

  lemma {:induction false} CleanFault(frames: seq<Frame>)
    requires forall f <- frames :: Clean(f)
    ensures FramesFault(frames).None?
  {
    if frames != [] {
      assert Clean(frames[0]);
      forall f <- frames[1..] ensures Clean(f) { assert f in frames; }
      CleanFault(frames[1..]);
    }
  }

  /** A clean datagram encodes to exactly its announced size and is read back unchanged. */
  lemma CleanRoundTrip(d: Datagram)
    requires CleanDatagram(d)
    ensures DatagramFault(d).None? && |EncodeDatagram(d)| == DatagramSize(d)
    ensures DecodeDatagram(EncodeDatagram(d)) == Ok(d)
  {
    CleanFault(d.payload.frames);
    DataRoundTrip(d);
  }

  lemma {:induction false} PickedSize(picked: seq<Queued>)
    requires forall q <- picked :: QueuedOk(q)
    ensures FramesSize(FramesOf(picked)) == Sizes(picked)
  {
    if picked != [] {
      var n := |picked| - 1;
      forall q <- picked[..n] ensures QueuedOk(q) { assert q in picked; }
      PickedSize(picked[..n]);
      assert picked[n] in picked;
      var fs := FramesOf(picked);
      assert fs[..n] == FramesOf(picked[..n]) by { FramesOfAt(picked[..n]); }
      FramesOfAt(picked);
      FramesSizeLast(fs);
    }
  }

  // ----- where everything on the wire comes from -----

  /** All frames a session has built so far, and all new datagrams it has sent, in order. */
  datatype Trail = Trail(made: set<Frame>, emitted: seq<Datagram>)

  ghost function Trailed(t: Trail, tx: Tx, cfg: TxConfig, e: Event): Trail {
    match e
    case Queue(payload, rel, channel, priority, receipt) =>
      if Decide(cfg.queue, tx.outbox, EstimateImpact(tx.mtu, |payload|, rel), priority) == Allow
      then t.(made := t.made + set f <- FramesFor(tx.numbers, tx.mtu, payload, rel, channel).frames) else t
    case Emit(picked, _, _) => t.(emitted := t.emitted + [DatagramFor(tx, picked)])
    case _ => t
  }

  ghost predicate Carries(d: Datagram, made: set<Frame>) {
    DataDatagram(d) && forall f <- d.payload.frames :: f in made
  }

  /** What waits was built, what is tracked was sent, and the n-th new datagram has number n. */
  ghost predicate Follows(tx: Tx, t: Trail) {
    && tx.numbers.write == Of(|t.emitted|)
    && (forall q <- tx.outbox.heap :: q.frame in t.made)
    && (forall i | 0 <= i < |t.emitted| :: t.emitted[i].sequence == Of(i) && Carries(t.emitted[i], t.made))
    && (forall k <- tx.flight.sent :: TrackedFrom(tx.flight, k, t.emitted))
  }

  ghost predicate TrackedFrom(fl: Flight, k: Seq24, emitted: seq<Datagram>)
    requires k in fl.sent
  {
    fl.sent[k].datagram in emitted && fl.sent[k].datagram.sequence == k
  }

  lemma {:induction false} PushedMade(o: Outbox, frames: seq<Frame>, priority: Priority, receipt: Option<nat>, made: set<Frame>)
    requires (forall q <- o.heap :: q.frame in made) && forall f <- frames :: f in made
    ensures forall q <- PushFrames(o, frames, priority, receipt).heap :: q.frame in made
  {
    if frames != [] {
      var n := |frames| - 1;
      forall f <- frames[..n] ensures f in made { assert f in frames; }
      PushedMade(o, frames[..n], priority, receipt, made);
      assert frames[n] in frames;
    }
  }

  lemma PickedMade(tx: Tx, picked: seq<Queued>, budget: nat, made: set<Frame>)
    requires Picks(tx, picked, budget) && forall q <- tx.outbox.heap :: q.frame in made
    ensures Carries(DatagramFor(tx, picked), made)
    ensures forall q <- picked :: q in tx.outbox.heap
  {
    forall q <- picked ensures q in tx.outbox.heap { assert q in multiset(picked); }
    FramesOfAt(picked);
    forall f <- FramesOf(picked) ensures f in made {
      var i :| 0 <= i < |picked| && FramesOf(picked)[i] == f;
      assert picked[i] in picked;
    }
  }

  lemma TrackFollows(fl: Flight, d: Datagram, ids: seq<nat>, now: Instant, rto: real, reliable: bool, emitted: seq<Datagram>)
    requires forall k <- fl.sent :: TrackedFrom(fl, k, emitted)
    ensures var after := Track(fl, d, ids, now, rto, reliable);
            forall k <- after.sent :: TrackedFrom(after, k, emitted + [d])
    ensures forall k <- fl.sent :: TrackedFrom(fl, k, emitted + [d])
  {
    forall k <- fl.sent ensures TrackedFrom(fl, k, emitted + [d]) { assert TrackedFrom(fl, k, emitted); }
    var after := Track(fl, d, ids, now, rto, reliable);
    forall k <- after.sent ensures TrackedFrom(after, k, emitted + [d]) {
      if k != d.sequence { assert TrackedFrom(fl, k, emitted); }
    }
  }

  lemma NumberedNext(emitted: seq<Datagram>, d: Datagram, made: set<Frame>)
    requires forall i | 0 <= i < |emitted| :: emitted[i].sequence == Of(i) && Carries(emitted[i], made)
    requires d.sequence == Of(|emitted|) && Carries(d, made)
    ensures forall i | 0 <= i < |emitted + [d]| :: (emitted + [d])[i].sequence == Of(i) && Carries((emitted + [d])[i], made)
    ensures Next(d.sequence) == Of(|emitted + [d]|)
  {
    NextOf(|emitted|);
  }

  lemma EmitFollows(tx: Tx, picked: seq<Queued>, budget: nat, now: Instant, t: Trail)
    requires Follows(tx, t) && Picks(tx, picked, budget)
    ensures Follows(Build(tx, picked, now), t.(emitted := t.emitted + [DatagramFor(tx, picked)]))
  {
    PickedMade(tx, picked, budget, t.made);
    NumberedNext(t.emitted, DatagramFor(tx, picked), t.made);
    TrackFollows(tx.flight, DatagramFor(tx, picked), ReceiptIds(picked), now, tx.cc.rto, HasReliable(picked), t.emitted);
  }

  ghost predicate SameDatagrams(a: Flight, b: Flight) {
    forall k <- b.sent :: k in a.sent && b.sent[k].datagram == a.sent[k].datagram
  }

  lemma {:induction false} AckKeeps(tx: Tx, cfg: TxConfig, numbers: seq<Seq24>, now: Instant)
    ensures var after := AckNumbers(tx, cfg, numbers, now).0;
            && SameDatagrams(tx.flight, after.flight) && after.outbox == tx.outbox && after.numbers == tx.numbers
            && after.incomingNacks == tx.incomingNacks && after.incomingAcks == tx.incomingAcks && after.mtu == tx.mtu
            && forall k <- tx.flight.sent :: k in after.flight.sent || k in numbers
  {
    if numbers != [] {
      AckKeeps(tx, cfg, numbers[..|numbers| - 1], now);
      assert numbers == numbers[..|numbers| - 1] + [numbers[|numbers| - 1]];
    }
  }

  lemma {:induction false} NackKeeps(tx: Tx, numbers: seq<Seq24>, now: Instant)
    ensures var after := NackNumbers(tx, numbers, now).0;
            && SameDatagrams(tx.flight, after.flight) && after.outbox == tx.outbox && after.numbers == tx.numbers
            && after.incomingNacks == tx.incomingNacks && after.incomingAcks == tx.incomingAcks && after.mtu == tx.mtu
            && after.flight.sent.Keys == tx.flight.sent.Keys
  {
    if numbers != [] { NackKeeps(tx, numbers[..|numbers| - 1], now); }
  }

  /** Working off acknowledgements leaves the rest of the sending half alone, and forgets only
      datagrams whose numbers were acknowledged. */
  lemma ProcessKeeps(tx: Tx, cfg: TxConfig, now: Instant)
    ensures var after := Process(tx, cfg, now).0;
            && SameDatagrams(tx.flight, after.flight) && after.outbox == tx.outbox && after.numbers == tx.numbers
            && after.incomingAcks == [] && after.incomingNacks == [] && after.mtu == tx.mtu
            && forall k <- tx.flight.sent :: k in after.flight.sent || k in WalkAll(tx.incomingAcks)
  {
    var tx0 := tx.(incomingAcks := []);
    AckKeeps(tx0, cfg, WalkAll(tx.incomingAcks), now);
    var tx1 := AckNumbers(tx0, cfg, WalkAll(tx.incomingAcks), now).0.(incomingNacks := []);
    NackKeeps(tx1, WalkAll(tx.incomingNacks), now);
  }

  lemma {:induction false} ResentKeeps(fl: Flight, selected: seq<Seq24>, now: Instant, rto: real)
    ensures SameDatagrams(fl, ResentAll(fl, selected, now, rto))
  {
    if selected != [] { ResentKeeps(fl, selected[..|selected| - 1], now, rto); }
  }

  lemma {:induction false} ResentKeys(fl: Flight, selected: seq<Seq24>, now: Instant, rto: real)
    ensures ResentAll(fl, selected, now, rto).sent.Keys == fl.sent.Keys
  {
    if selected != [] { ResentKeys(fl, selected[..|selected| - 1], now, rto); }
  }

  lemma TouchFollows(tx: Tx, after: Tx, t: Trail)
    requires Follows(tx, t) && after.outbox == tx.outbox && after.numbers == tx.numbers
    requires SameDatagrams(tx.flight, after.flight)
    ensures Follows(after, t)
  {
    forall k <- after.flight.sent ensures TrackedFrom(after.flight, k, t.emitted) {
      assert TrackedFrom(tx.flight, k, t.emitted);
    }
  }

  lemma QueueFollows(tx: Tx, cfg: TxConfig, e: Event, t: Trail)
    requires Follows(tx, t) && e.Queue?
    ensures Follows(QueuePayload(tx, cfg, e.payload, e.reliability, e.channel, e.priority, e.receipt).0,
                    Trailed(t, tx, cfg, e))
  {
    if Decide(cfg.queue, tx.outbox, EstimateImpact(tx.mtu, |e.payload|, e.reliability), e.priority) == Allow {
      var built := FramesFor(tx.numbers, tx.mtu, e.payload, e.reliability, e.channel);
      var made := Trailed(t, tx, cfg, e).made;
      PushedMade(tx.outbox, built.frames, e.priority, e.receipt, made);
      assert built.numbers.write == tx.numbers.write;
      forall i | 0 <= i < |t.emitted| ensures Carries(t.emitted[i], made) { assert Carries(t.emitted[i], t.made); }
      forall k <- tx.flight.sent ensures TrackedFrom(tx.flight, k, t.emitted) {}
    }
  }

  /** Every step keeps the account of where frames and datagrams come from. */
  lemma StepFollows(tx: Tx, cfg: TxConfig, e: Event, t: Trail)
    requires Follows(tx, t) && Enabled(tx, e)
    ensures Follows(Step(tx, cfg, e), Trailed(t, tx, cfg, e))
  {
    match e {
      case Queue(_, _, _, _, _) => QueueFollows(tx, cfg, e, t);
      case Emit(picked, budget, now) => EmitFollows(tx, picked, budget, now, t);
      case Again(selected, _, _, now) =>
        var after := Resend(tx, cfg, selected, now);
        ResentKeeps(tx.flight, selected, now, after.cc.rto);
        TouchFollows(tx, after, t);
      case Receipts(now) =>
        ProcessKeeps(tx, cfg, now);
        TouchFollows(tx, Process(tx, cfg, now).0, t);
      case _ => TouchFollows(tx, Step(tx, cfg, e), t);
    }
  }

  lemma {:induction false} SelectedTracked(tx: Tx, selected: seq<Seq24>, d: Datagram)
    requires d in Selected(tx, selected)
    ensures exists k <- tx.flight.sent :: tx.flight.sent[k].datagram == d
  {
    if selected != [] && d in Selected(tx, selected[..|selected| - 1]) {
      SelectedTracked(tx, selected[..|selected| - 1], d);
    }
  }

  /** What a step hands to the network is a new datagram or one sent before, unchanged. */
  lemma SentEmitted(tx: Tx, cfg: TxConfig, e: Event, t: Trail, d: Datagram)
    requires Follows(tx, t) && d in Sends(tx, e)
    ensures d in Trailed(t, tx, cfg, e).emitted
  {
    if e.Again? {
      SelectedTracked(tx, e.selected, d);
      var k :| k in tx.flight.sent && tx.flight.sent[k].datagram == d;
      assert TrackedFrom(tx.flight, k, t.emitted);
    }
  }

  // ----- every datagram is well formed -----

  ghost predicate AllFormed(t: Trail) { forall f <- t.made :: WellFormed(f) }

  lemma StepFormed(tx: Tx, cfg: TxConfig, e: Event, t: Trail)
    requires AllFormed(t)
    ensures AllFormed(Trailed(t, tx, cfg, e))
  {
    if e.Queue? { FramesFormed(tx.numbers, tx.mtu, e.payload, e.reliability, e.channel); }
  }

  /** A datagram that was sent and encodes is read back unchanged or not at all. */
  lemma ReadOrRefused(tx: Tx, t: Trail, d: Datagram)
    requires Follows(tx, t) && AllFormed(t) && d in t.emitted && DatagramFault(d).None?
    ensures var r := DecodeDatagram(EncodeDatagram(d)); r == Ok(d) || r.Err?
  {
    var i :| 0 <= i < |t.emitted| && t.emitted[i] == d;
    assert Carries(t.emitted[i], t.made);
    DataRoundTrip(d);
  }

  // ----- every datagram is clean -----

  ghost predicate AllClean(t: Trail) { forall f <- t.made :: Clean(f) }

  /** All frames ever built are clean, if the payloads queued are carriable. */
  lemma StepClean(tx: Tx, cfg: TxConfig, e: Event, t: Trail)
    requires AllClean(t) && (e.Queue? ==> Carriable(tx.mtu, e.payload, e.reliability))
    ensures AllClean(Trailed(t, tx, cfg, e))
  {
    if e.Queue? { FramesClean(tx.numbers, tx.mtu, e.payload, e.reliability, e.channel); }
  }

  /** Every data datagram a step hands to the network encodes without error to exactly its
      announced size, which is within the MTU in force if the datagram is new, and is read back
      unchanged. */
  lemma SentRoundTrip(tx: Tx, cfg: TxConfig, e: Event, t: Trail, d: Datagram)
    requires OutboxOk(tx.outbox) && Follows(tx, t) && AllClean(t) && Enabled(tx, e) && d in Sends(tx, e)
    ensures DatagramFault(d).None? && |EncodeDatagram(d)| == DatagramSize(d)
    ensures DecodeDatagram(EncodeDatagram(d)) == Ok(d)
    ensures e.Emit? ==> DatagramSize(d) <= tx.mtu
  {
    SentEmitted(tx, cfg, e, t, d);
    StepFollows(tx, cfg, e, t);
    EmittedClean(Step(tx, cfg, e), Trailed(t, tx, cfg, e), d);
    CleanRoundTrip(d);
    if e.Emit? {
      PickedMade(tx, e.picked, e.budget, t.made);
      PickedSize(e.picked);
    }
  }

  lemma EmittedClean(tx: Tx, t: Trail, d: Datagram)
    requires Follows(tx, t) && AllClean(t) && d in t.emitted
    ensures CleanDatagram(d)
  {
    var i :| 0 <= i < |t.emitted| && t.emitted[i] == d;
    assert Carries(t.emitted[i], t.made);
  }

  // ----- control datagrams -----

  /** A drained acknowledgement or loss report fits the MTU, or is a single range in 17 bytes. It
      encodes if and only if it has at most 8192 records, as it does for any MTU up to 32774, and
      is then read back naming the same numbers. */
  lemma DrainedRoundTrip(rx: Rx, cfg: RxConfig, mtu: nat, now: Instant, isAck: bool)
    ensures var drained := if isAck then DrainAcks(rx, cfg, mtu, now).1 else DrainNacks(rx, cfg, mtu, now).1;
            drained.Some? ==>
              var d := drained.value;
              var ranges := if isAck then rx.acks[..DrainedAcks(rx, cfg, mtu)] else rx.nacks[..DrainedNacks(rx, cfg, mtu)];
              && DatagramSize(d) <= Max(mtu, 17) && (|ranges| > 1 ==> DatagramSize(d) <= mtu)
              && (DatagramFault(d).None? <==> |AllRecords(ranges)| <= MAX_ACK_SEQUENCES)
              && (mtu <= 32774 ==> DatagramFault(d).None?)
              && (DatagramFault(d).None? ==>
                   && |EncodeDatagram(d)| == DatagramSize(d)
                   && DecodeDatagram(EncodeDatagram(d))
                      == Ok(Datagram(d.flags, 0, if isAck then AckPayload(AllRecords(ranges)) else NackPayload(AllRecords(ranges)))))
              && forall s: Seq24 :: Covers(AllRecords(ranges), s) <==> Covers(ranges, s)
  {
    if isAck {
      DrainedFits(rx.acks, mtu, cfg.ackMaxRanges);
      if DrainedAcks(rx, cfg, mtu) > 0 { ControlBack(FLAGS_ACK, rx.acks[..DrainedAcks(rx, cfg, mtu)], true); }
    } else {
      DrainedFits(rx.nacks, mtu, cfg.nackMaxRanges);
      if DrainedNacks(rx, cfg, mtu) > 0 { ControlBack(FLAGS_NACK, rx.nacks[..DrainedNacks(rx, cfg, mtu)], false); }
    }
  }

  lemma ControlBack(flags: u8, ranges: seq<Range>, isAck: bool)
    requires flags == if isAck then FLAGS_ACK else FLAGS_NACK
    ensures var d := Datagram(flags, 0, if isAck then AckPayload(ranges) else NackPayload(ranges));
            var e := Datagram(flags, 0, if isAck then AckPayload(AllRecords(ranges)) else NackPayload(AllRecords(ranges)));
            && DatagramSize(d) == 1 + PayloadSize(ranges)
            && (DatagramFault(d).None? <==> |AllRecords(ranges)| <= MAX_ACK_SEQUENCES)
            && (DatagramFault(d).None? ==> DecodeDatagram(EncodeDatagram(d)) == Ok(e))
    ensures forall s: Seq24 :: Covers(AllRecords(ranges), s) <==> Covers(ranges, s)
  {
    if |AllRecords(ranges)| <= MAX_ACK_SEQUENCES { ControlRoundTrip(flags, ranges, isAck); }
    forall s: Seq24 ensures Covers(AllRecords(ranges), s) <==> Covers(ranges, s) { AllRecordsCover(ranges, s); }
  }
}
