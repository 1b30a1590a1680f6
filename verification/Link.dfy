/** A sending session and a receiving session joined by a network that loses, repeats and
    reorders: what is on the wire is a set of byte strings that only grows, and any of them may
    arrive at any time, any number of times, or never. */
module Link {
  import opened Base
  import opened Sequence24
  import opened Wire
  import opened Frames
  import opened Ack
  import opened AckQueues
  import opened Datagrams
  import opened Outboxes
  import opened Flights
  import opened Send
  import opened Emission
  import opened Delivery
  import R = Receive
  import Reorder
  import Splits
  import Conservation

  // ----- the book of what was queued -----

  ghost predicate Accepts(tx: Tx, cfg: TxConfig, e: Event) {
    e.Queue? && Decide(cfg.queue, tx.outbox, EstimateImpact(tx.mtu, |e.payload|, e.reliability), e.priority) == Allow
  }

  ghost function Logged(logs: Logs, payload: Bytes, rel: Reliability, channel: u8): Logs {
    if rel.HasOrdering() then logs[channel := LogAt(logs, channel) + [Message(payload, rel.IsOrdered())]] else logs
  }

  ghost function Booked(b: Book, n: Numbers, mtu: nat, payload: Bytes, rel: Reliability, channel: u8): Book {
    var logs := Logged(b.logs, payload, rel, channel);
    if FitsSingle(mtu, |payload|, rel) then Book(logs, b.parts, b.splits)
    else Book(logs, b.parts[n.split := SplitFrames(n, mtu, payload, rel, channel).frames], b.splits + 1)
  }

  /** The counters of the session give out the numbers of the book. */
  ghost predicate Counts(n: Numbers, b: Book) {
    && (forall k: u8 :: CounterAt(n.ordering, k) == Of(|LogAt(b.logs, k)|))
    && n.split == b.splits % 0x1_0000
    && (forall id <- b.parts :: id < b.splits)
  }

  /** Fewer than 2^24 ordering numbers on each channel and at most 2^16 split payloads. */
  ghost predicate Room(b: Book) {
    b.splits <= 0x1_0000 && forall k: u8 :: |LogAt(b.logs, k)| < MODULO
  }

  lemma LoggedAt(logs: Logs, payload: Bytes, rel: Reliability, channel: u8, k: u8)
    ensures var log := LogAt(logs, k);
            LogAt(Logged(logs, payload, rel, channel), k)
            == if rel.HasOrdering() && k == channel then log + [Message(payload, rel.IsOrdered())] else log
  {
  }

  /** The ordering number taken for a payload is the position of its message. */
  lemma OrderingNumber(n: Numbers, b: Book, payload: Bytes, rel: Reliability, channel: u8)
    requires Counts(n, b) && |LogAt(Logged(b.logs, payload, rel, channel), channel)| < MODULO
    ensures var ordering := NumberOrdering(n, rel, channel).1;
            Tells(Logged(b.logs, payload, rel, channel), rel, ordering, if ordering.Some? then Some(channel) else None, payload)
    ensures forall k: u8 ::
              CounterAt(NumberOrdering(n, rel, channel).0.ordering, k) == Of(|LogAt(Logged(b.logs, payload, rel, channel), k)|)
  {
    LoggedAt(b.logs, payload, rel, channel, channel);
    CountAt(n.ordering, channel, channel);
    assert CounterAt(n.ordering, channel) == Of(|LogAt(b.logs, channel)|);
    NextOf(|LogAt(b.logs, channel)|);
    forall k: u8 ensures
        CounterAt(NumberOrdering(n, rel, channel).0.ordering, k) == Of(|LogAt(Logged(b.logs, payload, rel, channel), k)|)
    {
      LoggedAt(b.logs, payload, rel, channel, k);
      CountAt(n.ordering, channel, k);
    }
  }

  // ----- the parts of a split payload -----

  lemma {:induction false} PartFrameAt(rel: Reliability, reliable: Seq24, sequence: Option<Seq24>, ordering: Option<Seq24>,
                    channel: u8, id: u16, count: nat, done: nat, parts: seq<Bytes>, j: nat)
    requires done + |parts| == count < 0x1_0000_0000 && j < |parts|
    ensures var f := PartFrames(rel, reliable, sequence, ordering, channel, id, count, done, parts)[j];
            && f.header == FrameHeader(rel, true, false) && f.split == Some(SplitInfo(count, id, done + j))
            && f.sequenceIndex == sequence && f.orderingIndex == ordering
            && f.orderingChannel == (if ordering.Some? then Some(channel) else None) && f.payload == parts[j]
    decreases |parts|
  {
    if j > 0 {
      var next := if rel.IsReliable() then Next(reliable) else reliable;
      PartFrameAt(rel, next, sequence, ordering, channel, id, count, done + 1, parts[1..], j - 1);
    }
  }

  /** The number of parts fits the thirty-two bits it is sent in. */
  ghost predicate Countable(mtu: nat, payload: Bytes, rel: Reliability) {
    EstimateImpact(mtu, |payload|, rel).frames < 0x1_0000_0000
  }

  lemma PartFramesOf(rel: Reliability, reliable: Seq24, sequence: Option<Seq24>, ordering: Option<Seq24>,
                     channel: u8, id: u16, parts: seq<Bytes>)
    requires 1 <= |parts| < 0x1_0000_0000
    ensures var fs := PartFrames(rel, reliable, sequence, ordering, channel, id, |parts|, 0, parts);
            && Splits.PartsOf(fs, id) && Splits.Payloads(fs) == parts
            && fs[0].header.reliability == rel && fs[0].orderingIndex == ordering
            && fs[0].orderingChannel == if ordering.Some? then Some(channel) else None
  {
    var fs := PartFrames(rel, reliable, sequence, ordering, channel, id, |parts|, 0, parts);
    PartFrameAt(rel, reliable, sequence, ordering, channel, id, |parts|, 0, parts, 0);
    forall j | 0 <= j < |parts|
      ensures fs[j].header == fs[0].header && fs[j].split == Some(SplitInfo(|parts|, id, j)) && fs[j].header.isSplit
      ensures fs[j].sequenceIndex == fs[0].sequenceIndex && fs[j].orderingIndex == fs[0].orderingIndex
      ensures fs[j].orderingChannel == fs[0].orderingChannel && fs[j].payload == parts[j]
    {
      PartFrameAt(rel, reliable, sequence, ordering, channel, id, |parts|, 0, parts, j);
    }
  }

  lemma SplitOrdering(n: Numbers, rel: Reliability, channel: u8)
    ensures NumberOrdering(n.(split := (n.split + 1) % 0x1_0000), NormalizeForSplit(rel), channel).1
         == NumberOrdering(n, rel, channel).1
  {
  }

  /** The frames of a split payload are the parts of one message, and joined they are it. */
  lemma SplitParts(n: Numbers, mtu: nat, payload: Bytes, rel: Reliability, channel: u8)
    requires !FitsSingle(mtu, |payload|, rel) && Countable(mtu, payload, rel)
    ensures var fs := SplitFrames(n, mtu, payload, rel, channel).frames;
            var ordering := NumberOrdering(n, rel, channel).1;
            && fs != [] && Splits.PartsOf(fs, n.split) && Splits.Concat(Splits.Payloads(fs)) == payload
            && fs[0].header.reliability == NormalizeForSplit(rel)
            && fs[0].orderingIndex == ordering && fs[0].orderingChannel == if ordering.Some? then Some(channel) else None
  {
    var r := NormalizeForSplit(rel);
    var size := MaxPayload(mtu, r, true);
    var parts := Chunks(payload, size);
    ChunksCover(payload, size);
    FlatIsConcat(parts);
    SplitOrdering(n, rel, channel);
    var n1 := NumberOrdering(n.(split := (n.split + 1) % 0x1_0000), r, channel);
    var n2 := NumberSequence(n1.0, r, channel);
    assert parts != [] by { assert payload != []; }
    PartFramesOf(r, n2.0.reliable, n2.1, n1.1, channel, n.split, parts);
  }

  /** Split, then fed to an assembler in any order, with repeats and other traffic in between,
      within the time-to-live: nothing comes back before the last distinct part, and then exactly
      the payload with its class and numbers. */
  lemma SplitThenReassemble(
    n: Numbers, mtu: nat, payload: Bytes, rel: Reliability, channel: u8,
    entries: Splits.Entries, lim: Splits.Limits, init: seq<Splits.Arrival>, a: Splits.Arrival, start: Instant)
    requires !FitsSingle(mtu, |payload|, rel)
    requires EstimateImpact(mtu, |payload|, rel).frames <= Min(lim.maxParts, 0xFFFF_FFFF)
    requires var sent := SplitFrames(n, mtu, payload, rel, channel).frames;
             && Splits.Timely(init + [a], start, lim.ttl, sent, n.split) && (init + [a])[0].frame in sent
             && !Splits.AllArrived(sent, init)
    requires var live := Splits.Prune(entries, lim.ttl, (init + [a])[0].at);
             n.split !in live && |live| < lim.maxConcurrent
    ensures var sent := SplitFrames(n, mtu, payload, rel, channel).frames;
            var (after, r) := Splits.Add(Splits.Feed(entries, lim, init), lim, a.frame, a.at);
            if Splits.AllArrived(sent, init + [a]) then
              && n.split !in after && r.Ok? && r.value.Some? && r.value.value.payload == payload
              && r.value.value.header.reliability == NormalizeForSplit(rel)
              && r.value.value.orderingIndex == NumberOrdering(n, rel, channel).1
            else n.split in after && (Splits.Concerns(a.frame, n.split) ==> r == Ok(None))
  {
    var sent := SplitFrames(n, mtu, payload, rel, channel).frames;
    SplitParts(n, mtu, payload, rel, channel);
    SplitCount(n, mtu, payload, rel, channel);
    Splits.AnyOrderReassembles(entries, lim, sent, n.split, init, a, start);
  }

  lemma SplitCount(n: Numbers, mtu: nat, payload: Bytes, rel: Reliability, channel: u8)
    requires !FitsSingle(mtu, |payload|, rel)
    ensures |SplitFrames(n, mtu, payload, rel, channel).frames| == EstimateImpact(mtu, |payload|, rel).frames
  {
    EstimateExact(n, mtu, payload, rel, channel);
  }

  /** A sequenced payload takes an ordering number past which the receiver never moves: with both
      frames received in order, the ordered one behind it waits. */
  lemma SequencedHoldsUp(n: Numbers, lim: Reorder.Limits, k: u8)
    requires CounterAt(n.ordering, k) == 0 && 1 <= lim.maxGap && 1 <= lim.maxPending
    ensures var first := FramesFor(n, 576, [1], ReliableSequenced, k);
            var second := FramesFor(first.numbers, 576, [2], ReliableOrdered, k);
            && |first.frames| == 1 == |second.frames|
            && var (c, r) := Reorder.Sequenced([], lim, first.frames[0]);
               r.Accept? && Reorder.Ordered(c, lim, second.frames[0]).1 == Reorder.Buffered
  {
    CountAt(n.ordering, k, k);
  }

  // ----- queueing keeps the book -----

  lemma BookedExtends(b: Book, n: Numbers, mtu: nat, payload: Bytes, rel: Reliability, channel: u8)
    requires Counts(n, b) && Room(Booked(b, n, mtu, payload, rel, channel))
    ensures Extends(b, Booked(b, n, mtu, payload, rel, channel))
  {
    forall k: u8 ensures LogAt(b.logs, k) <= LogAt(Logged(b.logs, payload, rel, channel), k) {
      LoggedAt(b.logs, payload, rel, channel, k);
    }
  }

  lemma NumbersAfter(n: Numbers, mtu: nat, payload: Bytes, rel: Reliability, channel: u8)
    ensures var after := FramesFor(n, mtu, payload, rel, channel).numbers;
            && after.ordering == NumberOrdering(n, rel, channel).0.ordering
            && after.split == if FitsSingle(mtu, |payload|, rel) then n.split else (n.split + 1) % 0x1_0000
  {
  }

  lemma SplitWraps(splits: nat)
    ensures (splits % 0x1_0000 + 1) % 0x1_0000 == (splits + 1) % 0x1_0000
  {
  }

  lemma BookedCounts(b: Book, n: Numbers, mtu: nat, payload: Bytes, rel: Reliability, channel: u8)
    requires Counts(n, b) && Room(Booked(b, n, mtu, payload, rel, channel))
    ensures Counts(FramesFor(n, mtu, payload, rel, channel).numbers, Booked(b, n, mtu, payload, rel, channel))
  {
    OrderingNumber(n, b, payload, rel, channel);
    NumbersAfter(n, mtu, payload, rel, channel);
    SplitWraps(b.splits);
  }

  lemma SingleGenuine(b: Book, n: Numbers, payload: Bytes, rel: Reliability, channel: u8)
    requires Counts(n, b) && |LogAt(Logged(b.logs, payload, rel, channel), channel)| < MODULO
    ensures Whole(Logged(b.logs, payload, rel, channel), SingleFrames(n, payload, rel, channel).frames[0])
  {
    OrderingNumber(n, b, payload, rel, channel);
  }

  lemma SplitGenuine(b: Book, n: Numbers, mtu: nat, payload: Bytes, rel: Reliability, channel: u8)
    requires Counts(n, b) && |LogAt(Logged(b.logs, payload, rel, channel), channel)| < MODULO
    requires !FitsSingle(mtu, |payload|, rel) && Countable(mtu, payload, rel)
    ensures PartsTell(Logged(b.logs, payload, rel, channel), n.split, SplitFrames(n, mtu, payload, rel, channel).frames)
  {
    OrderingNumber(n, b, payload, rel, channel);
    SplitParts(n, mtu, payload, rel, channel);
  }

  /** The frames of an accepted payload are genuine in the book that records it, and everything
      recorded before stays. */
  lemma BookedGenuine(b: Book, n: Numbers, mtu: nat, payload: Bytes, rel: Reliability, channel: u8)
    requires BookOk(b) && Counts(n, b) && Countable(mtu, payload, rel)
    requires Room(Booked(b, n, mtu, payload, rel, channel))
    ensures var c := Booked(b, n, mtu, payload, rel, channel);
            BookOk(c) && forall f <- FramesFor(n, mtu, payload, rel, channel).frames :: Genuine(c, f)
  {
    var c := Booked(b, n, mtu, payload, rel, channel);
    BookedExtends(b, n, mtu, payload, rel, channel);
    if FitsSingle(mtu, |payload|, rel) {
      SingleGenuine(b, n, payload, rel, channel);
    } else {
      SplitGenuine(b, n, mtu, payload, rel, channel);
    }
    forall id <- c.parts ensures PartsTell(c.logs, id, c.parts[id]) {
      if id in b.parts { PartsTellMore(b, c, id); }
    }
    forall f <- FramesFor(n, mtu, payload, rel, channel).frames ensures Genuine(c, f) {
      if !FitsSingle(mtu, |payload|, rel) { PartGenuine(c, n.split, f); }
    }
  }

  lemma PartGenuine(c: Book, id: u16, f: Frame)
    requires id in c.parts && PartsTell(c.logs, id, c.parts[id]) && f in c.parts[id]
    ensures Genuine(c, f)
  {
    var j :| 0 <= j < |c.parts[id]| && c.parts[id][j] == f;
  }

  lemma PartsTellMore(b: Book, c: Book, id: u16)
    requires Extends(b, c) && id in b.parts && PartsTell(b.logs, id, b.parts[id])
    ensures PartsTell(c.logs, id, c.parts[id])
  {
    var sent := b.parts[id];
    TellsMore(b, c, sent[0].header.reliability, sent[0].orderingIndex, sent[0].orderingChannel,
              Splits.Concat(Splits.Payloads(sent)));
  }

  // ----- both ends and the network -----

  /** Sender, receiver, the bytes on the wire in both directions, and the history: frames built
      and datagrams sent, the book, datagrams taken in, frames released by the receiver, frames
      its caller got, and whether some datagram ended in an error. */
  datatype World = World(
    tx: Tx, rx: R.Rx, net: set<Bytes>, back: set<Bytes>,
    trail: Trail, book: Book, ingested: set<Datagram>,
    released: seq<Frame>, handed: seq<Frame>, failed: bool)

  datatype Move =
    | Sender(e: Event)
    | Deliver(bytes: Bytes, now: Instant)
    | DrainAck(mtu: nat, now: Instant)
    | DrainNack(mtu: nat, now: Instant)
    | Hear(bytes: Bytes)
    | Sweep(now: Instant)

  datatype Setup = Setup(tx: TxConfig, rx: R.RxConfig)

  /** Which moves can happen. The sender hears acknowledgements only from the wire, and ordering
      numbers and split ids are not given out twice. */
  ghost predicate Can(w: World, s: Setup, m: Move) {
    match m
    case Sender(e) =>
      && Enabled(w.tx, e) && !e.AckIn? && !e.NackIn?
      && (e.Queue? ==> Countable(w.tx.mtu, e.payload, e.reliability))
      && Room(BookAfter(w, s, e))
    case Deliver(bytes, _) => bytes in w.net
    case Hear(bytes) => bytes in w.back
    case _ => true
  }

  ghost function BookAfter(w: World, s: Setup, e: Event): Book {
    if Accepts(w.tx, s.tx, e) then Booked(w.book, w.tx.numbers, w.tx.mtu, e.payload, e.reliability, e.channel) else w.book
  }

  /** The bytes of datagrams that encode. */
  ghost function Wired(ds: seq<Datagram>): set<Bytes> {
    set d <- ds | DatagramFault(d).None? :: EncodeDatagram(d)
  }

  ghost function WiredOption(d: Option<Datagram>): set<Bytes> { if d.Some? then Wired([d.value]) else {} }

  /** The receiver reads bytes. */
  ghost function Reads(w: World, s: Setup, bytes: Bytes, now: Instant): World {
    var d := DecodeDatagram(bytes);
    if d.Err? || !d.value.payload.FramesPayload? then w
    else
      var t := R.IngestFrames(w.rx, s.rx, d.value.sequence, d.value.payload.frames, now);
      w.(rx := t.rx, ingested := w.ingested + {d.value}, released := w.released + t.released,
         handed := if t.error.None? then w.handed + t.released else w.handed,
         failed := w.failed || t.error.Some?)
  }

  /** The sender reads bytes. */
  ghost function Hears(w: World, s: Setup, bytes: Bytes): World {
    var d := DecodeDatagram(bytes);
    if d.Err? then w else Heard(w, s, d.value.payload)
  }

  ghost function Heard(w: World, s: Setup, p: Payload): World {
    match p
    case AckPayload(ranges) => w.(tx := Step(w.tx, s.tx, AckIn(ranges)))
    case NackPayload(ranges) => w.(tx := Step(w.tx, s.tx, NackIn(ranges)))
    case FramesPayload(_) => w
  }

  ghost function After(w: World, s: Setup, m: Move): World {
    match m
    case Sender(e) =>
      w.(tx := Step(w.tx, s.tx, e), net := w.net + Wired(Sends(w.tx, e)),
         trail := Trailed(w.trail, w.tx, s.tx, e), book := BookAfter(w, s, e))
    case Deliver(bytes, now) => Reads(w, s, bytes, now)
    case DrainAck(mtu, now) =>
      var (rx, d) := R.DrainAcks(w.rx, s.rx, mtu, now); w.(rx := rx, back := w.back + WiredOption(d))
    case DrainNack(mtu, now) =>
      var (rx, d) := R.DrainNacks(w.rx, s.rx, mtu, now); w.(rx := rx, back := w.back + WiredOption(d))
    case Hear(bytes) => Hears(w, s, bytes)
    case Sweep(now) => w.(rx := R.Sweep(w.rx, s.rx, now))
  }

  // ----- what every move keeps -----

  /** The sending side: everything sent is accounted for, well formed, and genuine. */
  ghost predicate SenderInv(tx: Tx, t: Trail, b: Book) {
    && OutboxOk(tx.outbox) && Follows(tx, t) && AllFormed(t)
    && BookOk(b) && Counts(tx.numbers, b)
    && forall f <- t.made :: Genuine(b, f)
  }

  ghost predicate NetInv(net: set<Bytes>, t: Trail) {
    forall bytes <- net :: FromTrail(bytes, t)
  }

  ghost predicate FromTrail(bytes: Bytes, t: Trail) {
    exists d <- t.emitted :: DatagramFault(d).None? && bytes == EncodeDatagram(d)
  }

  /** The receiving side: what it holds is genuine, each channel has released the messages up
      to where it stands, and the caller got them in order. */
  ghost predicate ReceiverInv(w: World) {
    && RxTrue(w.rx, w.book)
    && (forall k: u8 :: ReleasedSoFar(w, k))
    && (!w.failed ==> w.handed == w.released)
    && (forall d <- w.ingested :: d in w.trail.emitted)
  }

  ghost predicate ReleasedSoFar(w: World, k: u8) {
    && Piece(OrderedOn(w.released, k), LogAt(w.book.logs, k), 0, Stands(w.rx, k))
    && Rising(OrderedOn(w.handed, k), LogAt(w.book.logs, k), Stands(w.rx, k))
  }

  ghost function NumbersOf(ds: set<Datagram>): set<Seq24> { set d <- ds :: d.sequence }

  /** The ranges name only numbers from the set. */
  ghost predicate Named(rs: seq<Range>, ns: set<Seq24>) { forall s: Seq24 :: Covers(rs, s) ==> s in ns }

  /** Acknowledgements in the receiver's queue, on the wire and at the sender name only numbers
      of datagrams that were taken in. */
  ghost predicate AckInv(w: World) {
    && Named(w.rx.acks, NumbersOf(w.ingested))
    && Named(w.tx.incomingAcks, NumbersOf(w.ingested))
    && forall bytes <- w.back :: BackNamed(bytes, NumbersOf(w.ingested))
  }

  ghost predicate BackNamed(bytes: Bytes, ns: set<Seq24>) {
    var d := DecodeDatagram(bytes);
    d.Ok? && (d.value.payload.AckPayload? ==> Named(d.value.payload.acks, ns))
  }

  ghost predicate Inv(w: World) {
    SenderInv(w.tx, w.trail, w.book) && NetInv(w.net, w.trail) && ReceiverInv(w) && AckInv(w)
  }

  // ----- the sender's moves -----

  lemma SenderKeeps(w: World, s: Setup, e: Event)
    requires SenderInv(w.tx, w.trail, w.book) && Can(w, s, Sender(e))
    ensures var v := After(w, s, Sender(e));
            SenderInv(v.tx, v.trail, v.book) && Extends(w.book, v.book)
  {
    StepFollows(w.tx, s.tx, e, w.trail);
    StepFormed(w.tx, s.tx, e, w.trail);
    Conservation.StepKeepsOk(w.tx, s.tx, e);
    if Accepts(w.tx, s.tx, e) {
      AcceptedKeeps(w.tx, w.trail, w.book, s.tx, e);
    } else {
      NumbersKept(w.tx, s.tx, e);
    }
  }

  lemma AcceptedKeeps(tx: Tx, t: Trail, b: Book, cfg: TxConfig, e: Event)
    requires BookOk(b) && Counts(tx.numbers, b) && Accepts(tx, cfg, e)
    requires Countable(tx.mtu, e.payload, e.reliability)
    requires Room(Booked(b, tx.numbers, tx.mtu, e.payload, e.reliability, e.channel))
    requires forall f <- t.made :: Genuine(b, f)
    ensures var c := Booked(b, tx.numbers, tx.mtu, e.payload, e.reliability, e.channel);
            && Extends(b, c) && BookOk(c) && Counts(Step(tx, cfg, e).numbers, c)
            && forall f <- Trailed(t, tx, cfg, e).made :: Genuine(c, f)
  {
    var c := Booked(b, tx.numbers, tx.mtu, e.payload, e.reliability, e.channel);
    BookedExtends(b, tx.numbers, tx.mtu, e.payload, e.reliability, e.channel);
    BookedCounts(b, tx.numbers, tx.mtu, e.payload, e.reliability, e.channel);
    BookedGenuine(b, tx.numbers, tx.mtu, e.payload, e.reliability, e.channel);
    forall f <- Trailed(t, tx, cfg, e).made ensures Genuine(c, f) {
      if f in t.made { GenuineMore(b, c, f); }
    }
  }

  /** Only an accepted payload takes ordering numbers and split ids. */
  lemma NumbersKept(tx: Tx, cfg: TxConfig, e: Event)
    requires !Accepts(tx, cfg, e)
    ensures var n := Step(tx, cfg, e).numbers; n.ordering == tx.numbers.ordering && n.split == tx.numbers.split
  {
    if e.Receipts? { ProcessKeeps(tx, cfg, e.now); }
  }

  lemma NetKeeps(w: World, s: Setup, e: Event)
    requires Follows(w.tx, w.trail) && NetInv(w.net, w.trail)
    ensures var v := After(w, s, Sender(e)); NetInv(v.net, v.trail)
  {
    var t := Trailed(w.trail, w.tx, s.tx, e);
    forall bytes <- w.net + Wired(Sends(w.tx, e)) ensures FromTrail(bytes, t) {
      if bytes in w.net {
        assert FromTrail(bytes, w.trail);
        var d :| d in w.trail.emitted && DatagramFault(d).None? && bytes == EncodeDatagram(d);
        assert d in t.emitted;
      } else {
        var d :| d in Sends(w.tx, e) && DatagramFault(d).None? && bytes == EncodeDatagram(d);
        SentEmitted(w.tx, s.tx, e, w.trail, d);
      }
    }
  }

  lemma BookGrows(w: World, c: Book)
    requires ReceiverInv(w) && Extends(w.book, c)
    ensures ReceiverInv(w.(book := c))
  {
    var v := w.(book := c);
    RxTrueMore(w.book, c, w.rx);
    forall k: u8 ensures ReleasedSoFar(v, k) {
      assert ReleasedSoFar(w, k);
      assert LogAt(w.book.logs, k) <= LogAt(c.logs, k);
      PieceMore(OrderedOn(w.released, k), LogAt(w.book.logs, k), LogAt(c.logs, k), 0, Stands(w.rx, k));
      RisingMore(OrderedOn(w.handed, k), LogAt(w.book.logs, k), LogAt(c.logs, k), Stands(w.rx, k));
    }
  }

  lemma IncomingKept(tx: Tx, cfg: TxConfig, e: Event)
    requires !e.AckIn?
    ensures Step(tx, cfg, e).incomingAcks == tx.incomingAcks || Step(tx, cfg, e).incomingAcks == []
  {
    if e.Receipts? { ProcessKeeps(tx, cfg, e.now); }
  }

  lemma SenderInvKept(w: World, s: Setup, e: Event)
    requires Inv(w) && Can(w, s, Sender(e))
    ensures Inv(After(w, s, Sender(e)))
  {
    var v := After(w, s, Sender(e));
    SenderKeeps(w, s, e);
    NetKeeps(w, s, e);
    BookGrows(w, v.book);
    IncomingKept(w.tx, s.tx, e);
    SameReceiver(w.(book := v.book), v);
  }

  /** The receiver's account does not depend on the sender's state. */
  lemma SameReceiver(w: World, v: World)
    requires ReceiverInv(w) && v.rx == w.rx && v.book == w.book && v.ingested == w.ingested
    requires v.released == w.released && v.handed == w.handed && v.failed == w.failed
    requires forall d <- w.trail.emitted :: d in v.trail.emitted
    ensures ReceiverInv(v)
  {
    forall k: u8 ensures ReleasedSoFar(v, k) { assert ReleasedSoFar(w, k); }
  }

  // ----- the receiver's moves -----

  /** Bytes from the wire are read as the datagram that was sent, made of genuine frames, or
      refused. */
  lemma ReadBack(w: World, bytes: Bytes) returns (d: Datagram)
    requires SenderInv(w.tx, w.trail, w.book) && NetInv(w.net, w.trail) && bytes in w.net && DecodeDatagram(bytes).Ok?
    ensures d in w.trail.emitted && DecodeDatagram(bytes) == Ok(d)
    ensures d.payload.FramesPayload? && forall f <- d.payload.frames :: Genuine(w.book, f)
  {
    assert FromTrail(bytes, w.trail);
    d :| d in w.trail.emitted && DatagramFault(d).None? && bytes == EncodeDatagram(d);
    ReadOrRefused(w.tx, w.trail, d);
    var i :| 0 <= i < |w.trail.emitted| && w.trail.emitted[i] == d;
    assert Carries(d, w.trail.made);
  }

  lemma NoteKeeps(rx: R.Rx, cfg: R.RxConfig, n: Seq24, now: Instant, ns: set<Seq24>)
    requires Named(rx.acks, ns)
    ensures var after := R.NoteNumber(rx, cfg, n, now);
            Named(after.acks, ns + {n}) && after.entries == rx.entries && after.channels == rx.channels
  {
    forall x: Seq24 | Covers(Push(rx.acks, cfg.queueCapacity, Single(n)), x) ensures x in ns + {n} {
      PushSingle(rx.acks, cfg.queueCapacity, n, x);
    }
  }

  lemma {:induction false} FramesKeepAcks(rx: R.Rx, cfg: R.RxConfig, frames: seq<Frame>, now: Instant)
    ensures R.HandleFrames(rx, cfg, frames, now).rx.acks == rx.acks
  {
    if frames != [] { FramesKeepAcks(rx, cfg, frames[..|frames| - 1], now); }
  }

  lemma DeliverReleases(w: World, s: Setup, d: Datagram, now: Instant, k: u8)
    requires BookOk(w.book) && RxTrue(w.rx, w.book) && ReleasedSoFar(w, k)
    requires d.payload.FramesPayload? && forall f <- d.payload.frames :: Genuine(w.book, f)
    ensures var t := R.IngestFrames(w.rx, s.rx, d.sequence, d.payload.frames, now);
            var log := LogAt(w.book.logs, k);
            && RxTrue(t.rx, w.book)
            && Piece(OrderedOn(w.released + t.released, k), log, 0, Stands(t.rx, k))
            && Rising(OrderedOn(w.handed + t.released, k), log, Stands(t.rx, k))
            && Rising(OrderedOn(w.handed, k), log, Stands(t.rx, k))
  {
    var noted := R.NoteNumber(w.rx, s.rx, d.sequence, now);
    FramesTrue(noted, s.rx, d.payload.frames, now, w.book);
    var t := R.IngestFrames(w.rx, s.rx, d.sequence, d.payload.frames, now);
    var log := LogAt(w.book.logs, k);
    assert Adds(noted, t.rx, t.released, w.book.logs, k);
    OrderedOnConcat(w.released, t.released, k);
    OrderedOnConcat(w.handed, t.released, k);
    PieceConcat(OrderedOn(w.released, k), OrderedOn(t.released, k), log, 0, Stands(w.rx, k), Stands(t.rx, k));
    RisingPiece(OrderedOn(w.handed, k), OrderedOn(t.released, k), log, Stands(w.rx, k), Stands(t.rx, k));
  }

  lemma DeliverKeeps(w: World, s: Setup, bytes: Bytes, now: Instant)
    requires Inv(w) && bytes in w.net
    ensures Inv(Reads(w, s, bytes, now))
  {
    if DecodeDatagram(bytes).Ok? { DeliverRead(w, s, bytes, now); }
  }

  lemma DeliverRead(w: World, s: Setup, bytes: Bytes, now: Instant)
    requires Inv(w) && bytes in w.net && DecodeDatagram(bytes).Ok?
    ensures Inv(Reads(w, s, bytes, now))
  {
    var d := ReadBack(w, bytes);
    var v := Reads(w, s, bytes, now);
    var t := R.IngestFrames(w.rx, s.rx, d.sequence, d.payload.frames, now);
    forall k: u8 ensures ReleasedSoFar(v, k) && RxTrue(t.rx, w.book) {
      assert ReleasedSoFar(w, k);
      DeliverReleases(w, s, d, now, k);
    }
    assert RxTrue(t.rx, w.book) by { assert ReleasedSoFar(w, 0); DeliverReleases(w, s, d, now, 0); }
    DeliverAcks(w, s, d, now, v);
  }

  lemma DeliverAcks(w: World, s: Setup, d: Datagram, now: Instant, v: World)
    requires AckInv(w) && d.payload.FramesPayload?
    requires v.rx == R.IngestFrames(w.rx, s.rx, d.sequence, d.payload.frames, now).rx
    requires v.ingested == w.ingested + {d} && v.tx == w.tx && v.back == w.back
    ensures AckInv(v)
  {
    var ns := NumbersOf(w.ingested);
    assert NumbersOf(v.ingested) == ns + {d.sequence};
    NoteKeeps(w.rx, s.rx, d.sequence, now, ns);
    FramesKeepAcks(R.NoteNumber(w.rx, s.rx, d.sequence, now), s.rx, d.payload.frames, now);
    forall bytes <- v.back ensures BackNamed(bytes, NumbersOf(v.ingested)) { assert BackNamed(bytes, ns); }
  }

  // ----- acknowledgements -----

  lemma NamedPart(rs: seq<Range>, k: nat, ns: set<Seq24>)
    requires Named(rs, ns) && k <= |rs|
    ensures Named(rs[..k], ns) && Named(rs[k..], ns)
  {
    forall x: Seq24 ensures Covers(rs[..k], x) || Covers(rs[k..], x) ==> x in ns {
      CoversConcat(rs[..k], rs[k..], x);
      assert rs == rs[..k] + rs[k..];
    }
  }

  /** The bytes of a control datagram that encodes name only numbers its ranges name. */
  lemma WiredNamed(ranges: seq<Range>, isAck: bool, ns: set<Seq24>, bytes: Bytes)
    requires isAck ==> Named(ranges, ns)
    requires var d := Datagram(if isAck then FLAGS_ACK else FLAGS_NACK, 0, if isAck then AckPayload(ranges) else NackPayload(ranges));
             bytes in Wired([d])
    ensures BackNamed(bytes, ns)
  {
    var d := Datagram(if isAck then FLAGS_ACK else FLAGS_NACK, 0, if isAck then AckPayload(ranges) else NackPayload(ranges));
    assert bytes == EncodeDatagram(d);
    ControlRoundTrip(d.flags, ranges, isAck);
  }

  lemma DrainAckKeeps(w: World, s: Setup, mtu: nat, now: Instant)
    requires AckInv(w)
    ensures AckInv(After(w, s, DrainAck(mtu, now)))
  {
    var k := R.DrainedAcks(w.rx, s.rx, mtu);
    var (rx, drained) := R.DrainAcks(w.rx, s.rx, mtu, now);
    var ns := NumbersOf(w.ingested);
    if k > 0 {
      NamedPart(w.rx.acks, k, ns);
      forall bytes <- w.back + Wired([drained.value]) ensures BackNamed(bytes, ns) {
        if bytes !in w.back { WiredNamed(w.rx.acks[..k], true, ns, bytes); }
      }
    }
  }

  lemma DrainNackKeeps(w: World, s: Setup, mtu: nat, now: Instant)
    requires AckInv(w)
    ensures AckInv(After(w, s, DrainNack(mtu, now)))
  {
    var k := R.DrainedNacks(w.rx, s.rx, mtu);
    var (rx, drained) := R.DrainNacks(w.rx, s.rx, mtu, now);
    var ns := NumbersOf(w.ingested);
    if k > 0 {
      forall bytes <- w.back + Wired([drained.value]) ensures BackNamed(bytes, ns) {
        if bytes !in w.back { WiredNamed(w.rx.nacks[..k], false, ns, bytes); }
      }
    }
  }

  lemma DrainRx(w: World, v: World)
    requires ReceiverInv(w) && v.rx.entries == w.rx.entries && v.rx.channels == w.rx.channels
    requires v == w.(rx := v.rx, back := v.back)
    ensures ReceiverInv(v)
  {
    forall k: u8 ensures ReleasedSoFar(v, k) { assert ReleasedSoFar(w, k); }
  }

  lemma HeardAcks(w: World, s: Setup, p: Payload)
    requires AckInv(w) && (p.AckPayload? ==> Named(p.acks, NumbersOf(w.ingested)))
    ensures AckInv(Heard(w, s, p))
  {
    if p.AckPayload? {
      forall x: Seq24 | Covers(w.tx.incomingAcks + p.acks, x) ensures x in NumbersOf(w.ingested) {
        CoversConcat(w.tx.incomingAcks, p.acks, x);
      }
    }
  }

  lemma HeardKeeps(w: World, s: Setup, p: Payload)
    requires Inv(w) && (p.AckPayload? ==> Named(p.acks, NumbersOf(w.ingested)))
    ensures Inv(Heard(w, s, p))
  {
    var v := Heard(w, s, p);
    HeardAcks(w, s, p);
    TouchFollows(w.tx, v.tx, w.trail);
    SameReceiver(w, v);
  }

  lemma DrainAckInv(w: World, s: Setup, mtu: nat, now: Instant)
    requires Inv(w)
    ensures Inv(After(w, s, DrainAck(mtu, now)))
  {
    DrainAckKeeps(w, s, mtu, now);
    DrainRx(w, After(w, s, DrainAck(mtu, now)));
  }

  lemma DrainNackInv(w: World, s: Setup, mtu: nat, now: Instant)
    requires Inv(w)
    ensures Inv(After(w, s, DrainNack(mtu, now)))
  {
    DrainNackKeeps(w, s, mtu, now);
    DrainRx(w, After(w, s, DrainNack(mtu, now)));
  }

  lemma HearKeeps(w: World, s: Setup, bytes: Bytes)
    requires Inv(w) && bytes in w.back
    ensures Inv(Hears(w, s, bytes))
  {
    assert BackNamed(bytes, NumbersOf(w.ingested));
    HeardKeeps(w, s, DecodeDatagram(bytes).value.payload);
  }

  lemma SweepKeeps(w: World, s: Setup, now: Instant)
    requires Inv(w)
    ensures Inv(After(w, s, Sweep(now)))
  {
    var v := After(w, s, Sweep(now));
    forall k: u8 ensures ReleasedSoFar(v, k) { assert ReleasedSoFar(w, k); }
  }

  /** Every move keeps everything. */
  lemma MoveKeeps(w: World, s: Setup, m: Move)
    requires Inv(w) && Can(w, s, m)
    ensures Inv(After(w, s, m))
  {
    match m {
      case Sender(e) => SenderInvKept(w, s, e);
      case Deliver(bytes, now) => DeliverKeeps(w, s, bytes, now);
      case DrainAck(mtu, now) => DrainAckInv(w, s, mtu, now);
      case DrainNack(mtu, now) => DrainNackInv(w, s, mtu, now);
      case Hear(bytes) => HearKeeps(w, s, bytes);
      case Sweep(now) => SweepKeeps(w, s, now);
    }
  }

  // ----- whole runs -----

  ghost predicate Fresh(w: World) {
    && w.tx.numbers.write == 0 && w.tx.numbers.split == 0 && (forall c <- w.tx.numbers.ordering :: c == 0)
    && w.tx.outbox.heap == multiset{} && w.tx.outbox.bytes == 0
    && w.tx.flight == Flight(map[], map[]) && w.tx.incomingAcks == [] && w.tx.incomingNacks == []
    && w.rx.entries == map[] && w.rx.acks == [] && (forall c <- w.rx.channels :: c == Reorder.FRESH)
    && w.net == {} && w.back == {} && w.trail == Trail({}, []) && w.book == Book(map[], map[], 0)
    && w.ingested == {} && w.released == [] && w.handed == [] && !w.failed
  }

  ghost predicate Takes(w: World, s: Setup, m: Move, v: World) { Can(w, s, m) && v == After(w, s, m) }

  /** A run: the states before, between and after its moves, from two fresh sessions. */
  ghost predicate IsRun(ws: seq<World>, s: Setup, ms: seq<Move>) {
    && |ws| == |ms| + 1 && Fresh(ws[0])
    && forall i: nat | i < |ms| :: MovesAt(ws, s, ms, i)
  }

  ghost predicate MovesAt(ws: seq<World>, s: Setup, ms: seq<Move>, i: nat) {
    i + 1 < |ws| && i < |ms| && Takes(ws[i], s, ms[i], ws[i + 1])
  }

  lemma FreshInv(w: World)
    requires Fresh(w)
    ensures Inv(w)
  {
    forall k: u8
      ensures CounterAt(w.tx.numbers.ordering, k) == Of(|LogAt(w.book.logs, k)|)
      ensures ReleasedSoFar(w, k) && ChannelTrue(Reorder.At(w.rx.channels, k), k, LogAt(w.book.logs, k))
    {
      assert k < |w.tx.numbers.ordering| ==> w.tx.numbers.ordering[k] in w.tx.numbers.ordering;
      assert k < |w.rx.channels| ==> w.rx.channels[k] in w.rx.channels;
      assert OrderedOn([], k) == [];
    }
  }

  lemma {:induction false} RunKeeps(ws: seq<World>, s: Setup, ms: seq<Move>, i: nat)
    requires IsRun(ws, s, ms) && i < |ws|
    ensures Inv(ws[i])
  {
    if i == 0 {
      FreshInv(ws[0]);
    } else {
      RunKeeps(ws, s, ms, i - 1);
      assert MovesAt(ws, s, ms, i - 1);
      MoveKeeps(ws[i - 1], s, ms[i - 1]);
    }
  }

  // ----- ordered delivery -----

  function PayloadsOf(fs: seq<Frame>): seq<Bytes> { seq(|fs|, i requires 0 <= i < |fs| => fs[i].payload) }

  /** The payloads queued as ordered, in the order they were queued. */
  function OrderedPayloads(log: seq<Message>): seq<Bytes> {
    if log == [] then []
    else
      var rest, last := OrderedPayloads(log[..|log| - 1]), log[|log| - 1];
      if last.ordered then rest + [last.payload] else rest
  }

  lemma {:induction false} AllOrdered(log: seq<Message>)
    requires forall m <- log :: m.ordered
    ensures |OrderedPayloads(log)| == |log|
    ensures forall i | 0 <= i < |log| :: OrderedPayloads(log)[i] == log[i].payload
  {
    if log != [] {
      var n := |log| - 1;
      forall m <- log[..n] ensures m.ordered { assert m in log; }
      AllOrdered(log[..n]);
      assert log[n] in log;
    }
  }

  lemma {:induction false} OrderedPrefix(log: seq<Message>, m: nat)
    requires m <= |log|
    ensures OrderedPayloads(log[..m]) <= OrderedPayloads(log)
    decreases |log|
  {
    if m < |log| {
      var init := log[..|log| - 1];
      OrderedPrefix(init, m);
      assert init[..m] == log[..m];
    } else {
      assert log[..m] == log;
    }
  }

  lemma PieceIsPrefix(fs: seq<Frame>, log: seq<Message>, to: nat)
    requires Piece(fs, log, 0, to)
    ensures PayloadsOf(fs) <= OrderedPayloads(log)
  {
    assert to <= |log| by { if to > 0 { assert Is(fs[to - 1], log, to - 1); } }
    forall i | 0 <= i < to ensures log[i].ordered && log[i].payload == fs[i].payload { assert Is(fs[i], log, i); }
    AllOrdered(log[..to]);
    OrderedPrefix(log, to);
    assert PayloadsOf(fs) == OrderedPayloads(log[..to]);
  }

  /** In every run, over any loss, repetition and reordering: the ordered payloads the receiver
      releases on a channel are a prefix of those queued on it, and the caller got exactly those
      as long as no datagram ended in an error. After an error what the caller got is still in
      queueing order and without repeats, each the payload that was queued with its number. */
  lemma OrderedDelivery(ws: seq<World>, s: Setup, ms: seq<Move>, i: nat, k: u8)
    requires IsRun(ws, s, ms) && i < |ws|
    ensures var w := ws[i]; var log := LogAt(w.book.logs, k);
            && PayloadsOf(OrderedOn(w.released, k)) <= OrderedPayloads(log)
            && (!w.failed ==> PayloadsOf(OrderedOn(w.handed, k)) <= OrderedPayloads(log))
            && Rising(OrderedOn(w.handed, k), log, |log|)
  {
    RunKeeps(ws, s, ms, i);
    var w := ws[i];
    assert ReleasedSoFar(w, k);
    PieceIsPrefix(OrderedOn(w.released, k), LogAt(w.book.logs, k), Stands(w.rx, k));
    assert ChannelTrue(Reorder.At(w.rx.channels, k), k, LogAt(w.book.logs, k));
  }

  // ----- no false acknowledgement -----

  lemma {:induction false} WalkedCovered(rs: seq<Range>, x: Seq24)
    requires x in WalkAll(rs)
    ensures Covers(rs, x)
  {
    var n := |rs| - 1;
    assert rs == rs[..n] + [rs[n]];
    CoversConcat(rs[..n], [rs[n]], x);
    if x in WalkAll(rs[..n]) {
      WalkedCovered(rs[..n], x);
    } else {
      WalkVisits(rs[n].start, rs[n].end, x);
      assert [rs[n]][0].Contains(x);
    }
  }

  /** A tracked datagram disappears only when acknowledgements naming it are worked off. */
  lemma Forgets(tx: Tx, cfg: TxConfig, e: Event, k: Seq24)
    requires k in tx.flight.sent && k !in Step(tx, cfg, e).flight.sent
    ensures e.Receipts? && Covers(tx.incomingAcks, k)
  {
    match e {
      case Receipts(now) =>
        ProcessKeeps(tx, cfg, now);
        WalkedCovered(tx.incomingAcks, k);
      case Again(selected, _, _, now) => ResentKeys(tx.flight, selected, now, Resend(tx, cfg, selected, now).cc.rto);
      case _ =>
    }
  }

  /** Below one lap of the number space a number belongs to one datagram. */
  lemma OneDatagram(tx: Tx, t: Trail, d: Datagram, c: Datagram)
    requires Follows(tx, t) && |t.emitted| <= MODULO && d in t.emitted && c in t.emitted && d.sequence == c.sequence
    ensures d == c
  {
    var i :| 0 <= i < |t.emitted| && t.emitted[i] == d;
    var j :| 0 <= j < |t.emitted| && t.emitted[j] == c;
    assert Of(i) == i && Of(j) == j;
  }

  /** In every run shorter than one lap of datagram numbers, whatever move makes the sender
      forget a tracked datagram, the receiver has taken in that very datagram. */
  lemma NoFalseAcknowledgement(ws: seq<World>, s: Setup, ms: seq<Move>, i: nat, k: Seq24)
    requires IsRun(ws, s, ms) && i < |ms| && |ws[i].trail.emitted| <= MODULO
    requires k in ws[i].tx.flight.sent && k !in ws[i + 1].tx.flight.sent
    ensures ws[i].tx.flight.sent[k].datagram in ws[i].ingested
  {
    RunKeeps(ws, s, ms, i);
    var w := ws[i];
    assert MovesAt(ws, s, ms, i);
    match ms[i] {
      case Sender(e) => Forgets(w.tx, s.tx, e, k);
      case Hear(bytes) => HearForgetsNothing(w, s, bytes);
      case _ =>
    }
    assert k in NumbersOf(w.ingested);
    var d :| d in w.ingested && d.sequence == k;
    assert TrackedFrom(w.tx.flight, k, w.trail.emitted);
    OneDatagram(w.tx, w.trail, d, w.tx.flight.sent[k].datagram);
  }

  lemma HearForgetsNothing(w: World, s: Setup, bytes: Bytes)
    ensures Hears(w, s, bytes).tx.flight == w.tx.flight
  {
  }

  // ----- what is on the wire -----

  /** The payloads queued so far were ones the wire format can carry. */
  ghost predicate CarriableAt(ws: seq<World>, ms: seq<Move>, j: nat) {
    j < |ms| && j < |ws| && ms[j].Sender? && ms[j].e.Queue? ==> Carriable(ws[j].tx.mtu, ms[j].e.payload, ms[j].e.reliability)
  }

  lemma MoveClean(w: World, s: Setup, m: Move)
    requires AllClean(w.trail) && (m.Sender? && m.e.Queue? ==> Carriable(w.tx.mtu, m.e.payload, m.e.reliability))
    ensures AllClean(After(w, s, m).trail)
  {
    if m.Sender? { StepClean(w.tx, s.tx, m.e, w.trail); }
  }

  lemma {:induction false} RunClean(ws: seq<World>, s: Setup, ms: seq<Move>, i: nat)
    requires IsRun(ws, s, ms) && i < |ws| && forall j: nat | j < i :: CarriableAt(ws, ms, j)
    ensures AllClean(ws[i].trail)
  {
    if i > 0 {
      RunClean(ws, s, ms, i - 1);
      assert MovesAt(ws, s, ms, i - 1) && CarriableAt(ws, ms, i - 1);
      MoveClean(ws[i - 1], s, ms[i - 1]);
    }
  }

  /** In every run whose payloads are nonempty, in pieces below 8192 bytes and in at most 8192
      parts: every data datagram put on the wire encodes without error to its announced size,
      within the MTU in force if it is new, and is read back unchanged. */
  lemma EveryDatagramArrivesWhole(ws: seq<World>, s: Setup, ms: seq<Move>, i: nat, d: Datagram)
    requires IsRun(ws, s, ms) && i < |ms| && ms[i].Sender? && d in Sends(ws[i].tx, ms[i].e)
    requires forall j: nat | j < i :: CarriableAt(ws, ms, j)
    ensures DatagramFault(d).None? && |EncodeDatagram(d)| == DatagramSize(d) && DecodeDatagram(EncodeDatagram(d)) == Ok(d)
    ensures ms[i].e.Emit? ==> DatagramSize(d) <= ws[i].tx.mtu
  {
    RunKeeps(ws, s, ms, i);
    RunClean(ws, s, ms, i);
    assert MovesAt(ws, s, ms, i);
    SentRoundTrip(ws[i].tx, s.tx, ms[i].e, ws[i].trail, d);
  }
}
