/** What a receiver hands up, measured against a book of what the sender queued. */
module Delivery {
  import opened Base
  import opened Sequence24
  import opened Wire
  import opened Frames
  import opened Receive
  import Reorder
  import Splits
  import Tracking

  /** A payload queued with an ordering number: an ordered one, or a sequenced one, which takes
      its number from the same counter. */
  datatype Message = Message(payload: Bytes, ordered: bool)

  type Logs = map<u8, seq<Message>>

  /** The messages queued on each channel by ordering number, the parts of each split payload by
      split id, and how many split ids were given out. */
  datatype Book = Book(logs: Logs, parts: map<u16, seq<Frame>>, splits: nat)

  function LogAt(logs: Logs, k: u8): seq<Message> { if k in logs then logs[k] else [] }

  // ----- what a frame must say -----

  /** Ordering number and channel point at the message with this payload. */
  ghost predicate Tells(logs: Logs, rel: Reliability, index: Option<Seq24>, channel: Option<u8>, payload: Bytes) {
    rel.HasOrdering() ==>
      && index.Some? && channel.Some? && index.value < |LogAt(logs, channel.value)|
      && LogAt(logs, channel.value)[index.value] == Message(payload, rel.IsOrdered())
  }

  ghost predicate Whole(logs: Logs, f: Frame) {
    !f.header.isSplit && Tells(logs, f.header.reliability, f.orderingIndex, f.orderingChannel, f.payload)
  }

  ghost predicate PartsTell(logs: Logs, id: u16, sent: seq<Frame>) {
    && sent != [] && Splits.PartsOf(sent, id)
    && Tells(logs, sent[0].header.reliability, sent[0].orderingIndex, sent[0].orderingChannel,
             Splits.Concat(Splits.Payloads(sent)))
  }

  /** A frame of the sender: a whole message or one part of a split one. */
  ghost predicate Genuine(b: Book, f: Frame) {
    if f.header.isSplit then f.split.Some? && f.split.value.partId in b.parts && f in b.parts[f.split.value.partId]
    else Whole(b.logs, f)
  }

  /** Room for the numbers that are given out once: ordering numbers and split ids. */
  ghost predicate BookOk(b: Book) {
    && (forall k: u8 :: |LogAt(b.logs, k)| < MODULO)
    && (forall id <- b.parts :: PartsTell(b.logs, id, b.parts[id]))
  }

  // ----- reassembly -----

  ghost predicate EntryTrue(e: Splits.Entry, sent: seq<Frame>) {
    && sent != [] && e.header == sent[0].header
    && e.orderingIndex == sent[0].orderingIndex && e.orderingChannel == sent[0].orderingChannel
    && |e.parts| == |sent|
    && forall j | 0 <= j < |sent| :: e.parts[j].Some? ==> e.parts[j].value == sent[j].payload
  }

  ghost predicate EntriesTrue(entries: Splits.Entries, b: Book) {
    forall id <- entries :: id in b.parts && EntryTrue(entries[id], b.parts[id])
  }

  lemma AssembledWhole(e: Splits.Entry, sent: seq<Frame>, logs: Logs, id: u16)
    requires PartsTell(logs, id, sent) && EntryTrue(e, sent) && Splits.Complete(e.parts)
    ensures Whole(logs, Splits.Assembled(e))
  {
    forall j | 0 <= j < |sent| ensures e.parts[j].Some? { assert e.parts[j] in e.parts; }
    assert Splits.Values(e.parts) == Splits.Payloads(sent);
  }

  /** Filing a genuine part keeps every entry true, and a completed one is a whole message. */
  lemma StoreTrue(entries: Splits.Entries, f: Frame, e: Splits.Entry, now: Instant, b: Book)
    requires BookOk(b) && EntriesTrue(entries, b) && f.header.isSplit && Genuine(b, f)
    requires EntryTrue(e, b.parts[f.split.value.partId])
    ensures var (after, r) := Splits.Store(entries, f.split.value, e, f.payload, now);
            EntriesTrue(after, b) && (r.Ok? && r.value.Some? ==> Whole(b.logs, r.value.value))
  {
    var id, index := f.split.value.partId, f.split.value.partIndex;
    var sent := b.parts[id];
    assert PartsTell(b.logs, id, sent);
    PartAt(sent, id, f);
    if e.parts[index].None? {
      var stored := e.(parts := e.parts[index := Some(f.payload)], received := e.received + 1, lastUpdate := now);
      FiledTrue(e, stored, sent, index);
      if Splits.Complete(stored.parts) { AssembledWhole(stored, sent, b.logs, id); }
    }
  }

  lemma PartAt(sent: seq<Frame>, id: u16, f: Frame)
    requires Splits.PartsOf(sent, id) && f in sent && f.split.Some?
    ensures f.split.value.partCount == |sent| && f.split.value.partIndex < |sent| && sent[f.split.value.partIndex] == f
  {
    var j :| 0 <= j < |sent| && sent[j] == f;
  }

  lemma FiledTrue(e: Splits.Entry, stored: Splits.Entry, sent: seq<Frame>, j: nat)
    requires EntryTrue(e, sent) && j < |sent|
    requires stored.parts == e.parts[j := Some(sent[j].payload)] && stored.header == e.header
    requires stored.orderingIndex == e.orderingIndex && stored.orderingChannel == e.orderingChannel
    ensures EntryTrue(stored, sent)
  {
  }

  lemma AddTrue(entries: Splits.Entries, lim: Splits.Limits, f: Frame, now: Instant, b: Book)
    requires BookOk(b) && EntriesTrue(entries, b) && Genuine(b, f)
    ensures var (after, r) := Splits.Add(entries, lim, f, now);
            EntriesTrue(after, b) && (r.Ok? && r.value.Some? ==> Whole(b.logs, r.value.value))
  {
    if f.header.isSplit {
      var live := Splits.Prune(entries, lim.ttl, now);
      var id := f.split.value.partId;
      assert EntriesTrue(live, b);
      if Splits.SplitFault(live, lim, f).None? {
        assert PartsTell(b.logs, id, b.parts[id]);
        StoreTrue(live, f, if id in live then live[id] else Splits.FreshEntry(f, now), now, b);
      }
    }
  }

  // ----- ordering -----

  /** The ordered frames of one channel. */
  function OrderedOn(frames: seq<Frame>, k: u8): seq<Frame> {
    if frames == [] then []
    else
      var last, rest := frames[|frames| - 1], OrderedOn(frames[..|frames| - 1], k);
      if last.header.reliability.IsOrdered() && Reorder.ChannelOf(last) == k then rest + [last] else rest
  }

  lemma {:induction false} OrderedOnConcat(a: seq<Frame>, b: seq<Frame>, k: u8)
    ensures OrderedOn(a + b, k) == OrderedOn(a, k) + OrderedOn(b, k)
  {
    if b == [] {
      assert a + b == a;
    } else {
      assert (a + b)[..|a + b| - 1] == a + b[..|b| - 1];
      OrderedOnConcat(a, b[..|b| - 1], k);
    }
  }

  lemma {:induction false} OrderedOnUniform(frames: seq<Frame>, home: u8, k: u8)
    requires forall f <- frames :: f.header.reliability.IsOrdered() && Reorder.ChannelOf(f) == home
    ensures OrderedOn(frames, k) == if home == k then frames else []
  {
    if frames != [] {
      OrderedOnUniform(frames[..|frames| - 1], home, k);
      assert frames[..|frames| - 1] + [frames[|frames| - 1]] == frames;
    }
  }

  /** A frame that is the ordered message with number `n` of its channel. */
  ghost predicate Is(f: Frame, log: seq<Message>, n: int) {
    0 <= n < |log| && f.orderingIndex == Some(n) && log[n] == Message(f.payload, true)
  }

  /** The frames are exactly the messages numbered from `from` up to `to`, in order. */
  ghost predicate Piece(fs: seq<Frame>, log: seq<Message>, from: nat, to: nat) {
    to == from + |fs| && forall i | 0 <= i < |fs| :: Is(fs[i], log, from + i)
  }

  lemma PieceConcat(a: seq<Frame>, b: seq<Frame>, log: seq<Message>, from: nat, mid: nat, to: nat)
    requires Piece(a, log, from, mid) && Piece(b, log, mid, to)
    ensures Piece(a + b, log, from, to)
  {
    forall i | 0 <= i < |a + b| ensures Is((a + b)[i], log, from + i) {
      if i >= |a| { assert Is(b[i - |a|], log, mid + (i - |a|)); }
    }
  }

  ghost predicate PendingTrue(f: Frame, k: u8, x: Seq24, log: seq<Message>) {
    f.header.reliability.IsOrdered() && Reorder.ChannelOf(f) == k && Is(f, log, x)
  }

  /** The expected number has not passed the end of the log, and what is held back is genuine. */
  ghost predicate ChannelTrue(c: Reorder.Channel, k: u8, log: seq<Message>) {
    && c.expected <= |log| && c.expected !in c.pending
    && forall x <- c.pending :: PendingTrue(c.pending[x], k, x, log)
  }

  /** The awaited frame and the held-back frames behind it: the numbers do not wrap, because
      every frame's number is below the length of the log. */
  lemma {:induction false} RunNumbers(c: Reorder.Channel, k: u8, log: seq<Message>, out: seq<Frame>, i: nat)
    requires |log| < MODULO && ChannelTrue(c, k, log) && i < |out|
    requires PendingTrue(out[0], k, c.expected, log)
    requires |out| <= MODULO
    requires forall j | 1 <= j < |out| :: Plus(c.expected, j) in c.pending && out[j] == c.pending[Plus(c.expected, j)]
    ensures c.expected + i < |log| && PendingTrue(out[i], k, c.expected + i, log)
  {
    if i > 0 {
      RunNumbers(c, k, log, out, i - 1);
      assert Plus(c.expected, i) == c.expected + i;
    }
  }

  /** The expected frame of a channel arrives. */
  lemma AwaitedTrue(c: Reorder.Channel, lim: Reorder.Limits, f: Frame, k: u8, log: seq<Message>)
    requires |log| < MODULO && ChannelTrue(c, k, log) && PendingTrue(f, k, c.expected, log)
    ensures var (d, r) := Reorder.HandleOrdered(c, lim, c.expected, f);
            && r.Ready? && ChannelTrue(d, k, log) && Piece(r.frames, log, c.expected, d.expected)
            && forall g <- r.frames :: g.header.reliability.IsOrdered() && Reorder.ChannelOf(g) == k
  {
    Reorder.Drained(c, lim, c.expected, f);
    var (d, r) := Reorder.HandleOrdered(c, lim, c.expected, f);
    var out := r.frames;
    RunNumbers(c, k, log, out, |out| - 1);
    forall i | 0 <= i < |out| ensures PendingTrue(out[i], k, c.expected + i, log) { RunNumbers(c, k, log, out, i); }
    assert d.expected == c.expected + |out|;
    forall x <- d.pending ensures PendingTrue(d.pending[x], k, x, log) {}
  }

  lemma HandleTrue(c: Reorder.Channel, lim: Reorder.Limits, f: Frame, k: u8, log: seq<Message>)
    requires |log| < MODULO && ChannelTrue(c, k, log)
    requires f.orderingIndex.Some? && PendingTrue(f, k, f.orderingIndex.value, log)
    ensures var (d, r) := Reorder.HandleOrdered(c, lim, f.orderingIndex.value, f);
            && ChannelTrue(d, k, log)
            && Piece(if r.Ready? then r.frames else [], log, c.expected, d.expected)
            && (r.Ready? ==> forall g <- r.frames :: g.header.reliability.IsOrdered() && Reorder.ChannelOf(g) == k)
  {
    if f.orderingIndex.value == c.expected {
      AwaitedTrue(c, lim, f, k, log);
    } else {
      var (d, r) := Reorder.HandleOrdered(c, lim, f.orderingIndex.value, f);
      forall x <- d.pending ensures PendingTrue(d.pending[x], k, x, log) {}
    }
  }

  ghost predicate ChannelsTrue(channels: seq<Reorder.Channel>, logs: Logs) {
    forall k: u8 :: ChannelTrue(Reorder.At(channels, k), k, LogAt(logs, k))
  }

  /** Where the channel stands: the number of ordered messages it has released. */
  function Stands(rx: Rx, k: u8): nat { Reorder.At(rx.channels, k).expected }

  ghost predicate Adds(rx: Rx, after: Rx, out: seq<Frame>, logs: Logs, k: u8) {
    Piece(OrderedOn(out, k), LogAt(logs, k), Stands(rx, k), Stands(after, k))
  }

  lemma OrderedTrue(rx: Rx, cfg: RxConfig, g: Frame, b: Book, k: u8)
    requires BookOk(b) && ChannelsTrue(rx.channels, b.logs) && Whole(b.logs, g) && g.header.reliability.IsOrdered()
    ensures var (channels, r) := Reorder.Ordered(rx.channels, cfg.ordering, g);
            && ChannelTrue(Reorder.At(channels, k), k, LogAt(b.logs, k))
            && Adds(rx, rx.(channels := channels), if r.Ready? then r.frames else [], b.logs, k)
  {
    var home := Reorder.ChannelOf(g);
    var log := LogAt(b.logs, home);
    var c := Reorder.At(rx.channels, home);
    assert ChannelTrue(c, home, log) && |log| < MODULO;
    HandleTrue(c, cfg.ordering, g, home, log);
    var (channels, r) := Reorder.Ordered(rx.channels, cfg.ordering, g);
    assert Reorder.At(channels, home) == Reorder.HandleOrdered(c, cfg.ordering, g.orderingIndex.value, g).0;
    Reorder.OtherChannels(rx.channels, cfg.ordering, g, k);
    assert ChannelTrue(Reorder.At(rx.channels, k), k, LogAt(b.logs, k));
    OrderedOnUniform(if r.Ready? then r.frames else [], home, k);
  }

  lemma SequencedTrue(rx: Rx, cfg: RxConfig, g: Frame, b: Book, k: u8)
    requires ChannelsTrue(rx.channels, b.logs) && Whole(b.logs, g) && g.header.reliability.IsSequenced()
    ensures var (channels, r) := Reorder.Sequenced(rx.channels, cfg.ordering, g);
            && ChannelTrue(Reorder.At(channels, k), k, LogAt(b.logs, k))
            && Adds(rx, rx.(channels := channels), if r.Accept? then [g] else [], b.logs, k)
  {
    var (channels, r) := Reorder.Sequenced(rx.channels, cfg.ordering, g);
    Reorder.OtherChannels(rx.channels, cfg.ordering, g, k);
    assert ChannelTrue(Reorder.At(rx.channels, k), k, LogAt(b.logs, k));
    assert Reorder.At(channels, k).expected == Reorder.At(rx.channels, k).expected;
    assert Reorder.At(channels, k).pending == Reorder.At(rx.channels, k).pending;
    assert OrderedOn([g], k) == OrderedOn([g][..0], k);
  }

  /** A whole message meets the channels: every channel stays true and releases the next piece
      of its log, which is empty unless the message is ordered. */
  lemma ReleaseTrue(rx: Rx, cfg: RxConfig, g: Frame, b: Book)
    requires BookOk(b) && ChannelsTrue(rx.channels, b.logs) && Whole(b.logs, g)
    ensures var (after, r) := Release(rx, cfg, g);
            && after.entries == rx.entries && ChannelsTrue(after.channels, b.logs) && r.Ok?
            && forall k: u8 :: Adds(rx, after, r.value, b.logs, k)
  {
    var (after, r) := Release(rx, cfg, g);
    forall k: u8
      ensures ChannelTrue(Reorder.At(after.channels, k), k, LogAt(b.logs, k)) && Adds(rx, after, r.value, b.logs, k)
    {
      if g.header.reliability.IsSequenced() { SequencedTrue(rx, cfg, g, b, k); }
      else if g.header.reliability.IsOrdered() { OrderedTrue(rx, cfg, g, b, k); }
      else { assert OrderedOn([g], k) == OrderedOn([g][..0], k); }
    }
  }

  // ----- a datagram -----

  ghost predicate RxTrue(rx: Rx, b: Book) { EntriesTrue(rx.entries, b) && ChannelsTrue(rx.channels, b.logs) }

  function Frees(r: Result<seq<Frame>, DecodeError>): seq<Frame> { if r.Ok? then r.value else [] }

  lemma FrameTrue(rx: Rx, cfg: RxConfig, f: Frame, now: Instant, b: Book)
    requires BookOk(b) && RxTrue(rx, b) && Genuine(b, f)
    ensures var (after, r) := HandleFrame(rx, cfg, f, now);
            RxTrue(after, b) && forall k: u8 :: Adds(rx, after, Frees(r), b.logs, k)
  {
    AddTrue(rx.entries, cfg.splits, f, now, b);
    var (entries, assembled) := Splits.Add(rx.entries, cfg.splits, f, now);
    var (after, r) := HandleFrame(rx, cfg, f, now);
    if assembled.Ok? && assembled.value.Some? {
      var g := assembled.value.value;
      var filed := rx.(entries := entries);
      ReleaseTrue(filed, cfg, g, b);
      var marked := filed.(tracker := Tracking.See(rx.tracker, cfg.reliableWindow,
                                                   if g.reliableIndex.Some? then g.reliableIndex.value else 0).0);
      ReleaseTrue(marked, cfg, g, b);
      forall k: u8 ensures Adds(rx, after, Frees(r), b.logs, k) {
        NothingAdded(rx, b.logs, k);
        assert Adds(filed, Release(filed, cfg, g).0, Release(filed, cfg, g).1.value, b.logs, k);
        assert Adds(marked, Release(marked, cfg, g).0, Release(marked, cfg, g).1.value, b.logs, k);
      }
    } else {
      forall k: u8 ensures Adds(rx, after, Frees(r), b.logs, k) { NothingAdded(rx, b.logs, k); }
    }
  }

  lemma NothingAdded(rx: Rx, logs: Logs, k: u8)
    ensures Adds(rx, rx, [], logs, k)
  {
  }

  /** The frames of a datagram, taken one after the other: everything released on a channel is
      the next piece of what was queued on it, whether or not an error cuts the datagram short. */
  lemma {:induction false} FramesTrue(rx: Rx, cfg: RxConfig, frames: seq<Frame>, now: Instant, b: Book)
    requires BookOk(b) && RxTrue(rx, b) && forall f <- frames :: Genuine(b, f)
    ensures var t := HandleFrames(rx, cfg, frames, now);
            RxTrue(t.rx, b) && forall k: u8 :: Adds(rx, t.rx, t.released, b.logs, k)
  {
    if frames != [] {
      var n := |frames| - 1;
      forall f <- frames[..n] ensures Genuine(b, f) { assert f in frames; }
      FramesTrue(rx, cfg, frames[..n], now, b);
      var before := HandleFrames(rx, cfg, frames[..n], now);
      if before.error.None? {
        assert frames[n] in frames;
        FrameTrue(before.rx, cfg, frames[n], now, b);
        var (after, r) := HandleFrame(before.rx, cfg, frames[n], now);
        var out := Frees(r);
        forall k: u8 ensures Adds(rx, after, before.released + out, b.logs, k) {
          AddsTwice(rx, before.rx, after, before.released, out, b.logs, k);
        }
        assert before.released + [] == before.released;
      }
    }
  }

  lemma AddsTwice(rx: Rx, mid: Rx, after: Rx, a: seq<Frame>, c: seq<Frame>, logs: Logs, k: u8)
    requires Adds(rx, mid, a, logs, k) && Adds(mid, after, c, logs, k)
    ensures Adds(rx, after, a + c, logs, k)
  {
    OrderedOnConcat(a, c, k);
    PieceConcat(OrderedOn(a, k), OrderedOn(c, k), LogAt(logs, k), Stands(rx, k), Stands(mid, k), Stands(after, k));
  }

  // ----- after an error -----

  /** Messages of a log in order and without repeats, all numbered below `to`. */
  ghost predicate Rising(fs: seq<Frame>, log: seq<Message>, to: nat) {
    && (forall i | 0 <= i < |fs| :: fs[i].orderingIndex.Some? && fs[i].orderingIndex.value < to
                                   && Is(fs[i], log, fs[i].orderingIndex.value))
    && (forall i, j | 0 <= i < j < |fs| :: fs[i].orderingIndex.value < fs[j].orderingIndex.value)
  }

  lemma RisingPiece(a: seq<Frame>, c: seq<Frame>, log: seq<Message>, from: nat, to: nat)
    requires Rising(a, log, from) && Piece(c, log, from, to)
    ensures Rising(a + c, log, to) && Rising(a, log, to)
  {
    var fs := a + c;
    forall i | 0 <= i < |fs|
      ensures fs[i].orderingIndex.Some? && fs[i].orderingIndex.value < to && Is(fs[i], log, fs[i].orderingIndex.value)
      ensures i >= |a| ==> fs[i].orderingIndex.value == from + (i - |a|)
    {
      if i >= |a| { assert Is(c[i - |a|], log, from + (i - |a|)); }
    }
  }

  // ----- a growing book -----

  ghost predicate Extends(b: Book, c: Book) {
    && (forall k: u8 :: LogAt(b.logs, k) <= LogAt(c.logs, k))
    && (forall id <- b.parts :: id in c.parts && c.parts[id] == b.parts[id])
  }

  lemma TellsMore(b: Book, c: Book, rel: Reliability, index: Option<Seq24>, channel: Option<u8>, payload: Bytes)
    requires Extends(b, c) && Tells(b.logs, rel, index, channel, payload)
    ensures Tells(c.logs, rel, index, channel, payload)
  {
    if rel.HasOrdering() { assert LogAt(b.logs, channel.value) <= LogAt(c.logs, channel.value); }
  }

  lemma GenuineMore(b: Book, c: Book, f: Frame)
    requires Extends(b, c) && Genuine(b, f)
    ensures Genuine(c, f)
  {
    if !f.header.isSplit { TellsMore(b, c, f.header.reliability, f.orderingIndex, f.orderingChannel, f.payload); }
  }

  lemma RxTrueMore(b: Book, c: Book, rx: Rx)
    requires Extends(b, c) && RxTrue(rx, b)
    ensures RxTrue(rx, c)
  {
    forall k: u8 ensures ChannelTrue(Reorder.At(rx.channels, k), k, LogAt(c.logs, k)) {
      var ch, log := Reorder.At(rx.channels, k), LogAt(c.logs, k);
      assert LogAt(b.logs, k) <= log;
      assert ChannelTrue(ch, k, LogAt(b.logs, k));
      forall x <- ch.pending ensures PendingTrue(ch.pending[x], k, x, log) {
        assert PendingTrue(ch.pending[x], k, x, LogAt(b.logs, k));
      }
    }
  }

  lemma PieceMore(fs: seq<Frame>, log: seq<Message>, more: seq<Message>, from: nat, to: nat)
    requires Piece(fs, log, from, to) && log <= more
    ensures Piece(fs, more, from, to)
  {
    forall i | 0 <= i < |fs| ensures Is(fs[i], more, from + i) { assert Is(fs[i], log, from + i); }
  }

  lemma RisingMore(fs: seq<Frame>, log: seq<Message>, more: seq<Message>, to: nat)
    requires Rising(fs, log, to) && log <= more
    ensures Rising(fs, more, to)
  {
  }
}
