/** Per-channel reordering of ordered frames and freshness of sequenced ones
    (src/session/ordering_channels.rs). */
module Reorder {
  import opened Base
  import opened Sequence24
  import opened Frames

  datatype Channel = Channel(expected: Seq24, lastSequence: Option<Seq24>, pending: map<Seq24, Frame>)

  const FRESH := Channel(0, None, map[])

  datatype Limits = Limits(maxPending: nat, maxGap: nat)

  datatype OrderedResult = Ready(frames: seq<Frame>) | Buffered | DroppedStale | DroppedBufferFull

  datatype SequencedResult = Accept | DropMissingSequence | DropStale

  function ChannelOf(f: Frame): u8 { if f.orderingChannel.Some? then f.orderingChannel.value else 0 }

  // ----- one channel -----

  /** The pending frames that follow `expected` without a gap, in order. */
  function Run(expected: Seq24, pending: map<Seq24, Frame>): (fs: seq<Frame>)
    ensures |fs| <= |pending|
    decreases |pending|
  {
    if expected in pending then [pending[expected]] + Run(Next(expected), pending - {expected}) else []
  }

  /** The channel after `expected` has moved past `n` numbers, their pending frames gone. */
  function Advance(c: Channel, n: nat): Channel
    decreases n
  {
    if n == 0 then c else Advance(Channel(Next(c.expected), c.lastSequence, c.pending - {c.expected}), n - 1)
  }

  function HandleOrdered(c: Channel, lim: Limits, index: Seq24, f: Frame): (Channel, OrderedResult) {
    var distance := DistanceTo(c.expected, index);
    if distance == 0 then
      var next := c.(expected := Next(c.expected));
      var run := Run(next.expected, c.pending);
      (Advance(next, |run|), Ready([f] + run))
    else if distance > lim.maxGap then (c, DroppedStale)
    else if |c.pending| >= lim.maxPending then (c, DroppedBufferFull)
    else if index in c.pending then (c, Buffered)
    else (c.(pending := c.pending[index := f]), Buffered)
  }

  function HandleSequenced(c: Channel, lim: Limits, index: Seq24): (Channel, SequencedResult) {
    if c.lastSequence.Some?
       && (DistanceTo(c.lastSequence.value, index) == 0 || DistanceTo(c.lastSequence.value, index) > lim.maxGap)
    then (c, DropStale)
    else (c.(lastSequence := Some(index)), Accept)
  }

  // ----- all channels -----

  /** The channel table grown so that it has an entry for `channel`. */
  function Grown(channels: seq<Channel>, channel: u8): (r: seq<Channel>)
    ensures |r| == Max(|channels|, channel + 1)
    ensures channels <= r
    ensures forall i | |channels| <= i < |r| :: r[i] == FRESH
  {
    if channel < |channels| then channels
    else channels + seq(channel + 1 - |channels|, _ => FRESH)
  }

  function Ordered(channels: seq<Channel>, lim: Limits, f: Frame): (seq<Channel>, OrderedResult) {
    if f.orderingIndex.None? then (channels, Ready([f]))
    else
      var grown := Grown(channels, ChannelOf(f));
      var (c, r) := HandleOrdered(grown[ChannelOf(f)], lim, f.orderingIndex.value, f);
      (grown[ChannelOf(f) := c], r)
  }

  function Sequenced(channels: seq<Channel>, lim: Limits, f: Frame): (seq<Channel>, SequencedResult) {
    if f.sequenceIndex.None? then (channels, DropMissingSequence)
    else
      var grown := Grown(channels, ChannelOf(f));
      var (c, r) := HandleSequenced(grown[ChannelOf(f)], lim, f.sequenceIndex.value);
      (grown[ChannelOf(f) := c], r)
  }

  /** A channel that does not exist yet behaves as a fresh one. */
  function At(channels: seq<Channel>, k: u8): Channel { if k < |channels| then channels[k] else FRESH }

  /** A frame on one channel leaves every other channel as it was. */
  lemma OtherChannels(channels: seq<Channel>, lim: Limits, f: Frame, k: u8)
    ensures k != ChannelOf(f) ==> At(Ordered(channels, lim, f).0, k) == At(channels, k)
    ensures k != ChannelOf(f) ==> At(Sequenced(channels, lim, f).0, k) == At(channels, k)
  {
  }

  // ----- what draining does -----

  lemma {:induction false} AdvanceState(c: Channel, n: nat)
    requires n < MODULO
    ensures Advance(c, n).expected == Plus(c.expected, n)
    ensures Advance(c, n).lastSequence == c.lastSequence
    ensures forall k: Seq24 :: k in Advance(c, n).pending <==> k in c.pending && DistanceTo(c.expected, k) >= n
    ensures forall k <- Advance(c, n).pending :: Advance(c, n).pending[k] == c.pending[k]
    decreases n
  {
    if n > 0 {
      var d := Channel(Next(c.expected), c.lastSequence, c.pending - {c.expected});
      AdvanceState(d, n - 1);
      forall k: Seq24
        ensures k in Advance(c, n).pending <==> k in c.pending && DistanceTo(c.expected, k) >= n
      {
        assert k != c.expected ==> DistanceTo(d.expected, k) == DistanceTo(c.expected, k) - 1;
        assert k == c.expected ==> DistanceTo(d.expected, k) == MODULO - 1;
      }
    }
  }

  /** The frames are the pending ones from `expected` on, up to a number that is not pending. */
  ghost predicate GapFree(run: seq<Frame>, expected: Seq24, pending: map<Seq24, Frame>) {
    && |run| < MODULO
    && (forall i | 0 <= i < |run| :: Plus(expected, i) in pending && run[i] == pending[Plus(expected, i)])
    && Plus(expected, |run|) !in pending
  }

  lemma GapFreeCons(expected: Seq24, pending: map<Seq24, Frame>, tail: seq<Frame>, absent: Seq24)
    requires expected in pending && absent !in pending && |tail| <= DistanceTo(Next(expected), absent)
    requires GapFree(tail, Next(expected), pending - {expected})
    ensures var run := [pending[expected]] + tail; |run| <= DistanceTo(expected, absent) && GapFree(run, expected, pending)
  {
    var run := [pending[expected]] + tail;
    forall i | 0 <= i < |run| ensures Plus(expected, i) in pending && run[i] == pending[Plus(expected, i)] {
      if i > 0 { assert Plus(Next(expected), i - 1) == Plus(expected, i); }
    }
    assert Plus(Next(expected), |tail|) == Plus(expected, |run|);
  }

  /** The released run is the longest gap-free stretch: its i-th frame is the pending frame
      numbered i after the start, and the number after its end is not pending. It cannot reach
      past a number that is not pending. */
  lemma {:induction false} RunFrames(expected: Seq24, pending: map<Seq24, Frame>, absent: Seq24)
    requires absent !in pending
    ensures |Run(expected, pending)| <= DistanceTo(expected, absent) && GapFree(Run(expected, pending), expected, pending)
    decreases |pending|
  {
    if expected in pending {
      RunFrames(Next(expected), pending - {expected}, absent);
      GapFreeCons(expected, pending, Run(Next(expected), pending - {expected}), absent);
    }
  }

  /** Keys whose offsets from `base` lie in `[lo, hi)` number at most `hi - lo`. */
  lemma {:induction false} KeyCount(keys: set<Seq24>, base: Seq24, lo: nat, hi: nat)
    requires lo <= hi <= MODULO && forall k <- keys :: lo <= DistanceTo(base, k) < hi
    ensures |keys| <= hi - lo
    decreases hi - lo
  {
    if lo < hi {
      var last := Plus(base, hi - 1);
      forall k <- keys - {last} ensures DistanceTo(base, k) < hi - 1 {
        StepByDistance(base, k);
      }
      KeyCount(keys - {last}, base, lo, hi - 1);
    } else {
      assert keys == {};
    }
  }

  // ----- what every step keeps -----

  /** Pending numbers are 1 to `maxGap` ahead of the expected one and within the buffer limit. */
  ghost predicate ChannelOk(c: Channel, lim: Limits) {
    && |c.pending| <= lim.maxPending
    && forall k <- c.pending :: 1 <= DistanceTo(c.expected, k) <= lim.maxGap
  }

  lemma OrderedKeepsOk(c: Channel, lim: Limits, index: Seq24, f: Frame)
    requires ChannelOk(c, lim)
    ensures ChannelOk(HandleOrdered(c, lim, index, f).0, lim)
  {
    var (d, r) := HandleOrdered(c, lim, index, f);
    if r.Ready? {
      Drained(c, lim, index, f);
      forall k <- d.pending ensures 1 <= DistanceTo(d.expected, k) <= lim.maxGap {
        DistanceSplit(c.expected, d.expected, k);
      }
      SubmapSize(d.pending, c.pending);
    }
  }

  /** The expected frame arrives: what comes out is it and the stretch of pending frames that
      continues it, the channel moves past exactly those, and the rest stays pending. */
  lemma Drained(c: Channel, lim: Limits, index: Seq24, f: Frame)
    requires c.expected !in c.pending && index == c.expected
    ensures var (d, r) := HandleOrdered(c, lim, index, f);
            && r.Ready? && 1 <= |r.frames| <= MODULO && r.frames[0] == f
            && (forall i | 1 <= i < |r.frames| :: Plus(c.expected, i) in c.pending && r.frames[i] == c.pending[Plus(c.expected, i)])
            && d.expected == Plus(Next(c.expected), |r.frames| - 1) && d.expected !in c.pending && d.lastSequence == c.lastSequence
            && (forall k: Seq24 :: k in d.pending <==> k in c.pending && DistanceTo(c.expected, k) > |r.frames|)
            && (forall k <- d.pending :: d.pending[k] == c.pending[k])
  {
    var next := c.(expected := Next(c.expected));
    var run := Run(next.expected, c.pending);
    RunFrames(next.expected, c.pending, c.expected);
    AdvanceState(next, |run|);
    var out := [f] + run;
    forall i | 1 <= i < |out| ensures Plus(c.expected, i) in c.pending && out[i] == c.pending[Plus(c.expected, i)] {
      assert Plus(next.expected, i - 1) == Plus(c.expected, i);
    }
    forall k: Seq24 ensures k in Advance(next, |run|).pending <==> k in c.pending && DistanceTo(c.expected, k) > |out| {
      if k in c.pending { PastRun(c.expected, c.pending, run, k); }
    }
  }

  /** A pending number is behind the released run exactly when it is more than the run and the
      awaited frame away. */
  lemma PastRun(expected: Seq24, pending: map<Seq24, Frame>, run: seq<Frame>, k: Seq24)
    requires expected !in pending && k in pending && |run| < MODULO && Plus(Next(expected), |run|) !in pending
    ensures DistanceTo(Next(expected), k) >= |run| <==> DistanceTo(expected, k) > |run| + 1
  {
    assert DistanceTo(Next(expected), k) == DistanceTo(expected, k) - 1;
    StepByDistance(Next(expected), k);
  }

  // ----- a whole stretch of numbers, in any arrival order -----

  /** Feeds frames to the channels one after the other; the result collects what is released. */
  function Deliver(channels: seq<Channel>, lim: Limits, frames: seq<Frame>): (seq<Channel>, seq<Frame>) {
    if frames == [] then (channels, [])
    else
      var (before, released) := Deliver(channels, lim, frames[..|frames| - 1]);
      var (after, r) := Ordered(before, lim, frames[|frames| - 1]);
      (after, if r.Ready? then released + r.frames else released)
  }

  /** The numbered frames of one channel. */
  function OnChannel(frames: seq<Frame>, k: u8): seq<Frame> {
    if frames == [] then []
    else
      var last, rest := frames[|frames| - 1], OnChannel(frames[..|frames| - 1], k);
      if last.orderingIndex.Some? && ChannelOf(last) == k then rest + [last] else rest
  }

  /** `sent[j]` carries the j-th ordering number from `base` on channel `k`. */
  ghost predicate Stretch(sent: seq<Frame>, base: Seq24, k: u8)
    requires |sent| <= MODULO
  {
    forall j | 0 <= j < |sent| :: sent[j].orderingIndex == Some(Plus(base, j)) && ChannelOf(sent[j]) == k
  }

  /** The channel has released the first `m` of the stretch and holds back exactly the later
      ones among the arrivals. */
  ghost predicate Progress(c: Channel, base: Seq24, sent: seq<Frame>, arrived: seq<Frame>, m: nat)
    requires |sent| < MODULO
  {
    && m <= |sent| && c.expected == Plus(base, m)
    && (forall j | 0 <= j < m :: sent[j] in arrived)
    && (m < |sent| ==> sent[m] !in arrived)
    && (forall j | m < j < |sent| :: sent[j] in arrived <==> Plus(base, j) in c.pending)
    && (forall k <- c.pending :: m < DistanceTo(base, k) < |sent| && c.pending[k] == sent[DistanceTo(base, k)])
  }

  /** The limits leave room for a stretch of `n` frames and for repeats of any of them. */
  ghost predicate Roomy(lim: Limits, n: nat) {
    n <= lim.maxPending + 1 && n <= lim.maxGap + 1 && n + lim.maxGap < MODULO
  }

  /** One more arrival of the j-th frame of the stretch. */
  lemma ProgressStep(c: Channel, lim: Limits, base: Seq24, sent: seq<Frame>, k: u8, arrived: seq<Frame>, m: nat, j: nat)
    returns (m': nat)
    requires |sent| < MODULO && Roomy(lim, |sent|) && Stretch(sent, base, k)
    requires Progress(c, base, sent, arrived, m) && j < |sent|
    ensures var (d, r) := HandleOrdered(c, lim, Plus(base, j), sent[j]);
            && m <= m' <= |sent| && Progress(d, base, sent, arrived + [sent[j]], m')
            && (r.Ready? ==> r.frames == sent[m..m']) && (!r.Ready? ==> m' == m)
  {
    if j < m {
      RepeatStep(c, lim, base, sent, arrived, m, j);
      m' := m;
    } else if j == m {
      m' := AwaitedStep(c, lim, base, sent, k, arrived, m);
    } else {
      EarlyStep(c, lim, base, sent, k, arrived, m, j);
      m' := m;
    }
  }

  lemma RepeatStep(c: Channel, lim: Limits, base: Seq24, sent: seq<Frame>, arrived: seq<Frame>, m: nat, j: nat)
    requires |sent| < MODULO && Roomy(lim, |sent|)
    requires Progress(c, base, sent, arrived, m) && j < m
    ensures HandleOrdered(c, lim, Plus(base, j), sent[j]) == (c, DroppedStale)
    ensures Progress(c, base, sent, arrived + [sent[j]], m)
  {
    assert DistanceTo(c.expected, Plus(base, j)) == MODULO - (m - j);
  }

  /** There is room for one more frame of the stretch. */
  lemma EarlyRoom(c: Channel, lim: Limits, base: Seq24, sent: seq<Frame>, arrived: seq<Frame>, m: nat, index: Seq24)
    requires |sent| < MODULO && Roomy(lim, |sent|) && Progress(c, base, sent, arrived, m)
    requires m < DistanceTo(base, index) < |sent| && index !in c.pending
    ensures |c.pending| < lim.maxPending
  {
    var keys := c.pending.Keys + {index};
    forall x <- keys ensures m + 1 <= DistanceTo(base, x) < |sent| {}
    KeyCount(keys, base, m + 1, |sent|);
    assert |keys| == |c.pending| + 1;
  }

  lemma EarlyFiled(c: Channel, base: Seq24, sent: seq<Frame>, k: u8, arrived: seq<Frame>, m: nat, j: nat)
    requires |sent| < MODULO && Stretch(sent, base, k) && Progress(c, base, sent, arrived, m) && m < j < |sent|
    ensures Progress(c.(pending := c.pending[Plus(base, j) := sent[j]]), base, sent, arrived + [sent[j]], m)
  {
    var index := Plus(base, j);
    var d := c.(pending := c.pending[index := sent[j]]);
    Distinct(sent, base, k);
    forall i | m < i < |sent| ensures sent[i] in arrived + [sent[j]] <==> Plus(base, i) in d.pending {
      assert i != j ==> Plus(base, i) != index;
    }
  }

  lemma EarlyStep(c: Channel, lim: Limits, base: Seq24, sent: seq<Frame>, k: u8, arrived: seq<Frame>, m: nat, j: nat)
    requires |sent| < MODULO && Roomy(lim, |sent|) && Stretch(sent, base, k)
    requires Progress(c, base, sent, arrived, m) && m < j < |sent|
    ensures var (d, r) := HandleOrdered(c, lim, Plus(base, j), sent[j]);
            !r.Ready? && Progress(d, base, sent, arrived + [sent[j]], m)
  {
    var index := Plus(base, j);
    assert DistanceTo(c.expected, index) == j - m;
    if index in c.pending {
      EarlyAgain(c, lim, base, sent, arrived, m, j);
    } else {
      EarlyRoom(c, lim, base, sent, arrived, m, index);
      EarlyFiled(c, base, sent, k, arrived, m, j);
    }
  }

  lemma EarlyAgain(c: Channel, lim: Limits, base: Seq24, sent: seq<Frame>, arrived: seq<Frame>, m: nat, j: nat)
    requires |sent| < MODULO && Progress(c, base, sent, arrived, m) && m < j < |sent| && Plus(base, j) in c.pending
    requires DistanceTo(c.expected, Plus(base, j)) == j - m
    ensures var (d, r) := HandleOrdered(c, lim, Plus(base, j), sent[j]);
            !r.Ready? && d == c && Progress(c, base, sent, arrived + [sent[j]], m)
  {
    assert sent[j] in arrived;
    forall i | 0 <= i < |sent| ensures sent[i] in arrived + [sent[j]] <==> sent[i] in arrived {}
  }

  /** `out` is the awaited frame and the pending frames behind it, and `d` the channel past them. */
  ghost predicate DrainsTo(c: Channel, f: Frame, out: seq<Frame>, d: Channel) {
    && 1 <= |out| <= MODULO && out[0] == f
    && (forall i | 1 <= i < |out| :: Plus(c.expected, i) in c.pending && out[i] == c.pending[Plus(c.expected, i)])
    && d.expected == Plus(Next(c.expected), |out| - 1) && d.expected !in c.pending
    && (forall x: Seq24 :: x in d.pending <==> x in c.pending && DistanceTo(c.expected, x) > |out|)
    && (forall x <- d.pending :: d.pending[x] == c.pending[x])
  }

  lemma DrainedTo(c: Channel, lim: Limits, f: Frame)
    requires c.expected !in c.pending
    ensures var (d, r) := HandleOrdered(c, lim, c.expected, f); r.Ready? && DrainsTo(c, f, r.frames, d)
  {
    Drained(c, lim, c.expected, f);
  }

  lemma ReleaseProgress(c: Channel, d: Channel, base: Seq24, sent: seq<Frame>, k: u8, arrived: seq<Frame>, m: nat, out: seq<Frame>)
    requires |sent| < MODULO && Stretch(sent, base, k)
    requires Progress(c, base, sent, arrived, m) && m < |sent| && DrainsTo(c, sent[m], out, d)
    ensures m + |out| <= |sent| && out == sent[m..m + |out|] && Progress(d, base, sent, arrived + [sent[m]], m + |out|)
  {
    ReleaseFrames(c, base, sent, arrived, m, out);
    ReleaseStep(c, d, base, sent, k, arrived, m, m + |out|);
  }

  lemma AwaitedStep(c: Channel, lim: Limits, base: Seq24, sent: seq<Frame>, k: u8, arrived: seq<Frame>, m: nat)
    returns (m': nat)
    requires |sent| < MODULO && Stretch(sent, base, k)
    requires Progress(c, base, sent, arrived, m) && m < |sent|
    ensures var (d, r) := HandleOrdered(c, lim, Plus(base, m), sent[m]);
            m < m' <= |sent| && r == Ready(sent[m..m']) && Progress(d, base, sent, arrived + [sent[m]], m')
  {
    NotPending(c, base, sent, arrived, m);
    assert c.expected == Plus(base, m);
    DrainedTo(c, lim, sent[m]);
    var (d, r) := HandleOrdered(c, lim, c.expected, sent[m]);
    ReleaseProgress(c, d, base, sent, k, arrived, m, r.frames);
    m' := m + |r.frames|;
  }

  lemma NotPending(c: Channel, base: Seq24, sent: seq<Frame>, arrived: seq<Frame>, m: nat)
    requires |sent| < MODULO && Progress(c, base, sent, arrived, m) && m < |sent|
    ensures c.expected !in c.pending
  {
  }

  lemma Distinct(sent: seq<Frame>, base: Seq24, k: u8)
    requires |sent| <= MODULO && Stretch(sent, base, k)
    ensures forall i, j | 0 <= i < j < |sent| :: sent[i] != sent[j]
  {
    forall i, j | 0 <= i < j < |sent| ensures sent[i] != sent[j] {
      assert DistanceTo(base, Plus(base, i)) == i && DistanceTo(base, Plus(base, j)) == j;
    }
  }

  /** The awaited frame followed by pending frames without a gap is a piece of the stretch. */
  lemma ReleaseFrames(c: Channel, base: Seq24, sent: seq<Frame>, arrived: seq<Frame>, m: nat, out: seq<Frame>)
    requires |sent| < MODULO && Progress(c, base, sent, arrived, m) && m < |sent|
    requires 1 <= |out| <= MODULO && out[0] == sent[m]
    requires forall i | 1 <= i < |out| :: Plus(c.expected, i) in c.pending && out[i] == c.pending[Plus(c.expected, i)]
    ensures m + |out| <= |sent| && out == sent[m..m + |out|]
    ensures forall j | m < j < m + |out| :: sent[j] in arrived
  {
    forall i | 1 <= i < |out| ensures m + i < |sent| && out[i] == sent[m + i] && sent[m + i] in arrived {
      ReleasedAt(c, base, sent, arrived, m, i);
    }
    if |out| > 1 { ReleasedAt(c, base, sent, arrived, m, |out| - 1); }
    forall j | m < j < m + |out| ensures sent[j] in arrived { ReleasedAt(c, base, sent, arrived, m, j - m); }
  }

  /** The awaited frame arrives: the channel's progress moves past what is released. */
  lemma ReleaseStep(c: Channel, d: Channel, base: Seq24, sent: seq<Frame>, k: u8, arrived: seq<Frame>, m: nat, m': nat)
    requires |sent| < MODULO && Stretch(sent, base, k)
    requires Progress(c, base, sent, arrived, m) && m < m' <= |sent|
    requires forall j | m < j < m' :: sent[j] in arrived
    requires d.expected == Plus(Next(c.expected), m' - m - 1) && d.expected !in c.pending
    requires forall x: Seq24 :: x in d.pending <==> x in c.pending && DistanceTo(c.expected, x) > m' - m
    requires forall x <- d.pending :: d.pending[x] == c.pending[x]
    ensures Progress(d, base, sent, arrived + [sent[m]], m')
  {
    Distinct(sent, base, k);
    ReleasePending(c, d, base, sent, arrived, m, m');
  }

  lemma ReleasePending(c: Channel, d: Channel, base: Seq24, sent: seq<Frame>, arrived: seq<Frame>, m: nat, m': nat)
    requires |sent| < MODULO && Progress(c, base, sent, arrived, m) && m < m' <= |sent|
    requires d.expected == Plus(Next(c.expected), m' - m - 1) && d.expected !in c.pending
    requires forall k: Seq24 :: k in d.pending <==> k in c.pending && DistanceTo(c.expected, k) > m' - m
    requires forall k <- d.pending :: d.pending[k] == c.pending[k]
    ensures d.expected == Plus(base, m') && (m' < |sent| ==> sent[m'] !in arrived)
    ensures forall j | m' < j < |sent| :: sent[j] in arrived <==> Plus(base, j) in d.pending
    ensures forall k <- d.pending :: m' < DistanceTo(base, k) < |sent| && d.pending[k] == sent[DistanceTo(base, k)]
  {
    assert d.expected == Plus(base, m');
    forall j | m' < j < |sent| ensures sent[j] in arrived <==> Plus(base, j) in d.pending {
      DistanceSplit(base, c.expected, Plus(base, j));
    }
    forall x <- d.pending ensures m' < DistanceTo(base, x) < |sent| {
      DistanceSplit(base, c.expected, x);
    }
  }

  /** The i-th released frame is the i-th frame after the awaited one. */
  lemma ReleasedAt(c: Channel, base: Seq24, sent: seq<Frame>, arrived: seq<Frame>, m: nat, i: nat)
    requires |sent| < MODULO && Progress(c, base, sent, arrived, m) && m < |sent|
    requires 1 <= i < MODULO && Plus(c.expected, i) in c.pending
    ensures m + i < |sent| && c.pending[Plus(c.expected, i)] == sent[m + i] && sent[m + i] in arrived
  {
    var key := Plus(c.expected, i);
    assert m < DistanceTo(base, key) < |sent|;
    assert DistanceTo(base, key) == m + i;
    StepByDistance(base, key);
  }

  // ----- the same over the whole table, other traffic interleaved -----

  /** Every pending frame sits on its own channel under its own number, which is not the
      expected one. */
  ghost predicate HomedAt(c: Channel, k: int) {
    && c.expected !in c.pending
    && forall x <- c.pending :: ChannelOf(c.pending[x]) == k && c.pending[x].orderingIndex == Some(x)
  }

  ghost predicate Homed(channels: seq<Channel>) {
    forall i | 0 <= i < |channels| :: HomedAt(channels[i], i)
  }

  /** A step keeps pending frames at home and releases only frames of the arriving frame's channel. */
  lemma HandleHomed(c: Channel, lim: Limits, f: Frame, k: u8)
    requires HomedAt(c, k) && f.orderingIndex.Some? && ChannelOf(f) == k
    ensures var (d, r) := HandleOrdered(c, lim, f.orderingIndex.value, f);
            && HomedAt(d, k)
            && (r.Ready? ==> forall g <- r.frames :: g.orderingIndex.Some? && ChannelOf(g) == k)
  {
    if f.orderingIndex.value == c.expected {
      Drained(c, lim, c.expected, f);
      var r := HandleOrdered(c, lim, c.expected, f).1;
      forall g <- r.frames ensures g.orderingIndex.Some? && ChannelOf(g) == k {
        var i :| 0 <= i < |r.frames| && r.frames[i] == g;
        if i > 0 { assert r.frames[i] == c.pending[Plus(c.expected, i)]; }
      }
    }
  }

  lemma OrderedHomed(channels: seq<Channel>, lim: Limits, f: Frame)
    requires Homed(channels) && f.orderingIndex.Some?
    ensures var (after, r) := Ordered(channels, lim, f);
            && Homed(after)
            && (r.Ready? ==> forall g <- r.frames :: g.orderingIndex.Some? && ChannelOf(g) == ChannelOf(f))
  {
    var k := ChannelOf(f);
    var grown := Grown(channels, k);
    forall i | 0 <= i < |grown| ensures HomedAt(grown[i], i) {}
    HandleHomed(grown[k], lim, f, k);
  }

  lemma {:induction false} OnChannelConcat(a: seq<Frame>, b: seq<Frame>, k: u8)
    ensures OnChannel(a + b, k) == OnChannel(a, k) + OnChannel(b, k)
  {
    if b == [] {
      assert a + b == a;
    } else {
      assert (a + b)[..|a + b| - 1] == a + b[..|b| - 1];
      OnChannelConcat(a, b[..|b| - 1], k);
    }
  }

  lemma {:induction false} OnChannelUniform(frames: seq<Frame>, home: u8, k: u8)
    requires forall f <- frames :: f.orderingIndex.Some? && ChannelOf(f) == home
    ensures OnChannel(frames, k) == if home == k then frames else []
  {
    if frames != [] {
      OnChannelUniform(frames[..|frames| - 1], home, k);
      assert frames[..|frames| - 1] + [frames[|frames| - 1]] == frames;
    }
  }

  /** What one more frame adds to the deliveries of a channel. */
  lemma DeliverLast(channels: seq<Channel>, lim: Limits, init: seq<Frame>, f: Frame, k: u8)
    requires Homed(Deliver(channels, lim, init).0) && f.orderingIndex.Some?
    ensures var (before, released) := Deliver(channels, lim, init);
            var (after, r) := Ordered(before, lim, f);
            var out := if ChannelOf(f) == k && r.Ready? then r.frames else [];
            && Deliver(channels, lim, init + [f]).0 == after && Homed(after)
            && OnChannel(Deliver(channels, lim, init + [f]).1, k) == OnChannel(released, k) + out
  {
    var (before, released) := Deliver(channels, lim, init);
    var r := Ordered(before, lim, f).1;
    assert (init + [f])[..|init|] == init;
    OrderedHomed(before, lim, f);
    if r.Ready? {
      OnChannelConcat(released, r.frames, k);
      OnChannelUniform(r.frames, ChannelOf(f), k);
    }
  }

  lemma {:induction false} DeliverHomed(channels: seq<Channel>, lim: Limits, frames: seq<Frame>)
    requires Homed(channels) && forall f <- frames :: f.orderingIndex.Some?
    ensures Homed(Deliver(channels, lim, frames).0)
  {
    if frames != [] {
      var init := frames[..|frames| - 1];
      DeliverHomed(channels, lim, init);
      OrderedHomed(Deliver(channels, lim, init).0, lim, frames[|frames| - 1]);
    }
  }

  /** In any arrival order, with any repeats and any traffic on other channels in between,
      the channel has released exactly the frames before the first missing one, once each and
      in order; the stretch may pass the end of the number space. */
  lemma {:induction false} AnyArrivalOrder(
    channels: seq<Channel>, lim: Limits, base: Seq24, sent: seq<Frame>, k: u8, frames: seq<Frame>)
    returns (m: nat)
    requires |sent| < MODULO && Roomy(lim, |sent|) && Stretch(sent, base, k) && Homed(channels)
    requires At(channels, k).expected == base && At(channels, k).pending == map[]
    requires forall f <- frames :: f.orderingIndex.Some? && (ChannelOf(f) == k ==> f in sent)
    ensures m <= |sent| && OnChannel(Deliver(channels, lim, frames).1, k) == sent[..m]
    ensures forall j | 0 <= j < m :: sent[j] in frames
    ensures m < |sent| ==> sent[m] !in frames
    ensures Progress(At(Deliver(channels, lim, frames).0, k), base, sent, frames, m)
  {
    if frames == [] {
      m := 0;
    } else {
      var init, f := frames[..|frames| - 1], frames[|frames| - 1];
      assert frames == init + [f];
      m := AnyArrivalOrder(channels, lim, base, sent, k, init);
      DeliverHomed(channels, lim, init);
      DeliverLast(channels, lim, init, f, k);
      m := ArrivalStep(Deliver(channels, lim, init).0, lim, base, sent, k, init, m, f);
    }
  }

  /** On its own channel the table does what the channel does. */
  lemma OrderedAt(channels: seq<Channel>, lim: Limits, f: Frame)
    requires f.orderingIndex.Some?
    ensures var (after, r) := Ordered(channels, lim, f);
            (At(after, ChannelOf(f)), r) == HandleOrdered(At(channels, ChannelOf(f)), lim, f.orderingIndex.value, f)
  {
  }

  lemma OwnArrival(c: Channel, lim: Limits, base: Seq24, sent: seq<Frame>, k: u8, init: seq<Frame>, m: nat, f: Frame)
    returns (m': nat)
    requires |sent| < MODULO && Roomy(lim, |sent|) && Stretch(sent, base, k)
    requires Progress(c, base, sent, init, m) && f.orderingIndex.Some? && f in sent
    ensures var (d, r) := HandleOrdered(c, lim, f.orderingIndex.value, f);
            && m <= m' <= |sent| && Progress(d, base, sent, init + [f], m')
            && sent[..m'] == sent[..m] + if r.Ready? then r.frames else []
  {
    var j := IndexIn(sent, base, k, f);
    m' := ProgressStep(c, lim, base, sent, k, init, m, j);
    SliceJoin(sent, m, m');
  }

  lemma IndexIn(sent: seq<Frame>, base: Seq24, k: u8, f: Frame) returns (j: nat)
    requires |sent| <= MODULO && Stretch(sent, base, k) && f in sent
    ensures j < |sent| && sent[j] == f && f.orderingIndex == Some(Plus(base, j))
  {
    j :| 0 <= j < |sent| && sent[j] == f;
  }

  lemma SliceJoin(sent: seq<Frame>, m: nat, n: nat)
    requires m <= n <= |sent|
    ensures sent[..n] == sent[..m] + sent[m..n] && sent[..m] + [] == sent[..m]
  {
  }

  /** The step of the induction, on the table as it stands. */
  lemma ArrivalStep(channels: seq<Channel>, lim: Limits, base: Seq24, sent: seq<Frame>, k: u8, init: seq<Frame>, m: nat, f: Frame)
    returns (m': nat)
    requires |sent| < MODULO && Roomy(lim, |sent|) && Stretch(sent, base, k)
    requires Progress(At(channels, k), base, sent, init, m)
    requires f.orderingIndex.Some? && (ChannelOf(f) == k ==> f in sent)
    ensures var (after, r) := Ordered(channels, lim, f);
            && m <= m' <= |sent| && Progress(At(after, k), base, sent, init + [f], m')
            && sent[..m'] == sent[..m] + if ChannelOf(f) == k && r.Ready? then r.frames else []
  {
    if ChannelOf(f) == k {
      OrderedAt(channels, lim, f);
      m' := OwnArrival(At(channels, k), lim, base, sent, k, init, m, f);
    } else {
      OtherChannels(channels, lim, f, k);
      ProgressOther(At(channels, k), base, sent, k, init, m, f);
      m' := m;
      assert sent[..m] + [] == sent[..m];
    }
  }

  /** A frame of another channel is not part of the stretch. */
  lemma ProgressOther(c: Channel, base: Seq24, sent: seq<Frame>, k: u8, arrived: seq<Frame>, m: nat, f: Frame)
    requires |sent| < MODULO && Stretch(sent, base, k) && Progress(c, base, sent, arrived, m) && ChannelOf(f) != k
    ensures Progress(c, base, sent, arrived + [f], m)
  {
    forall j | 0 <= j < |sent| ensures sent[j] in arrived + [f] <==> sent[j] in arrived {}
  }

  /** Once every frame of the stretch has arrived, all of it has been released. */
  lemma WholeStretch(channels: seq<Channel>, lim: Limits, base: Seq24, sent: seq<Frame>, k: u8, frames: seq<Frame>)
    requires |sent| < MODULO && Roomy(lim, |sent|) && Stretch(sent, base, k) && Homed(channels)
    requires At(channels, k).expected == base && At(channels, k).pending == map[]
    requires forall f <- frames :: f.orderingIndex.Some? && (ChannelOf(f) == k ==> f in sent)
    requires forall f <- sent :: f in frames
    ensures OnChannel(Deliver(channels, lim, frames).1, k) == sent
  {
    var m := AnyArrivalOrder(channels, lim, base, sent, k, frames);
    assert m == |sent| by { assert forall j | 0 <= j < |sent| :: sent[j] in sent; }
    assert sent[..|sent|] == sent;
  }

  // ----- sequenced frames -----

  /** Sequenced frames as they arrive: frame `i` carries the unbounded number `ns[i]`. */
  ghost predicate Carry(frames: seq<Frame>, ns: seq<nat>) {
    |frames| == |ns| && forall i | 0 <= i < |frames| :: frames[i].sequenceIndex == Some(Of(ns[i]))
  }

  /** On the channel no frame arrives so late that it is a lap less the gap limit or more behind
      one that came before it. */
  ghost predicate NotLapped(frames: seq<Frame>, ns: seq<nat>, lim: Limits, k: u8)
    requires |frames| == |ns|
  {
    forall i, j | 0 <= i < j < |frames| && ChannelOf(frames[i]) == ChannelOf(frames[j]) == k :: ns[i] - ns[j] < MODULO - lim.maxGap
  }

  /** Feeds sequenced frames to the channels and collects the numbers accepted on one of them. */
  ghost function Fresher(channels: seq<Channel>, lim: Limits, frames: seq<Frame>, ns: seq<nat>, k: u8): (seq<Channel>, seq<nat>)
    requires |frames| == |ns|
  {
    if frames == [] then (channels, [])
    else
      var n := |frames| - 1;
      var (before, taken) := Fresher(channels, lim, frames[..n], ns[..n], k);
      var (after, r) := Sequenced(before, lim, frames[n]);
      (after, if r.Accept? && ChannelOf(frames[n]) == k then taken + [ns[n]] else taken)
  }

  predicate Rising(ns: seq<nat>) { forall i, j | 0 <= i < j < |ns| :: ns[i] < ns[j] }

  /** The numbers accepted so far rise, and the channel remembers the last of them. */
  ghost predicate FresherSoFar(c: Channel, taken: seq<nat>) {
    Rising(taken) && c.lastSequence == if taken == [] then None else Some(Of(taken[|taken| - 1]))
  }

  lemma SequencedStep(c: Channel, lim: Limits, taken: seq<nat>, n: nat)
    requires FresherSoFar(c, taken) && (taken != [] ==> taken[|taken| - 1] - n < MODULO - lim.maxGap)
    ensures var (d, r) := HandleSequenced(c, lim, Of(n)); FresherSoFar(d, if r.Accept? then taken + [n] else taken)
  {
    if taken != [] {
      var last := taken[|taken| - 1];
      if n <= last { DistanceOf(n, last - n); }
    }
  }

  /** The last number accepted came in one of the frames. */
  ghost predicate Came(frames: seq<Frame>, ns: seq<nat>, k: u8, n: nat)
    requires |frames| == |ns|
  {
    exists i | 0 <= i < |frames| :: ChannelOf(frames[i]) == k && ns[i] == n
  }

  /** Whatever the arrival order and the repeats, sequenced frames accepted on a channel have
      rising numbers, through the wrap. */
  lemma {:induction false} SequencedRising(channels: seq<Channel>, lim: Limits, frames: seq<Frame>, ns: seq<nat>, k: u8)
    requires At(channels, k).lastSequence == None && Carry(frames, ns) && NotLapped(frames, ns, lim, k)
    ensures var (after, taken) := Fresher(channels, lim, frames, ns, k);
            && FresherSoFar(At(after, k), taken) && Rising(taken)
            && (taken != [] ==> Came(frames, ns, k, taken[|taken| - 1]))
  {
    if frames != [] {
      var n := |frames| - 1;
      var f, init, front := frames[n], frames[..n], ns[..n];
      FirstOnes(frames, ns, lim, k);
      SequencedRising(channels, lim, init, front, k);
      var (before, taken) := Fresher(channels, lim, init, front, k);
      if taken != [] { CameBefore(frames, ns, lim, k, taken[|taken| - 1]); }
      RisingOn(before, lim, f, ns[n], k, taken);
    }
  }

  lemma FirstOnes(frames: seq<Frame>, ns: seq<nat>, lim: Limits, k: u8)
    requires frames != [] && Carry(frames, ns) && NotLapped(frames, ns, lim, k)
    ensures var n := |frames| - 1;
            && Carry(frames[..n], ns[..n]) && NotLapped(frames[..n], ns[..n], lim, k)
            && (ChannelOf(frames[n]) == k ==> Came(frames, ns, k, ns[n]))
  {
  }

  lemma CameBefore(frames: seq<Frame>, ns: seq<nat>, lim: Limits, k: u8, last: nat)
    requires frames != [] && |frames| == |ns| && NotLapped(frames, ns, lim, k)
    requires Came(frames[..|frames| - 1], ns[..|frames| - 1], k, last)
    ensures Came(frames, ns, k, last)
    ensures ChannelOf(frames[|frames| - 1]) == k ==> last - ns[|frames| - 1] < MODULO - lim.maxGap
  {
    var n := |frames| - 1;
    var i :| 0 <= i < n && ChannelOf(frames[..n][i]) == k && ns[..n][i] == last;
    assert ChannelOf(frames[i]) == k && ns[i] == last;
  }

  lemma RisingOn(channels: seq<Channel>, lim: Limits, f: Frame, n: nat, k: u8, taken: seq<nat>)
    requires FresherSoFar(At(channels, k), taken) && f.sequenceIndex == Some(Of(n))
    requires ChannelOf(f) == k && taken != [] ==> taken[|taken| - 1] - n < MODULO - lim.maxGap
    ensures var (after, r) := Sequenced(channels, lim, f);
            FresherSoFar(At(after, k), if r.Accept? && ChannelOf(f) == k then taken + [n] else taken)
  {
    if ChannelOf(f) == k {
      SequencedAt(channels, lim, f);
      SequencedStep(At(channels, k), lim, taken, n);
    } else {
      OtherChannels(channels, lim, f, k);
    }
  }

  lemma SequencedAt(channels: seq<Channel>, lim: Limits, f: Frame)
    requires f.sequenceIndex.Some?
    ensures var (after, r) := Sequenced(channels, lim, f);
            (At(after, ChannelOf(f)), r) == HandleSequenced(At(channels, ChannelOf(f)), lim, f.sequenceIndex.value)
  {
  }

  // ----- draining step by step -----

  /** `done` has been released so far. */
  ghost predicate Draining(start: Channel, done: seq<Frame>, expected: Seq24, pending: map<Seq24, Frame>) {
    && Run(start.expected, start.pending) == done + Run(expected, pending)
    && Advance(start, |Run(start.expected, start.pending)|)
       == Advance(Channel(expected, start.lastSequence, pending), |Run(expected, pending)|)
  }

  lemma DrainStart(start: Channel)
    ensures Draining(start, [], start.expected, start.pending)
  {
    assert [] + Run(start.expected, start.pending) == Run(start.expected, start.pending);
  }

  lemma DrainNext(start: Channel, done: seq<Frame>, expected: Seq24, pending: map<Seq24, Frame>)
    requires Draining(start, done, expected, pending) && expected in pending
    ensures |pending - {expected}| < |pending|
    ensures Draining(start, done + [pending[expected]], Next(expected), pending - {expected})
  {
    var rest := Run(Next(expected), pending - {expected});
    assert done + ([pending[expected]] + rest) == done + [pending[expected]] + rest;
  }

  lemma DrainEnd(start: Channel, done: seq<Frame>, expected: Seq24, pending: map<Seq24, Frame>)
    requires Draining(start, done, expected, pending) && expected !in pending
    ensures done == Run(start.expected, start.pending)
    ensures Channel(expected, start.lastSequence, pending) == Advance(start, |done|)
  {
    assert done + [] == done;
  }

  // ----- the object -----

  class OrderingChannels {
    var channels: seq<Channel>
    const maxPending: nat
    const maxGap: nat

    ghost function Lim(): Limits { Limits(maxPending, maxGap) }

    /** Between calls every channel obeys its limits. */
    ghost predicate Valid()
      reads this
    {
      forall c <- channels :: ChannelOk(c, Lim())
    }

    constructor (maxChannels: nat, maxPending: nat, maxGap: nat)
      ensures Valid() && channels == seq(Max(maxChannels, 1), _ => FRESH)
      ensures this.maxPending == Max(maxPending, 1) && this.maxGap == Max(maxGap, 1)
    {
      channels := seq(Max(maxChannels, 1), _ => FRESH);
      this.maxPending := Max(maxPending, 1);
      this.maxGap := Max(maxGap, 1);
    }

    /** Makes sure the channel exists. */
    method Ensure(channel: u8)
      requires Valid()
      modifies this
      ensures Valid() && channels == Grown(old(channels), channel)
    {
      if channel >= |channels| {
        channels := channels + seq(channel + 1 - |channels|, _ => FRESH);
      }
    }

    /** Steps past the expected number and on through the pending frames that follow it. */
    method Drain(k: nat, f: Frame) returns (ready: seq<Frame>)
      requires k < |channels|
      modifies this
      ensures var c := old(channels[k]);
              var run := Run(Next(c.expected), c.pending);
              && ready == [f] + run
              && channels == old(channels)[k := Advance(c.(expected := Next(c.expected)), |run|)]
    {
      ready := [f];
      var c := channels[k];
      var expected, pending := Next(c.expected), c.pending;
      ghost var start := Channel(expected, c.lastSequence, pending);
      ghost var done: seq<Frame> := [];
      DrainStart(start);
      while expected in pending
        invariant ready == [f] + done && channels == old(channels)
        invariant Draining(start, done, expected, pending)
        decreases |pending|
      {
        DrainNext(start, done, expected, pending);
        done := done + [pending[expected]];
        ready := ready + [pending[expected]];
        pending := pending - {expected};
        expected := Next(expected);
      }
      DrainEnd(start, done, expected, pending);
      channels := channels[k := Channel(expected, c.lastSequence, pending)];
    }

    /** Releases the frame and what it unblocks, keeps it for later, or drops it. */
    method HandleOrderedFrame(f: Frame) returns (r: OrderedResult)
      requires Valid()
      modifies this
      ensures Valid() && (channels, r) == Ordered(old(channels), Lim(), f)
    {
      if f.orderingIndex.None? { return Ready([f]); }
      var index := f.orderingIndex.value;
      var k := ChannelOf(f);
      Ensure(k);
      ghost var grown := channels;
      var c := channels[k];
      assert c in channels;
      OrderedKeepsOk(c, Lim(), index, f);
      ghost var d := HandleOrdered(c, Lim(), index, f).0;
      var distance := DistanceTo(c.expected, index);
      if distance == 0 {
        var ready := Drain(k, f);
        r := Ready(ready);
      } else if distance > maxGap {
        r := DroppedStale;
      } else if |c.pending| >= maxPending {
        r := DroppedBufferFull;
      } else {
        if index !in c.pending {
          channels := channels[k := c.(pending := c.pending[index := f])];
        }
        r := Buffered;
      }
      assert channels == grown[k := d];
      forall e <- channels ensures ChannelOk(e, Lim()) { if e != d { assert e in grown; } }
    }

    method HandleSequencedFrame(f: Frame) returns (r: SequencedResult)
      requires Valid()
      modifies this
      ensures Valid() && (channels, r) == Sequenced(old(channels), Lim(), f)
    {
      if f.sequenceIndex.None? { return DropMissingSequence; }
      var index := f.sequenceIndex.value;
      var k := ChannelOf(f);
      Ensure(k);
      var c := channels[k];
      assert c in channels;
      if c.lastSequence.Some? {
        var distance := DistanceTo(c.lastSequence.value, index);
        if distance == 0 || distance > maxGap {
          assert channels[k := c] == channels;
          return DropStale;
        }
      }
      channels := channels[k := c.(lastSequence := Some(index))];
      r := Accept;
    }
  }
}
