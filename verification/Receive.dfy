/** The receiving half of a session (src/session/mod.rs): datagram numbers and the ACK and NACK
    ranges they cause, frame intake, and draining of acknowledgements. */
module Receive {
  import opened Base
  import opened Sequence24
  import opened Wire
  import opened Frames
  import opened Ack
  import opened AckQueues
  import opened Datagrams
  import Reorder
  import Splits
  import Tracking

  datatype RxConfig = RxConfig(
    reliableWindow: nat,
    splits: Splits.Limits,
    ordering: Reorder.Limits,
    queueCapacity: nat,
    ackFlushInterval: real,
    nackFlushInterval: real,
    ackMaxRanges: nat,
    nackMaxRanges: nat)

  datatype Rx = Rx(
    readIndex: Seq24,
    tracker: Tracking.Tracker,
    entries: Splits.Entries,
    channels: seq<Reorder.Channel>,
    acks: seq<Range>,
    nacks: seq<Range>,
    nextAckFlush: Instant,
    nextNackFlush: Instant)

  // ----- datagram numbers -----

  /** The ranges named when the numbers from `start` to `end` are found missing: consecutive
      pieces of at most 8192 numbers. */
  function NackChunks(start: Seq24, end: Seq24): (chunks: seq<Range>)
    ensures chunks != []
    decreases DistanceTo(start, end)
  {
    if DistanceTo(start, end) < MAX_ACK_SEQUENCES then [Range(start, end)]
    else
      var cut := Plus(start, MAX_ACK_SEQUENCES - 1);
      [Range(start, cut)] + NackChunks(Next(cut), end)
  }

  function PushAll(queue: seq<Range>, capacity: nat, ranges: seq<Range>): seq<Range> {
    if ranges == [] then queue
    else Push(PushAll(queue, capacity, ranges[..|ranges| - 1]), capacity, ranges[|ranges| - 1])
  }

  function NoteAck(rx: Rx, cfg: RxConfig, s: Seq24, now: Instant): Rx {
    rx.(acks := Push(rx.acks, cfg.queueCapacity, Single(s)),
        nextAckFlush := if rx.acks == [] then now + cfg.ackFlushInterval else rx.nextAckFlush)
  }

  /** The loss ranges a received number causes: none unless it jumps ahead of the read index. */
  function Missed(readIndex: Seq24, s: Seq24): seq<Range> {
    if Gt(readIndex, s) || s == readIndex then [] else NackChunks(readIndex, Prev(s))
  }

  /** A number behind the read index is only acknowledged; the expected one or one ahead moves
      the index past it, and skipped numbers are reported missing. */
  function NoteNumber(rx: Rx, cfg: RxConfig, s: Seq24, now: Instant): Rx {
    if Gt(rx.readIndex, s) then NoteAck(rx, cfg, s, now)
    else if s == rx.readIndex then NoteAck(rx.(readIndex := Next(s)), cfg, s, now)
    else
      NoteAck(rx.(readIndex := Next(s), nacks := PushAll(rx.nacks, cfg.queueCapacity, Missed(rx.readIndex, s)),
                  nextNackFlush := if rx.nacks == [] then now + cfg.nackFlushInterval else rx.nextNackFlush),
              cfg, s, now)
  }

  // ----- frames -----

  /** One frame: what it releases, or why the rest of the datagram is abandoned. */
  function HandleFrame(rx: Rx, cfg: RxConfig, f: Frame, now: Instant): (Rx, Result<seq<Frame>, DecodeError>) {
    var isSplit := f.header.isSplit;
    if f.header.reliability.IsReliable() && !isSplit && f.reliableIndex.Some?
       && Tracking.HasSeen(rx.tracker, cfg.reliableWindow, f.reliableIndex.value) then (rx, Ok([]))
    else
      var (entries, assembled) := Splits.Add(rx.entries, cfg.splits, f, now);
      var filed := rx.(entries := entries);
      match assembled
      case Err(e) => (filed, Err(e))
      case Ok(None) => (filed, Ok([]))
      case Ok(Some(g)) =>
        var marked :=
          if !isSplit && g.header.reliability.IsReliable() && g.reliableIndex.Some?
          then filed.(tracker := Tracking.See(rx.tracker, cfg.reliableWindow, g.reliableIndex.value).0) else filed;
        Release(marked, cfg, g)
  }

  /** A whole frame meets the ordering channels. */
  function Release(rx: Rx, cfg: RxConfig, g: Frame): (Rx, Result<seq<Frame>, DecodeError>) {
    if g.header.reliability.IsSequenced() then
      var (channels, r) := Reorder.Sequenced(rx.channels, cfg.ordering, g);
      (rx.(channels := channels), Ok(if r.Accept? then [g] else []))
    else if g.header.reliability.IsOrdered() then
      var (channels, r) := Reorder.Ordered(rx.channels, cfg.ordering, g);
      (rx.(channels := channels), Ok(if r.Ready? then r.frames else []))
    else (rx, Ok([g]))
  }

  /** How far the frames of a datagram got: everything released, and the error that stopped it. */
  datatype Taken = Taken(rx: Rx, released: seq<Frame>, error: Option<DecodeError>)

  function HandleFrames(rx: Rx, cfg: RxConfig, frames: seq<Frame>, now: Instant): Taken {
    if frames == [] then Taken(rx, [], None)
    else
      var before := HandleFrames(rx, cfg, frames[..|frames| - 1], now);
      if before.error.Some? then before
      else
        var (after, r) := HandleFrame(before.rx, cfg, frames[|frames| - 1], now);
        if r.Err? then Taken(after, before.released, Some(r.error))
        else Taken(after, before.released + r.value, None)
  }

  /** What the caller gets: the frames, or the error and none of them. */
  function HandedUp(t: Taken): Result<seq<Frame>, DecodeError> {
    if t.error.Some? then Err(t.error.value) else Ok(t.released)
  }

  function IngestFrames(rx: Rx, cfg: RxConfig, number: Seq24, frames: seq<Frame>, now: Instant): Taken {
    HandleFrames(NoteNumber(rx, cfg, number, now), cfg, frames, now)
  }

  // ----- draining -----

  function DrainedAcks(rx: Rx, cfg: RxConfig, mtu: nat): nat { Fitting(rx.acks, mtu, 3, 0, cfg.ackMaxRanges) }

  function DrainedNacks(rx: Rx, cfg: RxConfig, mtu: nat): nat { Fitting(rx.nacks, mtu, 3, 0, cfg.nackMaxRanges) }

  function DrainAcks(rx: Rx, cfg: RxConfig, mtu: nat, now: Instant): (Rx, Option<Datagram>) {
    var k := DrainedAcks(rx, cfg, mtu);
    if k == 0 then (rx, None)
    else (rx.(acks := rx.acks[k..], nextAckFlush := now + cfg.ackFlushInterval),
          Some(Datagram(FLAGS_ACK, 0, AckPayload(rx.acks[..k]))))
  }

  function DrainNacks(rx: Rx, cfg: RxConfig, mtu: nat, now: Instant): (Rx, Option<Datagram>) {
    var k := DrainedNacks(rx, cfg, mtu);
    if k == 0 then (rx, None)
    else (rx.(nacks := rx.nacks[k..], nextNackFlush := now + cfg.nackFlushInterval),
          Some(Datagram(FLAGS_NACK, 0, NackPayload(rx.nacks[..k]))))
  }

  function FlushAcks(rx: Rx, cfg: RxConfig, mtu: nat, now: Instant): (Rx, seq<Datagram>) {
    if rx.acks == [] || now < rx.nextAckFlush then (rx, [])
    else var (after, d) := DrainAcks(rx, cfg, mtu, now); (after, if d.Some? then [d.value] else [])
  }

  function FlushNacks(rx: Rx, cfg: RxConfig, mtu: nat, now: Instant): (Rx, seq<Datagram>) {
    if rx.nacks == [] || now < rx.nextNackFlush then (rx, [])
    else var (after, d) := DrainNacks(rx, cfg, mtu, now); (after, if d.Some? then [d.value] else [])
  }

  /** The control datagrams of a tick, in the configured order. */
  function FlushBoth(rx: Rx, cfg: RxConfig, mtu: nat, now: Instant, nackFirst: bool): (Rx, seq<Datagram>) {
    if nackFirst then
      var (mid, a) := FlushNacks(rx, cfg, mtu, now);
      var (after, b) := FlushAcks(mid, cfg, mtu, now);
      (after, a + b)
    else
      var (mid, a) := FlushAcks(rx, cfg, mtu, now);
      var (after, b) := FlushNacks(mid, cfg, mtu, now);
      (after, a + b)
  }

  /** What a tick does to the receiving half: due control datagrams go out and stale split
      entries are dropped. */
  function TickRx(rx: Rx, cfg: RxConfig, mtu: nat, now: Instant, nackFirst: bool): (Rx, seq<Datagram>) {
    var (flushed, out) := FlushBoth(rx, cfg, mtu, now, nackFirst);
    (Sweep(flushed, cfg, now), out)
  }

  function Sweep(rx: Rx, cfg: RxConfig, now: Instant): Rx {
    rx.(entries := Splits.Prune(rx.entries, cfg.splits.ttl, now))
  }

  // ----- the pieces of a jump -----

  /** The numbers of a list of ranges with their offsets from `base`, as one stretch `[lo, hi)`
      cut into consecutive pieces. */
  ghost predicate Consecutive(chunks: seq<Range>, base: Seq24, lo: nat, hi: nat)
    requires lo <= hi <= MODULO
  {
    if chunks == [] then lo == hi
    else
      var r := chunks[0];
      && DistanceTo(base, r.start) == lo && lo <= DistanceTo(base, r.end) < hi
      && r.Length() <= MAX_ACK_SEQUENCES
      && Consecutive(chunks[1..], base, DistanceTo(base, r.end) + 1, hi)
  }

  lemma {:induction false} ChunksConsecutive(base: Seq24, start: Seq24, end: Seq24)
    requires DistanceTo(base, start) <= DistanceTo(base, end)
    ensures Consecutive(NackChunks(start, end), base, DistanceTo(base, start), DistanceTo(base, end) + 1)
    decreases DistanceTo(start, end)
  {
    var chunks := NackChunks(start, end);
    DistanceSplit(base, start, end);
    if DistanceTo(start, end) >= MAX_ACK_SEQUENCES {
      var cut := Plus(start, MAX_ACK_SEQUENCES - 1);
      assert DistanceTo(base, cut) == DistanceTo(base, start) + MAX_ACK_SEQUENCES - 1;
      assert DistanceTo(base, Next(cut)) == DistanceTo(base, cut) + 1;
      ChunksConsecutive(base, Next(cut), end);
      assert chunks[1..] == NackChunks(Next(cut), end);
    } else {
      assert chunks[1..] == [];
    }
  }

  /** Consecutive pieces name each number of the stretch in exactly one piece and no other number. */
  lemma {:induction false} ConsecutiveNames(chunks: seq<Range>, base: Seq24, lo: nat, hi: nat, s: Seq24)
    requires lo <= hi <= MODULO && Consecutive(chunks, base, lo, hi)
    ensures Covers(chunks, s) <==> lo <= DistanceTo(base, s) < hi
    ensures forall i, j | 0 <= i < j < |chunks| :: !(chunks[i].Contains(s) && chunks[j].Contains(s))
    ensures forall i | 0 <= i < |chunks| :: chunks[i].Contains(s) ==> lo <= DistanceTo(base, s) < hi
  {
    if chunks != [] {
      var r, rest := chunks[0], chunks[1..];
      var mid := DistanceTo(base, r.end) + 1;
      ConsecutiveNames(rest, base, mid, hi, s);
      assert r.Contains(s) <==> lo <= DistanceTo(base, s) < mid;
      assert chunks == [r] + rest;
      CoversConcat([r], rest, s);
      assert Covers([r], s) <==> r.Contains(s) by { assert [r][0] == r; }
      forall i, j | 0 <= i < j < |chunks| ensures !(chunks[i].Contains(s) && chunks[j].Contains(s)) {
        assert chunks[j] == rest[j - 1];
        if i > 0 { assert chunks[i] == rest[i - 1]; }
      }
    }
  }

  /** A jump ahead is at most half a lap, and its loss ranges are disjoint pieces of at most
      8192 numbers that name exactly the skipped ones. */
  lemma JumpNames(readIndex: Seq24, s: Seq24, x: Seq24)
    requires !Gt(readIndex, s)
    ensures var d, missed := DistanceTo(readIndex, s), Missed(readIndex, s);
            && d <= HALF && Consecutive(missed, readIndex, 0, d)
            && (Covers(missed, x) <==> DistanceTo(readIndex, x) < d)
            && (forall r <- missed :: r.Contains(x) ==> DistanceTo(readIndex, x) < d)
            && (forall i, j | 0 <= i < j < |missed| :: !(missed[i].Contains(x) && missed[j].Contains(x)))
  {
    var d, missed := DistanceTo(readIndex, s), Missed(readIndex, s);
    CmpByDistance(readIndex, s);
    if s != readIndex {
      ChunksConsecutive(readIndex, readIndex, Prev(s));
      ConsecutiveNames(missed, readIndex, 0, d, x);
    }
  }

  // ----- the loss queue -----

  /** How many numbers the ranges name, counted range by range. */
  function Total(ranges: seq<Range>): nat {
    if ranges == [] then 0 else Total(ranges[..|ranges| - 1]) + ranges[|ranges| - 1].Length()
  }

  lemma {:induction false} TotalCons(ranges: seq<Range>)
    requires ranges != []
    ensures Total(ranges) == ranges[0].Length() + Total(ranges[1..])
  {
    var n := |ranges| - 1;
    if n > 0 {
      TotalCons(ranges[..n]);
      assert ranges[..n][1..] == ranges[1..][..n - 1];
    }
  }

  lemma {:induction false} ConsecutiveTotal(chunks: seq<Range>, base: Seq24, lo: nat, hi: nat)
    requires lo <= hi <= MODULO && Consecutive(chunks, base, lo, hi)
    ensures Total(chunks) == hi - lo
  {
    if chunks != [] {
      ConsecutiveTotal(chunks[1..], base, DistanceTo(base, chunks[0].end) + 1, hi);
      TotalCons(chunks);
      DistanceSplit(base, chunks[0].start, chunks[0].end);
    }
  }

  /** The parts of the ranges that find room in the queue. */
  function EnteredAll(queue: seq<Range>, capacity: nat, ranges: seq<Range>): seq<Range> {
    if ranges == [] then []
    else
      var init := ranges[..|ranges| - 1];
      EnteredAll(queue, capacity, init) + Entered(PushAll(queue, capacity, init), capacity, ranges[|ranges| - 1])
  }

  predicate Short(ranges: seq<Range>) { forall r <- ranges :: r.Length() <= HALF }

  /** While less than a lap is merged, the queue names exactly what it named before and what of the
      pieces finds room. */
  lemma {:induction false} PushAllNames(queue: seq<Range>, capacity: nat, ranges: seq<Range>, x: Seq24)
    requires LastLength(queue) + Total(ranges) <= MODULO && Short(ranges)
    ensures var q := PushAll(queue, capacity, ranges);
            && (Covers(q, x) <==> Covers(queue, x) || Covers(EnteredAll(queue, capacity, ranges), x))
            && |q| <= |queue| + |ranges| && LastLength(q) <= LastLength(queue) + Total(ranges)
  {
    if ranges != [] {
      var n := |ranges| - 1;
      var init, r := ranges[..n], ranges[n];
      assert r in ranges;
      forall p <- init ensures p.Length() <= HALF { assert p in ranges; }
      PushAllNames(queue, capacity, init, x);
      var before := PushAll(queue, capacity, init);
      PushRange(before, capacity, r, x);
      PushGrows(before, capacity, r);
      CoversConcat(EnteredAll(queue, capacity, init), Entered(before, capacity, r), x);
    }
  }

  /** With room everything gets in, and without it only parts of the ranges do. */
  lemma {:induction false} AllEnter(queue: seq<Range>, capacity: nat, ranges: seq<Range>, x: Seq24)
    requires LastLength(queue) + Total(ranges) <= MODULO && Short(ranges)
    ensures Covers(EnteredAll(queue, capacity, ranges), x) ==> Covers(ranges, x)
    ensures |queue| + |ranges| < capacity ==> (Covers(EnteredAll(queue, capacity, ranges), x) <==> Covers(ranges, x))
  {
    if ranges != [] {
      var n := |ranges| - 1;
      var init, r := ranges[..n], ranges[n];
      assert ranges == init + [r];
      forall p <- init ensures p.Length() <= HALF { assert p in ranges; }
      AllEnter(queue, capacity, init, x);
      PushAllNames(queue, capacity, init, x);
      var before := PushAll(queue, capacity, init);
      CoversConcat(EnteredAll(queue, capacity, init), Entered(before, capacity, r), x);
      CoversAppend(init, r, x);
      if Covers(Entered(before, capacity, r), x) { EnteredPart(before, capacity, r, x); }
      if |queue| + |ranges| < capacity { EnteredWhole(before, capacity, r, x); }
    }
  }

  /** A number's loss ranges and the last queued range name at most a whole lap. */
  predicate WithinLap(rx: Rx, s: Seq24) {
    Missed(rx.readIndex, s) != [] ==> LastLength(rx.nacks) + DistanceTo(rx.readIndex, s) <= MODULO
  }

  /** The loss queue has room for a number's ranges. */
  predicate Roomy(rx: Rx, cfg: RxConfig, s: Seq24) {
    var missed := Missed(rx.readIndex, s);
    missed != [] ==> |rx.nacks| + |missed| < cfg.queueCapacity
  }

  /** What of a number's loss ranges gets into the queue. */
  function Admitted(rx: Rx, cfg: RxConfig, s: Seq24): seq<Range> {
    EnteredAll(rx.nacks, cfg.queueCapacity, Missed(rx.readIndex, s))
  }

  lemma {:induction false} ConsecutiveShort(chunks: seq<Range>, base: Seq24, lo: nat, hi: nat)
    requires lo <= hi <= MODULO && Consecutive(chunks, base, lo, hi)
    ensures Short(chunks)
  {
    if chunks != [] {
      ConsecutiveShort(chunks[1..], base, DistanceTo(base, chunks[0].end) + 1, hi);
      assert chunks == [chunks[0]] + chunks[1..];
    }
  }

  /** A received number adds to the loss queue exactly what of the skipped numbers finds room, and
      with room exactly the skipped numbers. */
  lemma JumpReports(rx: Rx, cfg: RxConfig, s: Seq24, now: Instant, x: Seq24)
    requires WithinLap(rx, s)
    ensures Covers(NoteNumber(rx, cfg, s, now).nacks, x) <==> Covers(rx.nacks, x) || Covers(Admitted(rx, cfg, s), x)
    ensures Covers(Missed(rx.readIndex, s), x)
         <==> !Gt(rx.readIndex, s) && DistanceTo(rx.readIndex, x) < DistanceTo(rx.readIndex, s)
    ensures Covers(Admitted(rx, cfg, s), x) ==> Covers(Missed(rx.readIndex, s), x)
    ensures Roomy(rx, cfg, s) ==> (Covers(Admitted(rx, cfg, s), x) <==> Covers(Missed(rx.readIndex, s), x))
  {
    var missed, d := Missed(rx.readIndex, s), DistanceTo(rx.readIndex, s);
    if !Gt(rx.readIndex, s) {
      JumpNames(rx.readIndex, s, x);
      ConsecutiveTotal(missed, rx.readIndex, 0, d);
      ConsecutiveShort(missed, rx.readIndex, 0, d);
      if missed != [] {
        PushAllNames(rx.nacks, cfg.queueCapacity, missed, x);
        AllEnter(rx.nacks, cfg.queueCapacity, missed, x);
      }
    }
  }

  // ----- whole runs of received numbers and drains -----

  datatype RxEvent = Arrived(number: Seq24, at: Instant) | AcksOut(mtu: nat, at: Instant) | NacksOut(mtu: nat, at: Instant)

  function RxStep(rx: Rx, cfg: RxConfig, e: RxEvent): Rx {
    match e
    case Arrived(s, at) => NoteNumber(rx, cfg, s, at)
    case AcksOut(mtu, at) => DrainAcks(rx, cfg, mtu, at).0
    case NacksOut(mtu, at) => DrainNacks(rx, cfg, mtu, at).0
  }

  function RxRun(rx: Rx, cfg: RxConfig, events: seq<RxEvent>): Rx {
    if events == [] then rx else RxStep(RxRun(rx, cfg, events[..|events| - 1]), cfg, events[|events| - 1])
  }

  /** A loss range together with the unbounded read counter at the time it was pushed. */
  datatype Loss = Loss(at: nat, range: Range) {
    /** The range stands for this counter value. */
    predicate Names(n: nat) { at <= n < at + MODULO && range.Contains(Of(n)) }
  }

  /** The history of a run: how far the read counter has come, which numbers it passed by taking
      them, the loss ranges pushed, what of them found room, and those that went out in datagrams. */
  datatype Progress = Progress(read: nat, taken: set<nat>, losses: seq<Loss>, reported: seq<Range>, sent: seq<Range>)

  function Losses(at: nat, ranges: seq<Range>): (ls: seq<Loss>)
    ensures |ls| == |ranges| && forall i | 0 <= i < |ls| :: ls[i] == Loss(at, ranges[i])
  {
    seq(|ranges|, i requires 0 <= i < |ranges| => Loss(at, ranges[i]))
  }

  ghost function Progressed(p: Progress, rx: Rx, cfg: RxConfig, e: RxEvent): Progress {
    match e
    case Arrived(s, _) =>
      var d := DistanceTo(rx.readIndex, s);
      var q := p.(losses := p.losses + Losses(p.read, Missed(rx.readIndex, s)), reported := p.reported + Admitted(rx, cfg, s));
      if Gt(rx.readIndex, s) then q else q.(read := p.read + d + 1, taken := p.taken + {p.read + d})
    case AcksOut(_, _) => p
    case NacksOut(mtu, at) =>
      var out := DrainNacks(rx, cfg, mtu, at).1;
      if out.Some? && out.value.payload.NackPayload? then p.(sent := p.sent + out.value.payload.nacks) else p
  }

  ghost function History(rx: Rx, cfg: RxConfig, events: seq<RxEvent>): Progress {
    if events == [] then Progress(0, {}, [], [], [])
    else
      var init := events[..|events| - 1];
      Progressed(History(rx, cfg, init), RxRun(rx, cfg, init), cfg, events[|events| - 1])
  }

  function RangesOf(losses: seq<Loss>): (rs: seq<Range>)
    ensures |rs| == |losses| && forall i | 0 <= i < |rs| :: rs[i] == losses[i].range
  {
    seq(|losses|, i requires 0 <= i < |losses| => losses[i].range)
  }

  /** The loss ranges a step adds to the history are those it pushes onto the loss queue; a step
      that adds none leaves the queue alone or sends its front. */
  ghost predicate Pushes(p: Progress, rx: Rx, cfg: RxConfig, e: RxEvent) {
    var q := Progressed(p, rx, cfg, e);
    && p.losses <= q.losses && (e.Arrived? || q.losses == p.losses)
    && q.sent + RxStep(rx, cfg, e).nacks
       == p.sent + PushAll(rx.nacks, cfg.queueCapacity, RangesOf(q.losses[|p.losses|..]))
  }

  lemma StepPushes(p: Progress, rx: Rx, cfg: RxConfig, e: RxEvent)
    ensures Pushes(p, rx, cfg, e)
  {
    var q := Progressed(p, rx, cfg, e);
    match e {
      case Arrived(s, _) =>
        assert q.losses[|p.losses|..] == Losses(p.read, Missed(rx.readIndex, s));
        assert RangesOf(q.losses[|p.losses|..]) == Missed(rx.readIndex, s);
      case AcksOut(_, _) =>
      case NacksOut(mtu, _) =>
        var k := DrainedNacks(rx, cfg, mtu);
        assert p.sent + rx.nacks[..k] + rx.nacks[k..] == p.sent + rx.nacks;
    }
  }

  /** Every step of a run pushes what its history says. */
  ghost predicate PushesAll(rx: Rx, cfg: RxConfig, events: seq<RxEvent>) {
    events != [] ==>
      var init := events[..|events| - 1];
      PushesAll(rx, cfg, init) && Pushes(History(rx, cfg, init), RxRun(rx, cfg, init), cfg, events[|events| - 1])
  }

  ghost predicate Named(losses: seq<Loss>, n: nat) { exists l <- losses :: l.Names(n) }

  ghost predicate NamedOnce(losses: seq<Loss>, n: nat) {
    forall i, j | 0 <= i < j < |losses| :: !(losses[i].Names(n) && losses[j].Names(n))
  }

  /** What a history says of one number: it is behind the read counter exactly if it was taken
      in its turn or a loss range names it, never both, and no two ranges name it. */
  ghost predicate Settled(p: Progress, n: nat) {
    && (n < p.read <==> n in p.taken || Named(p.losses, n))
    && !(n in p.taken && Named(p.losses, n))
    && NamedOnce(p.losses, n)
  }

  lemma {:induction false} NamedConcat(a: seq<Loss>, b: seq<Loss>, n: nat)
    ensures Named(a + b, n) <==> Named(a, n) || Named(b, n)
    ensures NamedOnce(a, n) && NamedOnce(b, n) && !(Named(a, n) && Named(b, n)) ==> NamedOnce(a + b, n)
  {
    var both := a + b;
    if Named(a, n) { var l :| l in a && l.Names(n); assert l in both; }
    if Named(b, n) { var l :| l in b && l.Names(n); assert l in both; }
    if NamedOnce(a, n) && NamedOnce(b, n) && !(Named(a, n) && Named(b, n)) {
      forall i, j | 0 <= i < j < |both| ensures !(both[i].Names(n) && both[j].Names(n)) {
        if i < |a| { assert both[i] == a[i] && a[i] in a; } else { assert both[i] == b[i - |a|]; }
        if j < |a| { assert both[j] == a[j]; } else { assert both[j] == b[j - |a|] && b[j - |a|] in b; }
      }
    }
  }

  /** The ranges pushed for a jump name exactly the counter values it skips, each once. */
  lemma LossesName(at: nat, readIndex: Seq24, s: Seq24, n: nat)
    requires readIndex == Of(at) && !Gt(readIndex, s)
    ensures var ls := Losses(at, Missed(readIndex, s));
            && (Named(ls, n) <==> at <= n < at + DistanceTo(readIndex, s)) && NamedOnce(ls, n)
  {
    var missed := Missed(readIndex, s);
    JumpNames(readIndex, s, Of(n));
    if at <= n < at + MODULO { DistanceOf(at, n - at); }
    NamedIff(at, missed, n);
    NamedAtMostOnce(at, missed, n);
  }

  lemma NamedIff(at: nat, ranges: seq<Range>, n: nat)
    ensures Named(Losses(at, ranges), n) <==> at <= n < at + MODULO && Covers(ranges, Of(n))
  {
    var ls := Losses(at, ranges);
    if at <= n < at + MODULO && Covers(ranges, Of(n)) {
      var r :| r in ranges && r.Contains(Of(n));
      var i :| 0 <= i < |ranges| && ranges[i] == r;
      assert ls[i] in ls && ls[i].Names(n);
    }
    if Named(ls, n) {
      var l :| l in ls && l.Names(n);
      var i :| 0 <= i < |ls| && ls[i] == l;
      assert ranges[i] in ranges;
    }
  }

  lemma NamedAtMostOnce(at: nat, ranges: seq<Range>, n: nat)
    requires forall i, j | 0 <= i < j < |ranges| :: !(ranges[i].Contains(Of(n)) && ranges[j].Contains(Of(n)))
    ensures NamedOnce(Losses(at, ranges), n)
  {
    var ls := Losses(at, ranges);
    forall i, j | 0 <= i < j < |ls| ensures !(ls[i].Names(n) && ls[j].Names(n)) {
      assert ls[i].range == ranges[i] && ls[j].range == ranges[j];
    }
  }

  /** One received number: the counter moves past exactly the numbers that are then settled. */
  lemma ArrivalSettles(p: Progress, rx: Rx, cfg: RxConfig, e: RxEvent, n: nat)
    requires e.Arrived? && rx.readIndex == Of(p.read) && Settled(p, n)
    ensures var q := Progressed(p, rx, cfg, e);
            && q.read >= p.read && RxStep(rx, cfg, e).readIndex == Of(q.read) && Settled(q, n)
  {
    var s := e.number;
    if Gt(rx.readIndex, s) {
      assert p.losses + [] == p.losses;
    } else {
      var d := DistanceTo(rx.readIndex, s);
      LossesName(p.read, rx.readIndex, s, n);
      NamedConcat(p.losses, Losses(p.read, Missed(rx.readIndex, s)), n);
      PlusOf(p.read, d);
      StepByDistance(rx.readIndex, s);
      NextOf(p.read + d);
    }
  }

  /** Over any run of received numbers and drains from a fresh session the read index stands for
      a counter that only moves forward, and each number below the counter was taken in its turn
      or is named by exactly one loss range, never both, and no other number is; and those ranges
      are what the steps push onto the loss queue. */
  lemma {:induction false} RunAccounted(rx: Rx, cfg: RxConfig, events: seq<RxEvent>, n: nat)
    requires rx.readIndex == 0
    ensures var p := History(rx, cfg, events);
            && RxRun(rx, cfg, events).readIndex == Of(p.read) && Settled(p, n)
            && (events != [] ==> History(rx, cfg, events[..|events| - 1]).read <= p.read)
    ensures PushesAll(rx, cfg, events)
  {
    if events != [] {
      var init, e := events[..|events| - 1], events[|events| - 1];
      RunAccounted(rx, cfg, init, n);
      StepPushes(History(rx, cfg, init), RxRun(rx, cfg, init), cfg, e);
      if e.Arrived? { ArrivalSettles(History(rx, cfg, init), RxRun(rx, cfg, init), cfg, e, n); }
    }
  }

  /** No arrival of the run merges more than a lap. */
  ghost predicate LapRun(rx: Rx, cfg: RxConfig, events: seq<RxEvent>) {
    events != [] ==>
      var init, e := events[..|events| - 1], events[|events| - 1];
      LapRun(rx, cfg, init) && (e.Arrived? ==> WithinLap(RxRun(rx, cfg, init), e.number))
  }

  /** Every arrival of the run finds room. */
  ghost predicate RoomyRun(rx: Rx, cfg: RxConfig, events: seq<RxEvent>) {
    events != [] ==>
      var init, e := events[..|events| - 1], events[|events| - 1];
      RoomyRun(rx, cfg, init) && (e.Arrived? ==> Roomy(RxRun(rx, cfg, init), cfg, e.number))
  }

  ghost predicate LossContains(losses: seq<Loss>, x: Seq24) { exists l <- losses :: l.range.Contains(x) }

  lemma LossesContain(losses: seq<Loss>, at: nat, ranges: seq<Range>, x: Seq24)
    ensures LossContains(losses + Losses(at, ranges), x) <==> LossContains(losses, x) || Covers(ranges, x)
  {
    var ls := Losses(at, ranges);
    var all := losses + ls;
    if LossContains(losses, x) { var l :| l in losses && l.range.Contains(x); assert l in all; }
    if Covers(ranges, x) {
      var r :| r in ranges && r.Contains(x);
      var i :| 0 <= i < |ranges| && ranges[i] == r;
      assert ls[i] in all;
    }
    if LossContains(all, x) {
      var l :| l in all && l.range.Contains(x);
      if l !in losses {
        var i :| 0 <= i < |ls| && ls[i] == l;
        assert ranges[i] in ranges;
      }
    }
  }

  lemma SentOnwards(sent: seq<Range>, queue: seq<Range>, k: nat, x: Seq24)
    requires k <= |queue|
    ensures Covers(sent + queue[..k] + queue[k..], x) <==> Covers(sent + queue, x)
  {
    assert sent + queue[..k] + queue[k..] == sent + queue;
  }

  /** The queue and what was sent name what found room, which is part of what was lost. */
  ghost predicate Tallies(p: Progress, rx: Rx, x: Seq24) {
    && (Covers(p.sent + rx.nacks, x) <==> Covers(p.reported, x))
    && (Covers(p.reported, x) ==> LossContains(p.losses, x))
  }

  lemma ReportStep(p: Progress, rx: Rx, cfg: RxConfig, e: RxEvent, x: Seq24)
    requires Tallies(p, rx, x) && (e.Arrived? ==> WithinLap(rx, e.number))
    ensures var q := Progressed(p, rx, cfg, e);
            && Tallies(q, RxStep(rx, cfg, e), x)
            && ((e.Arrived? ==> Roomy(rx, cfg, e.number)) && (LossContains(p.losses, x) ==> Covers(p.reported, x))
                ==> (LossContains(q.losses, x) ==> Covers(q.reported, x)))
  {
    match e {
      case Arrived(s, at) =>
        JumpReports(rx, cfg, s, at, x);
        LossesContain(p.losses, p.read, Missed(rx.readIndex, s), x);
        CoversConcat(p.reported, Admitted(rx, cfg, s), x);
        CoversConcat(p.sent, rx.nacks, x);
        CoversConcat(p.sent, NoteNumber(rx, cfg, s, at).nacks, x);
      case AcksOut(_, _) =>
      case NacksOut(mtu, _) => SentOnwards(p.sent, rx.nacks, DrainedNacks(rx, cfg, mtu), x);
    }
  }

  lemma {:induction false} RunReported(rx: Rx, cfg: RxConfig, events: seq<RxEvent>, x: Seq24)
    requires rx.nacks == [] && LapRun(rx, cfg, events)
    ensures var p := History(rx, cfg, events);
            && Tallies(p, RxRun(rx, cfg, events), x)
            && (RoomyRun(rx, cfg, events) ==> (LossContains(p.losses, x) ==> Covers(p.reported, x)))
  {
    if events != [] {
      var init, e := events[..|events| - 1], events[|events| - 1];
      RunReported(rx, cfg, init, x);
      ReportStep(History(rx, cfg, init), RxRun(rx, cfg, init), cfg, e, x);
    }
  }

  /** A number that the read counter has passed without taking it, as it appears on the wire. */
  ghost predicate Skipped(p: Progress, x: Seq24) { exists n: nat | n < p.read && n !in p.taken :: Of(n) == x }

  /** In every run in which no more than a lap is merged, the loss reports sent and the loss queue
      together name exactly what found room, which is nothing but skipped numbers, and all of them
      if every arrival finds room. */
  lemma RunReports(rx: Rx, cfg: RxConfig, events: seq<RxEvent>, x: Seq24)
    requires rx.readIndex == 0 && rx.nacks == [] && LapRun(rx, cfg, events)
    ensures var p := History(rx, cfg, events);
            && (Covers(p.sent + RxRun(rx, cfg, events).nacks, x) <==> Covers(p.reported, x))
            && (Covers(p.reported, x) ==> Skipped(p, x))
            && (RoomyRun(rx, cfg, events) ==> (Covers(p.reported, x) <==> Skipped(p, x)))
  {
    RunReported(rx, cfg, events, x);
    forall n: nat ensures Settled(History(rx, cfg, events), n) { RunAccounted(rx, cfg, events, n); }
    ContainedIffSkipped(History(rx, cfg, events), x);
  }

  lemma ContainedIffSkipped(p: Progress, x: Seq24)
    requires forall n: nat :: Settled(p, n)
    ensures LossContains(p.losses, x) <==> Skipped(p, x)
  {
    if LossContains(p.losses, x) {
      var l :| l in p.losses && l.range.Contains(x);
      var n := l.at + DistanceTo(Of(l.at), x);
      PlusOf(l.at, n - l.at);
      StepByDistance(Of(l.at), x);
      assert l.Names(n) && Settled(p, n);
    }
    if Skipped(p, x) {
      var n: nat :| n < p.read && n !in p.taken && Of(n) == x;
      assert Settled(p, n);
      var l :| l in p.losses && l.Names(n);
      assert l.range.Contains(x);
    }
  }
}
