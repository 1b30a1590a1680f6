/** What every run of the sending half keeps: queued frames are neither lost nor duplicated,
    receipts are counted exactly, round-trip samples are unambiguous, the queue stays within its
    limits and the controller in its ranges. */
module Conservation {
  import opened Base
  import opened Sequence24
  import opened Wire
  import opened Frames
  import opened Datagrams
  import opened Congestion
  import Pacing
  import opened Outboxes
  import opened Flights
  import opened Send

  /** Which queued frames each tracked datagram was built from. */
  type Loads = map<Seq24, seq<Queued>>

  // ----- frames in flight -----

  /** All queued frames that tracked datagrams carry, with their multiplicities. */
  ghost function InFlight(load: Loads): multiset<Queued>
    decreases |load|
  {
    if |load| == 0 then multiset{}
    else
      var k :| k in load;
      assert (load - {k}).Keys == load.Keys - {k};
      multiset(load[k]) + InFlight(load - {k})
  }

  lemma InFlightPick(load: Loads) returns (j: Seq24)
    requires |load| != 0
    ensures j in load && InFlight(load) == multiset(load[j]) + InFlight(load - {j})
  {
    j :| j in load && InFlight(load) == multiset(load[j]) + InFlight(load - {j});
  }

  lemma SumSwap(a: multiset<Queued>, b: multiset<Queued>, c: multiset<Queued>)
    ensures a + (b + c) == b + (a + c)
  {
  }

  lemma DropTwo(load: Loads, j: Seq24, k: Seq24)
    requires j in load && k in load && j != k
    ensures |load - {j}| < |load| && |load - {k}| < |load|
    ensures k in load - {j} && (load - {j})[k] == load[k] && j in load - {k} && (load - {k})[j] == load[j]
    ensures load - {j} - {k} == load - {k} - {j}
  {
    assert (load - {j}).Keys == load.Keys - {j} && (load - {k}).Keys == load.Keys - {k};
  }

  lemma {:induction false} InFlightTake(load: Loads, k: Seq24)
    requires k in load
    ensures InFlight(load) == multiset(load[k]) + InFlight(load - {k})
    decreases |load|
  {
    var j := InFlightPick(load);
    if j != k {
      DropTwo(load, j, k);
      InFlightTake(load - {j}, k);
      InFlightTake(load - {k}, j);
      SumSwap(multiset(load[j]), multiset(load[k]), InFlight(load - {j} - {k}));
    }
  }

  ghost function Restrict(load: Loads, keys: set<Seq24>): Loads { map k <- load | k in keys :: load[k] }

  lemma SplitMaps(load: Loads, keys: set<Seq24>, k: Seq24)
    requires k in keys && keys <= load.Keys
    ensures (load - {k}) - (keys - {k}) == load - keys
    ensures Restrict(load, keys) - {k} == Restrict(load - {k}, keys - {k})
    ensures k in Restrict(load, keys) && Restrict(load, keys)[k] == load[k]
    ensures keys - {k} <= (load - {k}).Keys
  {
  }

  /** Splitting the table by keys splits the frames in flight. */
  lemma {:induction false} InFlightSplit(load: Loads, keys: set<Seq24>)
    requires keys <= load.Keys
    ensures InFlight(load) == InFlight(load - keys) + InFlight(Restrict(load, keys))
    decreases |keys|
  {
    if keys == {} {
      assert load - keys == load && Restrict(load, keys) == map[];
    } else {
      var k :| k in keys;
      SplitMaps(load, keys, k);
      InFlightSplit(load - {k}, keys - {k});
      InFlightTake(load, k);
      InFlightTake(Restrict(load, keys), k);
      SumSwap(multiset(load[k]), InFlight(load - keys), InFlight(Restrict(load - {k}, keys - {k})));
    }
  }

  lemma PutDrop(load: Loads, k: Seq24, picked: seq<Queued>)
    ensures load[k := picked] - {k} == load - {k}
    ensures k !in load ==> load - {k} == load
  {
  }

  lemma InFlightPut(load: Loads, k: Seq24, picked: seq<Queued>)
    ensures InFlight(load[k := picked]) == multiset(picked) + InFlight(load - {k})
  {
    PutDrop(load, k, picked);
    InFlightTake(load[k := picked], k);
  }

  lemma InFlightDrop(load: Loads, k: Seq24)
    ensures InFlight(load) == (if k in load then multiset(load[k]) else multiset{}) + InFlight(load - {k})
  {
    if k in load { InFlightTake(load, k); } else { PutDrop(load, k, []); }
  }

  // ----- the machine with its history -----

  /** The sending half and its history: the frames ever queued, those acknowledged, those sent
      in datagrams that are not tracked, what each tracked datagram carries, and when it was
      transmitted. */
  datatype Ledger = Ledger(
    tx: Tx,
    accepted: multiset<Queued>,
    acked: multiset<Queued>,
    untracked: multiset<Queued>,
    load: Loads,
    times: map<Seq24, seq<Instant>>)

  predicate Tracks(picked: seq<Queued>) { HasReliable(picked) || ReceiptIds(picked) != [] }

  ghost function LedgerStep(l: Ledger, cfg: TxConfig, e: Event): Ledger {
    var tx := Step(l.tx, cfg, e);
    match e
    case Queue(_, _, _, _, _) => l.(tx := tx, accepted := l.accepted + (tx.outbox.heap - l.tx.outbox.heap))
    case Emit(picked, _, now) =>
      if Tracks(picked)
      then l.(tx := tx, load := l.load[l.tx.numbers.write := picked], times := l.times[l.tx.numbers.write := [now]])
      else l.(tx := tx, untracked := l.untracked + multiset(picked))
    case Again(selected, _, _, now) =>
      l.(tx := tx, times := map s <- l.times :: if s in selected then l.times[s] + [now] else l.times[s])
    case Receipts(_) =>
      var gone := l.load.Keys - tx.flight.sent.Keys;
      l.(tx := tx, acked := l.acked + InFlight(Restrict(l.load, gone)), load := l.load - gone,
         times := l.times - gone)
    case _ => l.(tx := tx)
  }

  /** Every frame ever queued waits in the heap, is carried by a tracked datagram, has been
      acknowledged, or went out untracked. */
  ghost predicate Conserved(l: Ledger) {
    l.accepted == l.tx.outbox.heap + InFlight(l.load) + l.acked + l.untracked
  }

  /** A tracked datagram has the frames and receipts it was built from, and one transmission
      time per send, the last of which is on record. */
  ghost predicate EntryDescribed(t: Tracked, k: Seq24, picked: seq<Queued>, times: seq<Instant>) {
    && t.datagram.sequence == k && t.datagram.payload == FramesPayload(FramesOf(picked))
    && t.receiptIds == ReceiptIds(picked)
    && |times| == t.retries + 1 && times[|times| - 1] == t.sendTime
  }

  /** The history describes the table. */
  ghost predicate Described(l: Ledger) { DescribedBy(l.tx.flight.sent, l.load, l.times) }

  ghost predicate DescribedBy(sent: map<Seq24, Tracked>, load: Loads, times: map<Seq24, seq<Instant>>) {
    && load.Keys == sent.Keys == times.Keys
    && forall k <- load :: EntryDescribed(sent[k], k, load[k], times[k])
  }

  lemma DescribedPut(sent: map<Seq24, Tracked>, load: Loads, times: map<Seq24, seq<Instant>>,
                     k: Seq24, t: Tracked, picked: seq<Queued>, ts: seq<Instant>)
    requires DescribedBy(sent, load, times) && EntryDescribed(t, k, picked, ts)
    ensures DescribedBy(sent[k := t], load[k := picked], times[k := ts])
  {
  }

  /** Only unreliable frames without a receipt go untracked. */
  ghost predicate UntrackedOk(l: Ledger) {
    forall q <- l.untracked :: !q.isReliable && q.receipt.None?
  }

  /** Tracked numbers lie less than half a lap behind the next one to be written. */
  ghost predicate Windowed(tx: Tx) {
    forall k <- tx.flight.sent :: 0 < DistanceTo(k, tx.numbers.write) < HALF
  }

  // ----- what is accepted -----

  /** The queue entry of a frame. */
  function EntryFor(o: Outbox, f: Frame, priority: Priority, receipt: Option<nat>): Queued {
    Queued(NextWeight(o.weights, o.heap == multiset{}, priority.Level()).1, FrameSize(f), f.header.reliability.IsReliable(),
           priority, receipt, f)
  }

  /** The queue entries of frames queued one after the other. */
  function Entries(o: Outbox, frames: seq<Frame>, priority: Priority, receipt: Option<nat>): (es: seq<Queued>)
    ensures |es| == |frames| && forall i | 0 <= i < |es| :: es[i].frame == frames[i]
  {
    if frames == [] then []
    else
      var init := frames[..|frames| - 1];
      Entries(o, init, priority, receipt) + [EntryFor(PushFrames(o, init, priority, receipt), frames[|frames| - 1], priority, receipt)]
  }

  /** What a payload adds to the queue if back-pressure lets it in: an entry for each frame built
      for it. */
  function Accepted(tx: Tx, cfg: TxConfig, e: Event): seq<Queued>
    requires e.Queue?
  {
    if Decide(cfg.queue, tx.outbox, EstimateImpact(tx.mtu, |e.payload|, e.reliability), e.priority).Allow?
    then Entries(tx.outbox, FramesFor(tx.numbers, tx.mtu, e.payload, e.reliability, e.channel).frames, e.priority, e.receipt)
    else []
  }

  lemma PushFrameHeap(o: Outbox, f: Frame, priority: Priority, receipt: Option<nat>)
    ensures PushFrame(o, f, priority, receipt).heap == o.heap + multiset{EntryFor(o, f, priority, receipt)}
  {
  }

  lemma OneMore(heap: multiset<Queued>, init: seq<Queued>, q: Queued)
    ensures heap + multiset(init) + multiset{q} == heap + multiset(init + [q])
  {
    assert multiset(init + [q]) == multiset(init) + multiset{q};
  }

  /** Queueing frames adds to the heap exactly one entry for each. */
  lemma {:induction false} EntriesPushed(o: Outbox, frames: seq<Frame>, priority: Priority, receipt: Option<nat>)
    ensures PushFrames(o, frames, priority, receipt).heap == o.heap + multiset(Entries(o, frames, priority, receipt))
  {
    if frames == [] {
      assert o.heap + multiset([]) == o.heap;
    } else {
      var init, f := frames[..|frames| - 1], frames[|frames| - 1];
      EntriesPushed(o, init, priority, receipt);
      var before := PushFrames(o, init, priority, receipt);
      PushFrameHeap(before, f, priority, receipt);
      OneMore(o.heap, Entries(o, init, priority, receipt), EntryFor(before, f, priority, receipt));
    }
  }

  /** Queueing a payload adds to the heap exactly the frames built for it, one entry each, and
      nothing if it is not let in. */
  lemma QueueGain(tx: Tx, cfg: TxConfig, e: Event)
    requires e.Queue?
    ensures Step(tx, cfg, e).outbox.heap == tx.outbox.heap + multiset(Accepted(tx, cfg, e))
    ensures var added, frames := Accepted(tx, cfg, e), FramesFor(tx.numbers, tx.mtu, e.payload, e.reliability, e.channel).frames;
            added == [] || (|added| == |frames| && forall i | 0 <= i < |added| :: added[i].frame == frames[i])
  {
    if Decide(cfg.queue, tx.outbox, EstimateImpact(tx.mtu, |e.payload|, e.reliability), e.priority).Allow? {
      var built := FramesFor(tx.numbers, tx.mtu, e.payload, e.reliability, e.channel);
      QueueAdmitted(tx, cfg, e.payload, e.reliability, e.channel, e.priority, e.receipt, built);
      EntriesPushed(tx.outbox, built.frames, e.priority, e.receipt);
    }
  }

  /** So what the history takes as accepted is that payload's frames and nothing else. */
  lemma AcceptedGrows(l: Ledger, cfg: TxConfig, e: Event)
    requires e.Queue?
    ensures LedgerStep(l, cfg, e).accepted == l.accepted + multiset(Accepted(l.tx, cfg, e))
  {
    QueueGain(l.tx, cfg, e);
    Removed(l.tx.outbox.heap, multiset(Accepted(l.tx, cfg, e)));
  }

  lemma Removed(a: multiset<Queued>, b: multiset<Queued>)
    ensures a + b - a == b
  {
  }

  // ----- what the steps do to the table -----

  /** An entry's contents and send record are the same in two tables. */
  ghost predicate SameEntry(a: Tracked, b: Tracked) {
    a.datagram == b.datagram && a.receiptIds == b.receiptIds && a.retries == b.retries && a.sendTime == b.sendTime
  }

  lemma {:induction false} AckFlow(tx: Tx, cfg: TxConfig, numbers: seq<Seq24>, now: Instant)
    ensures var after := AckNumbers(tx, cfg, numbers, now).0;
            && after == tx.(flight := after.flight, cc := after.cc)
            && (forall k <- after.flight.sent :: k in tx.flight.sent && after.flight.sent[k] == tx.flight.sent[k])
            && (ReceiptsExact(tx.flight) ==> ReceiptsExact(after.flight))
            && (InRange(tx.cc, cfg.cc) ==> InRange(after.cc, cfg.cc))
  {
    if numbers != [] {
      var init, s := numbers[..|numbers| - 1], numbers[|numbers| - 1];
      AckFlow(tx, cfg, init, now);
      var before := AckNumbers(tx, cfg, init, now).0;
      if InRange(before.cc, cfg.cc) { StepInRange(before.cc, cfg.cc, Acked(SampleOf(before, s, now))); }
      if ReceiptsExact(before.flight) { AcknowledgeReports(before.flight, s, 0); }
    }
  }

  lemma {:induction false} NackFlow(tx: Tx, numbers: seq<Seq24>, now: Instant)
    ensures var after := NackNumbers(tx, numbers, now).0;
            && after == tx.(flight := after.flight) && after.flight.sent.Keys == tx.flight.sent.Keys
            && (forall k <- after.flight.sent :: SameEntry(after.flight.sent[k], tx.flight.sent[k]))
            && (ReceiptsExact(tx.flight) ==> ReceiptsExact(after.flight))
  {
    if numbers != [] {
      var init, s := numbers[..|numbers| - 1], numbers[|numbers| - 1];
      NackFlow(tx, init, now);
      var before := NackNumbers(tx, init, now).0;
      if ScheduleResend(before.flight, s, now).1 && ReceiptsExact(before.flight) {
        TouchKeepsReceipts(before.flight, s, before.flight.sent[s].(nextSend := now, nackPending := true));
      }
    }
  }

  lemma ProcessFlow(tx: Tx, cfg: TxConfig, now: Instant)
    ensures var after := Process(tx, cfg, now).0;
            && after.outbox == tx.outbox && after.numbers == tx.numbers && after.mtu == tx.mtu && after.pace == tx.pace
            && (forall k <- after.flight.sent :: k in tx.flight.sent && SameEntry(after.flight.sent[k], tx.flight.sent[k]))
            && (ReceiptsExact(tx.flight) ==> ReceiptsExact(after.flight))
            && (InRange(tx.cc, cfg.cc) ==> InRange(after.cc, cfg.cc))
  {
    var tx0 := tx.(incomingAcks := []);
    AckFlow(tx0, cfg, WalkAll(tx.incomingAcks), now);
    var tx1 := AckNumbers(tx0, cfg, WalkAll(tx.incomingAcks), now).0.(incomingNacks := []);
    NackFlow(tx1, WalkAll(tx.incomingNacks), now);
    var tx2 := NackNumbers(tx1, WalkAll(tx.incomingNacks), now).0;
    if InRange(tx2.cc, cfg.cc) { StepInRange(tx2.cc, cfg.cc, Nacked(now)); }
  }

  /** The selected datagrams were sent once more, the others are as they were. */
  ghost predicate Marked(fl: Flight, after: Flight, selected: seq<Seq24>, now: Instant) {
    && after.sent.Keys == fl.sent.Keys
    && (forall k <- after.sent :: after.sent[k].datagram == fl.sent[k].datagram && after.sent[k].receiptIds == fl.sent[k].receiptIds)
    && (forall k <- after.sent :: k !in selected ==> SameEntry(after.sent[k], fl.sent[k]))
    && (forall k <- after.sent :: k in selected ==> after.sent[k].retries == fl.sent[k].retries + 1 && after.sent[k].sendTime == now)
  }

  lemma MarkedMore(fl: Flight, before: Flight, selected: seq<Seq24>, s: Seq24, now: Instant, rto: real)
    requires Marked(fl, before, selected, now) && s in fl.sent && s !in selected
    ensures Marked(fl, Resent(before, s, now, rto), selected + [s], now)
  {
  }

  lemma ResentKeepsReceipts(fl: Flight, s: Seq24, now: Instant, rto: real)
    requires ReceiptsExact(fl)
    ensures ReceiptsExact(Resent(fl, s, now, rto))
  {
    if s in fl.sent { TouchKeepsReceipts(fl, s, Resent(fl, s, now, rto).sent[s]); }
  }

  lemma {:induction false} ResentFlow(fl: Flight, selected: seq<Seq24>, now: Instant, rto: real)
    requires forall s <- selected :: s in fl.sent
    requires forall i, j | 0 <= i < j < |selected| :: selected[i] != selected[j]
    ensures Marked(fl, ResentAll(fl, selected, now, rto), selected, now)
    ensures ReceiptsExact(fl) ==> ReceiptsExact(ResentAll(fl, selected, now, rto))
  {
    if selected != [] {
      var n := |selected| - 1;
      var init, s := selected[..n], selected[n];
      assert selected == init + [s];
      assert s in selected;
      forall x <- init ensures x in fl.sent { assert x in selected; }
      ResentFlow(fl, init, now, rto);
      var before := ResentAll(fl, init, now, rto);
      MarkedMore(fl, before, init, s, now, rto);
      if ReceiptsExact(before) { ResentKeepsReceipts(before, s, now, rto); }
    }
  }

  lemma {:induction false} PushFramesGrow(o: Outbox, frames: seq<Frame>, priority: Priority, receipt: Option<nat>)
    ensures o.heap <= PushFrames(o, frames, priority, receipt).heap
  {
    if frames != [] { PushFramesGrow(o, frames[..|frames| - 1], priority, receipt); }
  }

  lemma QueueFlow(tx: Tx, cfg: TxConfig, e: Event)
    requires TxOk(tx) && e.Queue?
    ensures var after := Step(tx, cfg, e);
            && TxOk(after) && tx.outbox.heap <= after.outbox.heap
            && after.flight == tx.flight && after.cc == tx.cc && after.mtu == tx.mtu && after.pace == tx.pace
            && after.incomingAcks == tx.incomingAcks && after.incomingNacks == tx.incomingNacks
            && after.numbers.write == tx.numbers.write
            && (WithinSoft(cfg.queue, tx.outbox) ==> WithinSoft(cfg.queue, after.outbox))
  {
    if Decide(cfg.queue, tx.outbox, EstimateImpact(tx.mtu, |e.payload|, e.reliability), e.priority).Allow? {
      var frames := FramesFor(tx.numbers, tx.mtu, e.payload, e.reliability, e.channel).frames;
      PushFramesGrow(tx.outbox, frames, e.priority, e.receipt);
      AllowedStaysWithin(cfg.queue, tx.outbox, tx.numbers, tx.mtu, e.payload, e.reliability, e.channel, e.priority, e.receipt);
    }
  }

  lemma EmitKeepsOk(tx: Tx, picked: seq<Queued>, budget: nat, now: Instant)
    requires TxOk(tx) && Picks(tx, picked, budget)
    ensures TxOk(Build(tx, picked, now))
  {
    TakePickedOk(tx.outbox, picked);
  }

  lemma StepKeepsOk(tx: Tx, cfg: TxConfig, e: Event)
    requires TxOk(tx) && Enabled(tx, e)
    ensures TxOk(Step(tx, cfg, e))
  {
    match e {
      case Queue(_, _, _, _, _) => QueueFlow(tx, cfg, e);
      case Emit(picked, budget, now) => EmitKeepsOk(tx, picked, budget, now);
      case Receipts(now) => ProcessFlow(tx, cfg, now);
      case _ =>
    }
  }

  // ----- conservation, step by step -----

  /** What a tracked datagram displaces: the frames of one already tracked under its number. */
  ghost function Displaced(l: Ledger, picked: seq<Queued>): multiset<Queued> {
    var s := l.tx.numbers.write;
    if Tracks(picked) && s in l.load then multiset(l.load[s]) else multiset{}
  }

  /** Acceptance, acknowledgement, retransmission and timeouts conserve frames. Building a
      datagram does so if and only if its number carries no tracked frames already. */
  lemma StepConserves(l: Ledger, cfg: TxConfig, e: Event)
    requires TxOk(l.tx) && Enabled(l.tx, e) && Conserved(l)
    ensures Conserved(LedgerStep(l, cfg, e)) <==> (e.Emit? ==> Displaced(l, e.picked) == multiset{})
  {
    match e {
      case Queue(_, _, _, _, _) => QueueConserves(l, cfg, e);
      case Emit(_, _, _) => EmitConserves(l, cfg, e);
      case Receipts(_) => ReceiptsConserve(l, cfg, e);
      case _ =>
    }
  }

  /** A sending half with one frame waiting and one in a datagram tracked under the next number. */
  ghost function Reusing(waiting: Outbox, p: Queued, now: Instant): Ledger {
    var d := Datagram(FLAGS_HAS_B_AND_AS, 0, FramesPayload([p.frame]));
    var tx := Tx(576, Numbers(0, 2, 0, [], []), waiting, Flight(map[0 := Tracked(d, now, now + 500.0, 0, false, true, [])], map[]),
                 [], [], Cc(None, 0.0, 500.0, 4.0, 4.0, now), Pacing.Pace(0.0, 1.0, now), false);
    Ledger(tx, waiting.heap + multiset{p}, multiset{}, multiset{}, map[0 := [p]], map[0 := [now]])
  }

  lemma ReusingOk(waiting: Outbox, p: Queued, now: Instant)
    requires OutboxOk(waiting) && p.receipt.None?
    ensures var l := Reusing(waiting, p, now); TxOk(l.tx) && Conserved(l) && Described(l)
  {
    var l := Reusing(waiting, p, now);
    InFlightTake(l.load, 0);
    assert l.load - {0} == map[];
    assert multiset([p]) == multiset{p};
    OnlyOne(p);
  }

  lemma OnlyOne(q: Queued)
    ensures FramesOf([q]) == [q.frame] && Sizes([q]) == q.encodedSize
    ensures q.receipt.None? ==> ReceiptIds([q]) == []
    ensures q.isReliable ==> Tracks([q])
  {
    assert [q][..0] == [] && q in [q];
  }

  lemma ReusingEmits(waiting: Outbox, p: Queued, q: Queued, now: Instant)
    requires waiting.heap == multiset{q} && q.isReliable && HEADER_SIZE + q.encodedSize <= 576
    ensures var l := Reusing(waiting, p, now); Enabled(l.tx, Emit([q], 1000, now)) && Displaced(l, [q]) == multiset{p}
  {
    OnlyOne(q);
    assert multiset([q]) == multiset{q} && multiset([p]) == multiset{p};
  }

  /** A sending half whose next number is still tracked: the datagram it builds next displaces the
      old entry and its frame. */
  lemma ReuseLosesFrames(cfg: TxConfig, now: Instant) returns (l: Ledger, e: Event)
    ensures TxOk(l.tx) && Conserved(l) && Described(l) && e.Emit? && Enabled(l.tx, e)
    ensures Displaced(l, e.picked) != multiset{} && !Conserved(LedgerStep(l, cfg, e))
  {
    var waiting, q := OneWaiting();
    var p := Queued(0, 7, true, Normal, None, SingleFrame(Reliable, 0, None, None, 0, [1]));
    l, e := Reusing(waiting, p, now), Emit([q], 1000, now);
    ReusingOk(waiting, p, now);
    ReusingEmits(waiting, p, q, now);
    ReusingDisplaces(waiting, p, cfg, e, now);
  }

  lemma ReusingDisplaces(waiting: Outbox, p: Queued, cfg: TxConfig, e: Event, now: Instant)
    requires var l := Reusing(waiting, p, now);
             TxOk(l.tx) && Conserved(l) && e.Emit? && Enabled(l.tx, e) && Displaced(l, e.picked) == multiset{p}
    ensures !Conserved(LedgerStep(Reusing(waiting, p, now), cfg, e))
  {
    assert p in multiset{p};
    StepConserves(Reusing(waiting, p, now), cfg, e);
  }

  lemma OneWaiting() returns (o: Outbox, q: Queued)
    ensures OutboxOk(o) && o.heap == multiset{q} && q.isReliable && HEADER_SIZE + q.encodedSize <= 576
  {
    var f := SingleFrame(Reliable, 1, None, None, 0, [2]);
    var empty := Outbox(multiset{}, Weights(BASE_WEIGHTS, 0), 0);
    o := PushFrame(empty, f, Normal, None);
    PushFrameOk(empty, f, Normal, None);
    q := Queued(NextWeight(empty.weights, true, Normal.Level()).1, FrameSize(f), true, Normal, None, f);
    assert o.heap == multiset{q};
  }

  lemma QueueConserves(l: Ledger, cfg: TxConfig, e: Event)
    requires TxOk(l.tx) && e.Queue? && Conserved(l)
    ensures Conserved(LedgerStep(l, cfg, e))
  {
    QueueFlow(l.tx, cfg, e);
    Regrown(l.tx.outbox.heap, Step(l.tx, cfg, e).outbox.heap, InFlight(l.load), l.acked, l.untracked);
  }

  lemma Regrown(small: multiset<Queued>, large: multiset<Queued>, a: multiset<Queued>, b: multiset<Queued>, c: multiset<Queued>)
    requires small <= large
    ensures small + a + b + c + (large - small) == large + a + b + c
  {
  }

  lemma EmitConserves(l: Ledger, cfg: TxConfig, e: Event)
    requires TxOk(l.tx) && e.Emit? && Enabled(l.tx, e) && Conserved(l)
    ensures Conserved(LedgerStep(l, cfg, e)) <==> Displaced(l, e.picked) == multiset{}
  {
    EmitKeepsOk(l.tx, e.picked, e.budget, e.now);
    var s, heap, picked := l.tx.numbers.write, l.tx.outbox.heap, multiset(e.picked);
    if Tracks(e.picked) {
      InFlightPut(l.load, s, e.picked);
      InFlightDrop(l.load, s);
      Moved(heap, picked, InFlight(l.load - {s}), Displaced(l, e.picked), l.acked, l.untracked);
    } else {
      Shipped(heap, picked, InFlight(l.load), l.acked, l.untracked);
    }
  }

  lemma Moved(heap: multiset<Queued>, picked: multiset<Queued>, rest: multiset<Queued>, lost: multiset<Queued>,
              acked: multiset<Queued>, untracked: multiset<Queued>)
    requires picked <= heap
    ensures heap + (lost + rest) + acked + untracked == (heap - picked) + (picked + rest) + acked + untracked
            <==> lost == multiset{}
  {
    var before := heap + (lost + rest) + acked + untracked;
    var after := (heap - picked) + (picked + rest) + acked + untracked;
    assert (heap - picked) + picked == heap;
    assert before == after + lost;
    assert |before| == |after| + |lost|;
  }

  lemma Shipped(heap: multiset<Queued>, picked: multiset<Queued>, flight: multiset<Queued>, acked: multiset<Queued>,
                untracked: multiset<Queued>)
    requires picked <= heap
    ensures heap + flight + acked + untracked == (heap - picked) + flight + acked + (untracked + picked)
  {
    assert (heap - picked) + picked == heap;
  }

  lemma ReceiptsConserve(l: Ledger, cfg: TxConfig, e: Event)
    requires e.Receipts? && TxOk(l.tx) && Conserved(l)
    ensures Conserved(LedgerStep(l, cfg, e))
  {
    ProcessFlow(l.tx, cfg, e.now);
    var gone := l.load.Keys - Step(l.tx, cfg, e).flight.sent.Keys;
    InFlightSplit(l.load, gone);
    Regrouped(l.tx.outbox.heap, InFlight(l.load - gone), InFlight(Restrict(l.load, gone)), l.acked, l.untracked);
  }

  lemma Regrouped(a: multiset<Queued>, b: multiset<Queued>, c: multiset<Queued>, d: multiset<Queued>, e: multiset<Queued>)
    ensures a + (b + c) + d + e == a + b + (d + c) + e
  {
  }

  // ----- the rest of the invariant, step by step -----

  lemma EmitTable(tx: Tx, picked: seq<Queued>, now: Instant)
    ensures var after := Build(tx, picked, now).flight.sent;
            if Tracks(picked) then
              && after == tx.flight.sent[tx.numbers.write := after[tx.numbers.write]]
              && EntryDescribed(after[tx.numbers.write], tx.numbers.write, picked, [now])
            else after == tx.flight.sent
  {
  }

  lemma EmitDescribes(l: Ledger, cfg: TxConfig, e: Event)
    requires TxOk(l.tx) && e.Emit? && Enabled(l.tx, e) && Described(l)
    ensures Described(LedgerStep(l, cfg, e))
  {
    EmitTable(l.tx, e.picked, e.now);
    var k := l.tx.numbers.write;
    if Tracks(e.picked) {
      var after := Build(l.tx, e.picked, e.now).flight.sent;
      DescribedPut(l.tx.flight.sent, l.load, l.times, k, after[k], e.picked, [e.now]);
    }
  }

  lemma AgainTable(tx: Tx, cfg: TxConfig, selected: seq<Seq24>, now: Instant)
    requires forall s <- selected :: s in tx.flight.sent
    requires forall i, j | 0 <= i < j < |selected| :: selected[i] != selected[j]
    ensures var after := Resend(tx, cfg, selected, now).flight;
            && after.sent.Keys == tx.flight.sent.Keys && (ReceiptsExact(tx.flight) ==> ReceiptsExact(after))
            && forall k <- after.sent, picked, times: seq<Instant> :: EntryDescribed(tx.flight.sent[k], k, picked, times)
                 ==> EntryDescribed(after.sent[k], k, picked, if k in selected then times + [now] else times)
  {
    if selected != [] { ResentFlow(tx.flight, selected, now, Resend(tx, cfg, selected, now).cc.rto); }
  }

  lemma AgainDescribes(l: Ledger, cfg: TxConfig, e: Event)
    requires TxOk(l.tx) && e.Again? && Enabled(l.tx, e) && Described(l)
    ensures Described(LedgerStep(l, cfg, e))
  {
    AgainTable(l.tx, cfg, e.selected, e.now);
  }

  /** Entries that are left describe what is left of the history. */
  lemma LeftDescribed(sent: map<Seq24, Tracked>, load: Loads, times: map<Seq24, seq<Instant>>, left: map<Seq24, Tracked>)
    requires DescribedBy(sent, load, times)
    requires forall k <- left :: k in sent && SameEntry(left[k], sent[k])
    ensures DescribedBy(left, load - (load.Keys - left.Keys), times - (load.Keys - left.Keys))
  {
    forall k <- left ensures EntryDescribed(left[k], k, load[k], times[k]) {
      assert EntryDescribed(sent[k], k, load[k], times[k]);
    }
  }

  lemma ReceiptsDescribe(l: Ledger, cfg: TxConfig, e: Event)
    requires TxOk(l.tx) && e.Receipts? && Described(l)
    ensures Described(LedgerStep(l, cfg, e))
  {
    ProcessFlow(l.tx, cfg, e.now);
    LeftDescribed(l.tx.flight.sent, l.load, l.times, Process(l.tx, cfg, e.now).0.flight.sent);
  }

  lemma StepDescribes(l: Ledger, cfg: TxConfig, e: Event)
    requires TxOk(l.tx) && Enabled(l.tx, e) && Described(l)
    ensures Described(LedgerStep(l, cfg, e))
  {
    match e {
      case Queue(_, _, _, _, _) => QueueFlow(l.tx, cfg, e);
      case Emit(_, _, _) => EmitDescribes(l, cfg, e);
      case Again(_, _, _, _) => AgainDescribes(l, cfg, e);
      case Receipts(_) => ReceiptsDescribe(l, cfg, e);
      case _ =>
    }
  }

  lemma EmitKeepsReceipts(l: Ledger, cfg: TxConfig, e: Event)
    requires TxOk(l.tx) && e.Emit? && Enabled(l.tx, e)
    requires ReceiptsExact(l.tx.flight) && Unused(l.tx, e)
    ensures ReceiptsExact(Step(l.tx, cfg, e).flight)
  {
    EmitKeepsOk(l.tx, e.picked, e.budget, e.now);
    if Tracks(e.picked) {
      ReceiptIdsOnce(e.picked);
      TrackKeepsReceipts(l.tx.flight, DatagramFor(l.tx, e.picked), ReceiptIds(e.picked), e.now, l.tx.cc.rto, HasReliable(e.picked));
    }
  }

  /** Receipt counters stay exact, as long as a new datagram's number is not in use. */
  lemma StepKeepsReceipts(l: Ledger, cfg: TxConfig, e: Event)
    requires TxOk(l.tx) && Enabled(l.tx, e) && ReceiptsExact(l.tx.flight)
    requires Unused(l.tx, e)
    ensures ReceiptsExact(Step(l.tx, cfg, e).flight)
  {
    match e {
      case Queue(_, _, _, _, _) => QueueFlow(l.tx, cfg, e);
      case Emit(_, _, _) => EmitKeepsReceipts(l, cfg, e);
      case Again(selected, _, _, now) =>
        if selected != [] { ResentFlow(l.tx.flight, selected, now, Step(l.tx, cfg, e).cc.rto); }
      case Receipts(now) => ProcessFlow(l.tx, cfg, now);
      case _ =>
    }
  }

  lemma StepKeepsRanges(tx: Tx, cfg: TxConfig, e: Event)
    requires TxOk(tx) && Enabled(tx, e)
    requires InRange(tx.cc, cfg.cc) && WithinSoft(cfg.queue, tx.outbox)
    ensures InRange(Step(tx, cfg, e).cc, cfg.cc) && WithinSoft(cfg.queue, Step(tx, cfg, e).outbox)
  {
    match e {
      case Queue(_, _, _, _, _) => QueueFlow(tx, cfg, e);
      case Emit(picked, budget, now) => EmitKeepsOk(tx, picked, budget, now);
      case Again(_, _, _, now) => StepInRange(tx.cc, cfg.cc, TimedOut(now));
      case Receipts(now) => ProcessFlow(tx, cfg, now);
      case _ =>
    }
  }

  lemma Unlisted(picked: seq<Queued>, q: Queued)
    requires q in picked && ReceiptIds(picked) == []
    ensures q.receipt.None?
  {
    if q.receipt.Some? { ReceiptListed(picked, q); }
  }

  lemma StepUntracked(l: Ledger, cfg: TxConfig, e: Event)
    requires TxOk(l.tx) && Enabled(l.tx, e) && UntrackedOk(l)
    ensures UntrackedOk(LedgerStep(l, cfg, e))
  {
    if e.Emit? && !Tracks(e.picked) {
      forall q <- multiset(e.picked) ensures !q.isReliable && q.receipt.None? {
        assert q in e.picked;
        Unlisted(e.picked, q);
      }
    }
  }

  // ----- every run -----

  ghost predicate Inv(l: Ledger, cfg: TxConfig) {
    && TxOk(l.tx) && Conserved(l) && Described(l) && UntrackedOk(l)
    && ReceiptsExact(l.tx.flight)
    && InRange(l.tx.cc, cfg.cc) && WithinSoft(cfg.queue, l.tx.outbox)
  }

  /** The number of a datagram to be tracked is not in use. */
  predicate Unused(tx: Tx, e: Event) { e.Emit? && Tracks(e.picked) ==> tx.numbers.write !in tx.flight.sent }

  /** A possible step that does not reuse a tracked number. */
  ghost predicate Takes(l: Ledger, cfg: TxConfig, e: Event, after: Ledger) {
    && TxOk(l.tx) && Enabled(l.tx, e) && Unused(l.tx, e)
    && after == LedgerStep(l, cfg, e)
  }

  lemma StepInv(l: Ledger, cfg: TxConfig, e: Event, after: Ledger)
    requires Inv(l, cfg) && Takes(l, cfg, e, after)
    ensures Inv(after, cfg)
  {
    assert after.tx == Step(l.tx, cfg, e);
    StepKeepsOk(l.tx, cfg, e);
    StepUntracked(l, cfg, e);
    StepKeepsRanges(l.tx, cfg, e);
    NumberUnused(l, e);
    StepConserves(l, cfg, e);
    StepDescribes(l, cfg, e);
    StepKeepsReceipts(l, cfg, e);
  }

  lemma NumberUnused(l: Ledger, e: Event)
    requires Unused(l.tx, e) && Described(l)
    ensures e.Emit? ==> Displaced(l, e.picked) == multiset{}
  {
  }

  /** While tracked numbers lie less than half a lap behind the next one, that one is not in use. */
  lemma WindowUnused(tx: Tx, e: Event)
    requires Windowed(tx)
    ensures Unused(tx, e)
  {
  }

  /** A run: the states before, between and after its steps. */
  ghost predicate IsRun(states: seq<Ledger>, cfg: TxConfig, events: seq<Event>) {
    && |states| == |events| + 1
    && forall i: nat | i < |events| :: StepsAt(states, cfg, events, i)
  }

  ghost predicate StepsAt(states: seq<Ledger>, cfg: TxConfig, events: seq<Event>, i: nat) {
    i + 1 < |states| && i < |events| && Takes(states[i], cfg, events[i], states[i + 1])
  }

  lemma RunStep(states: seq<Ledger>, cfg: TxConfig, events: seq<Event>, i: nat)
    requires IsRun(states, cfg, events) && i < |events|
    ensures Takes(states[i], cfg, events[i], states[i + 1])
  {
    assert StepsAt(states, cfg, events, i);
  }

  /** At every moment of every run, all of it holds: frames are conserved, the history describes
      the table, receipt counters are exact, the queue is within its soft limits, and timeout
      and window are in range. */
  lemma {:induction false} RunKeepsInv(states: seq<Ledger>, cfg: TxConfig, events: seq<Event>, i: nat)
    requires IsRun(states, cfg, events) && Inv(states[0], cfg) && i < |states|
    ensures Inv(states[i], cfg)
  {
    if i > 0 {
      RunKeepsInv(states, cfg, events, i - 1);
      RunStep(states, cfg, events, i - 1);
      StepInv(states[i - 1], cfg, events[i - 1], states[i]);
    }
  }

  /** A session that has not sent anything. */
  ghost predicate FreshTx(tx: Tx, cfg: TxConfig) {
    && tx.outbox.heap == multiset{} && tx.outbox.bytes == 0
    && tx.flight == Flight(map[], map[]) && InRange(tx.cc, cfg.cc)
  }

  lemma FreshInv(tx: Tx, cfg: TxConfig)
    requires FreshTx(tx, cfg)
    ensures Inv(Ledger(tx, multiset{}, multiset{}, multiset{}, map[], map[]), cfg)
  {
    forall id: nat ensures CounterOf(map[], id) == |Listing(map[], id)| {}
  }

  // ----- reliable frames are queued once -----

  /** `count` reliable frames have been numbered, fewer than the number space holds, and each is
      on record once. */
  ghost predicate Numbered(l: Ledger, count: nat) {
    count <= MODULO && l.tx.numbers.reliable == Of(count) && OnceBelow(l.accepted, 0, count)
  }

  /** The reliable frames among the items have numbers in `[lo, hi)` and occur once each. */
  ghost predicate OnceBelow(items: multiset<Queued>, lo: nat, hi: nat) {
    forall q <- items :: q.isReliable ==>
      q.frame.reliableIndex.Some? && lo <= q.frame.reliableIndex.value < hi && items[q] == 1
  }

  /** The frames carry consecutive reliable numbers from `base`. */
  ghost predicate NumberedFrom(frames: seq<Frame>, base: nat) {
    forall i | 0 <= i < |frames| :: frames[i].header.reliability.IsReliable() && frames[i].reliableIndex == Some(base + i)
  }

  lemma {:induction false} PartsNumbered(rel: Reliability, base: nat, sequence: Option<Seq24>, ordering: Option<Seq24>,
                      channel: u8, id: u16, count: nat, done: nat, parts: seq<Bytes>)
    requires rel.IsReliable() && base + |parts| <= MODULO
    ensures NumberedFrom(PartFrames(rel, Of(base), sequence, ordering, channel, id, count, done, parts), base)
    ensures Skip(Of(base), |parts|) == Of(base + |parts|)
    decreases |parts|
  {
    if parts != [] {
      NextOf(base);
      PartsNumbered(rel, base + 1, sequence, ordering, channel, id, count, done + 1, parts[1..]);
      var fs := PartFrames(rel, Of(base), sequence, ordering, channel, id, count, done, parts);
      var rest := PartFrames(rel, Of(base + 1), sequence, ordering, channel, id, count, done + 1, parts[1..]);
      forall i | 0 <= i < |fs| ensures fs[i].header.reliability.IsReliable() && fs[i].reliableIndex == Some(base + i) {
        if i > 0 { assert fs[i] == rest[i - 1]; }
      }
    }
  }

  lemma FramesNumbered(n: Numbers, mtu: nat, payload: Bytes, rel: Reliability, channel: u8, count: nat)
    requires n.reliable == Of(count)
    requires count + |FramesFor(n, mtu, payload, rel, channel).frames| <= MODULO
    ensures var built := FramesFor(n, mtu, payload, rel, channel);
            if FitsSingle(mtu, |payload|, rel) && !rel.IsReliable() then
              built.numbers.reliable == Of(count) && |built.frames| == 1 && !built.frames[0].header.reliability.IsReliable()
            else
              built.numbers.reliable == Of(count + |built.frames|) && NumberedFrom(built.frames, count)
  {
    if FitsSingle(mtu, |payload|, rel) {
      NextOf(count);
    } else {
      var r := NormalizeForSplit(rel);
      var parts := Chunks(payload, MaxPayload(mtu, r, true));
      var n1 := NumberOrdering(n.(split := (n.split + 1) % 0x1_0000), r, channel);
      var n2 := NumberSequence(n1.0, r, channel);
      PartsNumbered(r, count, n2.1, n1.1, channel, n.split, |parts|, 0, parts);
    }
  }

  /** Each pushed frame becomes one new queue entry with that frame. */
  lemma {:induction false} PushedEntries(o: Outbox, frames: seq<Frame>, priority: Priority, receipt: Option<nat>, base: nat)
    requires NumberedFrom(frames, base)
    ensures var added := PushFrames(o, frames, priority, receipt).heap - o.heap;
            && o.heap <= PushFrames(o, frames, priority, receipt).heap
            && (forall q <- added :: q.isReliable && added[q] == 1)
            && (forall q <- added :: q.frame.reliableIndex.Some? && base <= q.frame.reliableIndex.value < base + |frames|)
  {
    if frames != [] {
      var n := |frames| - 1;
      PushedEntries(o, frames[..n], priority, receipt, base);
      var before := PushFrames(o, frames[..n], priority, receipt);
      var f := frames[n];
      var q := Queued(NextWeight(before.weights, before.heap == multiset{}, priority.Level()).1, FrameSize(f),
                      f.header.reliability.IsReliable(), priority, receipt, f);
      assert PushFrames(o, frames, priority, receipt).heap == before.heap + multiset{q};
      AddedOne(o.heap, before.heap, q);
    }
  }

  lemma AddedOne(small: multiset<Queued>, large: multiset<Queued>, q: Queued)
    requires small <= large
    ensures large + multiset{q} - small == (large - small) + multiset{q}
  {
  }

  lemma {:induction false} PushedUnreliable(o: Outbox, f: Frame, priority: Priority, receipt: Option<nat>)
    requires !f.header.reliability.IsReliable()
    ensures forall q <- PushFrames(o, [f], priority, receipt).heap - o.heap :: !q.isReliable
  {
    assert [f][..0] == [];
    var q := Queued(NextWeight(o.weights, o.heap == multiset{}, priority.Level()).1, FrameSize(f), false, priority, receipt, f);
    assert PushFrames(o, [f], priority, receipt).heap == o.heap + multiset{q};
    assert o.heap + multiset{q} - o.heap == multiset{q};
  }

  /** How many reliable frames a step numbers. */
  ghost function NewlyNumbered(tx: Tx, cfg: TxConfig, e: Event): nat {
    if e.Queue? && Decide(cfg.queue, tx.outbox, EstimateImpact(tx.mtu, |e.payload|, e.reliability), e.priority).Allow?
       && !(FitsSingle(tx.mtu, |e.payload|, e.reliability) && !e.reliability.IsReliable())
    then |FramesFor(tx.numbers, tx.mtu, e.payload, e.reliability, e.channel).frames| else 0
  }

  lemma SameNumbered(l: Ledger, after: Ledger, count: nat)
    requires Numbered(l, count) && after.accepted == l.accepted && after.tx.numbers.reliable == l.tx.numbers.reliable
    ensures Numbered(after, count)
  {
  }

  /** As long as fewer than 2^24 reliable frames are queued, no two of them are alike. */
  lemma StepNumbered(l: Ledger, cfg: TxConfig, e: Event, count: nat, next: nat, after: Ledger)
    requires Numbered(l, count) && next == count + NewlyNumbered(l.tx, cfg, e) && next < MODULO && after == LedgerStep(l, cfg, e)
    ensures Numbered(after, next)
  {
    if e.Queue? { QueueNumbered(l, cfg, e, count); } else { OtherNumbered(l, cfg, e, count); }
  }

  lemma OtherNumbered(l: Ledger, cfg: TxConfig, e: Event, count: nat)
    requires !e.Queue? && Numbered(l, count)
    ensures Numbered(LedgerStep(l, cfg, e), count) && NewlyNumbered(l.tx, cfg, e) == 0
  {
    NothingNumbered(l, cfg, e);
    SameNumbered(l, LedgerStep(l, cfg, e), count);
  }

  lemma NothingNumbered(l: Ledger, cfg: TxConfig, e: Event)
    requires !e.Queue?
    ensures LedgerStep(l, cfg, e).accepted == l.accepted && LedgerStep(l, cfg, e).tx.numbers.reliable == l.tx.numbers.reliable
    ensures NewlyNumbered(l.tx, cfg, e) == 0
  {
    if e.Receipts? { ProcessFlow(l.tx, cfg, e.now); }
  }

  lemma FramesAdd(tx: Tx, e: Event, count: nat)
    requires e.Queue? && tx.numbers.reliable == Of(count)
    requires count + |FramesFor(tx.numbers, tx.mtu, e.payload, e.reliability, e.channel).frames| <= MODULO
    ensures var built := FramesFor(tx.numbers, tx.mtu, e.payload, e.reliability, e.channel);
            var added := PushFrames(tx.outbox, built.frames, e.priority, e.receipt).heap - tx.outbox.heap;
            var n := if FitsSingle(tx.mtu, |e.payload|, e.reliability) && !e.reliability.IsReliable() then 0 else |built.frames|;
            OnceBelow(added, count, count + n) && built.numbers.reliable == Of(count + n)
  {
    var built := FramesFor(tx.numbers, tx.mtu, e.payload, e.reliability, e.channel);
    FramesNumbered(tx.numbers, tx.mtu, e.payload, e.reliability, e.channel, count);
    if FitsSingle(tx.mtu, |e.payload|, e.reliability) && !e.reliability.IsReliable() {
      assert built.frames == [built.frames[0]];
      PushedUnreliable(tx.outbox, built.frames[0], e.priority, e.receipt);
    } else {
      PushedEntries(tx.outbox, built.frames, e.priority, e.receipt, count);
    }
  }

  lemma OneUnreliable(tx: Tx, e: Event, count: nat)
    requires e.Queue? && count < MODULO
    ensures FitsSingle(tx.mtu, |e.payload|, e.reliability) ==>
              count + |FramesFor(tx.numbers, tx.mtu, e.payload, e.reliability, e.channel).frames| <= MODULO
  {
  }

  lemma QueueAdds(tx: Tx, cfg: TxConfig, e: Event, count: nat)
    requires e.Queue? && tx.numbers.reliable == Of(count)
    requires count + NewlyNumbered(tx, cfg, e) <= MODULO && count < MODULO
    ensures var after := QueuePayload(tx, cfg, e.payload, e.reliability, e.channel, e.priority, e.receipt).0;
            && after.numbers.reliable == Of(count + NewlyNumbered(tx, cfg, e))
            && OnceBelow(after.outbox.heap - tx.outbox.heap, count, count + NewlyNumbered(tx, cfg, e))
  {
    if Decide(cfg.queue, tx.outbox, EstimateImpact(tx.mtu, |e.payload|, e.reliability), e.priority).Allow? {
      var built := FramesFor(tx.numbers, tx.mtu, e.payload, e.reliability, e.channel);
      OneUnreliable(tx, e, count);
      FramesAdd(tx, e, count);
      QueueAdmitted(tx, cfg, e.payload, e.reliability, e.channel, e.priority, e.receipt, built);
    } else {
      assert tx.outbox.heap - tx.outbox.heap == multiset{};
    }
  }

  lemma QueueNumbered(l: Ledger, cfg: TxConfig, e: Event, count: nat)
    requires e.Queue? && Numbered(l, count) && count + NewlyNumbered(l.tx, cfg, e) <= MODULO && count < MODULO
    ensures Numbered(LedgerStep(l, cfg, e), count + NewlyNumbered(l.tx, cfg, e))
  {
    var after := QueuePayload(l.tx, cfg, e.payload, e.reliability, e.channel, e.priority, e.receipt).0;
    QueueAdds(l.tx, cfg, e, count);
    QueueRecorded(l, cfg, e, after, count, count + NewlyNumbered(l.tx, cfg, e));
  }

  lemma QueueRecorded(l: Ledger, cfg: TxConfig, e: Event, after: Tx, lo: nat, hi: nat)
    requires e.Queue? && after == QueuePayload(l.tx, cfg, e.payload, e.reliability, e.channel, e.priority, e.receipt).0
    requires lo <= hi <= MODULO && OnceBelow(l.accepted, 0, lo) && OnceBelow(after.outbox.heap - l.tx.outbox.heap, lo, hi)
    requires after.numbers.reliable == Of(hi)
    ensures Numbered(LedgerStep(l, cfg, e), hi)
  {
    AddedNumbered(l.accepted, after.outbox.heap - l.tx.outbox.heap, lo, hi);
  }

  lemma AddedNumbered(accepted: multiset<Queued>, added: multiset<Queued>, lo: nat, hi: nat)
    requires lo <= hi && OnceBelow(accepted, 0, lo) && OnceBelow(added, lo, hi)
    ensures OnceBelow(accepted + added, 0, hi)
  {
    forall q <- accepted + added ensures q.isReliable ==>
      q.frame.reliableIndex.Some? && q.frame.reliableIndex.value < hi && (accepted + added)[q] == 1
    {
      assert q in accepted || q in added;
    }
  }

  /** `counts` are the numbers of reliable frames queued before each step and after the last,
      and stay below 2^24. */
  ghost predicate CountsRun(states: seq<Ledger>, cfg: TxConfig, events: seq<Event>, counts: seq<nat>) {
    && |counts| == |states| == |events| + 1 && counts[0] == 0
    && forall i: nat | i < |events| :: CountsAt(states, cfg, events, counts, i)
  }

  ghost predicate CountsAt(states: seq<Ledger>, cfg: TxConfig, events: seq<Event>, counts: seq<nat>, i: nat) {
    && i + 1 < |counts| && i < |states| && i < |events| && counts[i + 1] < MODULO
    && counts[i + 1] == counts[i] + NewlyNumbered(states[i].tx, cfg, events[i])
  }

  lemma RunNext(states: seq<Ledger>, cfg: TxConfig, events: seq<Event>, i: nat)
    requires IsRun(states, cfg, events) && i < |events|
    ensures states[i + 1] == LedgerStep(states[i], cfg, events[i])
  {
    RunStep(states, cfg, events, i);
  }

  lemma CountNext(states: seq<Ledger>, cfg: TxConfig, events: seq<Event>, counts: seq<nat>, i: nat)
    requires CountsRun(states, cfg, events, counts) && i < |events|
    ensures counts[i + 1] == counts[i] + NewlyNumbered(states[i].tx, cfg, events[i]) && counts[i + 1] < MODULO
  {
    assert CountsAt(states, cfg, events, counts, i);
  }

  lemma NumberedAt(states: seq<Ledger>, cfg: TxConfig, events: seq<Event>, counts: seq<nat>, i: nat)
    requires IsRun(states, cfg, events) && CountsRun(states, cfg, events, counts) && i < |events|
    requires Numbered(states[i], counts[i])
    ensures Numbered(states[i + 1], counts[i + 1])
  {
    RunNext(states, cfg, events, i);
    CountNext(states, cfg, events, counts, i);
    StepNumbered(states[i], cfg, events[i], counts[i], counts[i + 1], states[i + 1]);
  }

  lemma {:induction false} RunNumbered(states: seq<Ledger>, cfg: TxConfig, events: seq<Event>, counts: seq<nat>, i: nat)
    requires IsRun(states, cfg, events) && CountsRun(states, cfg, events, counts) && Numbered(states[0], 0) && i < |states|
    ensures Numbered(states[i], counts[i])
  {
    if i > 0 {
      RunNumbered(states, cfg, events, counts, i - 1);
      NumberedAt(states, cfg, events, counts, i - 1);
    }
  }

  // ----- what the invariant means -----

  /** A reliable frame that was queued once is in exactly one place: the heap, one tracked
      datagram, or the acknowledged frames. */
  lemma ExactlyOnePlace(l: Ledger, cfg: TxConfig, q: Queued)
    requires Inv(l, cfg) && q.isReliable && l.accepted[q] == 1
    ensures q in l.tx.outbox.heap ==> q !in l.acked && forall k <- l.load :: q !in l.load[k]
    ensures q in l.acked ==> q !in l.tx.outbox.heap && forall k <- l.load :: q !in l.load[k]
    ensures forall j, k | j in l.load && k in l.load && q in l.load[j] && q in l.load[k] :: j == k
    ensures q in l.tx.outbox.heap || q in l.acked || exists k <- l.load :: q in l.load[k]
  {
    assert q !in l.untracked;
    assert l.tx.outbox.heap[q] + InFlight(l.load)[q] + l.acked[q] == 1;
    forall k <- l.load ensures q in l.load[k] ==> InFlight(l.load)[q] >= 1 { Carried(l.load, k, q); }
    forall j, k | j in l.load && k in l.load && q in l.load[j] && q in l.load[k] ensures j == k {
      if j != k { CarriedTwice(l.load, j, k, q); }
    }
    if InFlight(l.load)[q] >= 1 { var k := CarrierOf(l.load, q); }
  }

  lemma Carried(load: Loads, k: Seq24, q: Queued)
    requires k in load
    ensures q in load[k] ==> InFlight(load)[q] >= 1
  {
    InFlightTake(load, k);
    if q in load[k] { assert q in multiset(load[k]); }
  }

  lemma CarriedTwice(load: Loads, j: Seq24, k: Seq24, q: Queued)
    requires j in load && k in load && j != k && q in load[j] && q in load[k]
    ensures InFlight(load)[q] >= 2
  {
    InFlightTake(load, j);
    Carried(load - {j}, k, q);
    assert q in multiset(load[j]);
  }

  lemma {:induction false} CarrierOf(load: Loads, q: Queued) returns (k: Seq24)
    requires q in InFlight(load)
    ensures k in load && q in load[k]
    decreases |load|
  {
    k := InFlightPick(load);
    if q !in load[k] {
      assert q !in multiset(load[k]);
      assert (load - {k}).Keys == load.Keys - {k};
      k := CarrierOf(load - {k}, q);
    }
  }

  lemma NotCarried(l: Ledger, cfg: TxConfig, id: nat, q: Queued)
    requires Described(l) && q.receipt == Some(id) && q in InFlight(l.load)
    ensures Listing(l.tx.flight.sent, id) != {}
  {
    var k := CarrierOf(l.load, q);
    assert EntryDescribed(l.tx.flight.sent[k], k, l.load[k], l.times[k]);
    ReceiptListed(l.load[k], q);
    assert k in Listing(l.tx.flight.sent, id);
  }

  /** Once no tracked datagram lists a receipt and no queued frame carries it, every frame that
      carries it has been acknowledged. */
  lemma ReceiptSettled(l: Ledger, cfg: TxConfig, id: nat, q: Queued)
    requires Inv(l, cfg)
    requires Listing(l.tx.flight.sent, id) == {}
    requires forall p <- l.tx.outbox.heap :: p.receipt != Some(id)
    requires q.receipt == Some(id)
    ensures l.acked[q] == l.accepted[q]
  {
    assert q !in l.untracked && q !in l.tx.outbox.heap;
    assert InFlight(l.load)[q] == 0 by {
      if q in InFlight(l.load) { NotCarried(l, cfg, id, q); }
    }
  }

  /** In a run of any length, also one in which numbers come round again and frames are alike: of
      each reliable frame, as many copies as were accepted are in the heap, in tracked datagrams,
      and among the acknowledged frames together. */
  lemma CopiesOverRun(states: seq<Ledger>, cfg: TxConfig, events: seq<Event>, i: nat, q: Queued)
    requires IsRun(states, cfg, events) && Inv(states[0], cfg) && i < |states| && q.isReliable
    ensures var l := states[i]; l.accepted[q] == l.tx.outbox.heap[q] + InFlight(l.load)[q] + l.acked[q]
  {
    RunKeepsInv(states, cfg, events, i);
    assert q !in states[i].untracked;
  }

  /** At every moment of every run that queues fewer than 2^24 reliable frames, each reliable
      frame ever accepted is in exactly one place: the heap, one tracked datagram, or the frames
      removed by an acknowledgement. */
  lemma ConservedOverRun(states: seq<Ledger>, cfg: TxConfig, events: seq<Event>, counts: seq<nat>, i: nat, q: Queued)
    requires IsRun(states, cfg, events) && Inv(states[0], cfg) && Numbered(states[0], 0) && i < |states|
    requires CountsRun(states, cfg, events, counts) && q in states[i].accepted && q.isReliable
    ensures var l := states[i];
            && (q in l.tx.outbox.heap ==> q !in l.acked && forall k <- l.load :: q !in l.load[k])
            && (q in l.acked ==> q !in l.tx.outbox.heap && forall k <- l.load :: q !in l.load[k])
            && (forall j, k | j in l.load && k in l.load && q in l.load[j] && q in l.load[k] :: j == k)
            && (q in l.tx.outbox.heap || q in l.acked || exists k <- l.load :: q in l.load[k])
  {
    RunKeepsInv(states, cfg, events, i);
    RunNumbered(states, cfg, events, counts, i);
    AcceptedOnce(states[i], counts[i], q);
    ExactlyOnePlace(states[i], cfg, q);
  }

  lemma AcceptedOnce(l: Ledger, count: nat, q: Queued)
    requires Numbered(l, count) && q in l.accepted && q.isReliable
    ensures l.accepted[q] == 1
  {
  }

  /** A round-trip sample is taken exactly from datagrams transmitted once, and measures from
      that transmission (section 3 of RFC 6298). */
  lemma SampleUnambiguous(l: Ledger, cfg: TxConfig, s: Seq24, now: Instant)
    requires Inv(l, cfg) && s in l.tx.flight.sent
    ensures SampleOf(l.tx, s, now).Some? <==> |l.times[s]| == 1
    ensures |l.times[s]| == 1 ==> SampleOf(l.tx, s, now) == Some(Since(now, l.times[s][0]))
  {
    assert s in l.load;
  }

  // ----- reported losses -----

  ghost predicate DueAt(fl: Flight, s: Seq24, now: Instant) {
    s in fl.sent && (fl.sent[s].resendable ==> fl.sent[s].nextSend <= now)
  }

  lemma {:induction false} NackedAreDue(tx: Tx, numbers: seq<Seq24>, now: Instant, s: Seq24)
    requires s in tx.flight.sent && s in numbers
    ensures DueAt(NackNumbers(tx, numbers, now).0.flight, s, now)
  {
    var init, last := numbers[..|numbers| - 1], numbers[|numbers| - 1];
    assert numbers == init + [last];
    NackKeys(tx, init, now);
    if s in init { NackedAreDue(tx, init, now, s); }
  }

  lemma {:induction false} NackKeys(tx: Tx, numbers: seq<Seq24>, now: Instant)
    ensures NackNumbers(tx, numbers, now).0.flight.sent.Keys == tx.flight.sent.Keys
  {
    if numbers != [] { NackKeys(tx, numbers[..|numbers| - 1], now); }
  }

  /** A loss report makes every reliable datagram it names, unless acknowledged meanwhile, due for
      sending at once. */
  lemma LossMeansResend(tx: Tx, cfg: TxConfig, now: Instant, s: Seq24)
    requires s in WalkAll(tx.incomingNacks) && s in Process(tx, cfg, now).0.flight.sent
    ensures DueAt(Process(tx, cfg, now).0.flight, s, now)
  {
    var tx1 := AckNumbers(tx.(incomingAcks := []), cfg, WalkAll(tx.incomingAcks), now).0;
    AckKeepsNacks(tx.(incomingAcks := []), cfg, WalkAll(tx.incomingAcks), now);
    NackKeys(tx1.(incomingNacks := []), WalkAll(tx.incomingNacks), now);
    NackedAreDue(tx1.(incomingNacks := []), WalkAll(tx.incomingNacks), now, s);
  }

  lemma {:induction false} AckKeepsNacks(tx: Tx, cfg: TxConfig, numbers: seq<Seq24>, now: Instant)
    ensures AckNumbers(tx, cfg, numbers, now).0.incomingNacks == tx.incomingNacks
  {
    if numbers != [] { AckKeepsNacks(tx, cfg, numbers[..|numbers| - 1], now); }
  }

  // ----- the controller over whole runs -----

  /** What acknowledging numbers tells the controller. */
  ghost function AckEvents(tx: Tx, cfg: TxConfig, numbers: seq<Seq24>, now: Instant): seq<CcEvent> {
    if numbers == [] then []
    else
      var init, s := numbers[..|numbers| - 1], numbers[|numbers| - 1];
      var before := AckNumbers(tx, cfg, init, now).0;
      AckEvents(tx, cfg, init, now) + if s in before.flight.sent then [Acked(SampleOf(before, s, now))] else []
  }

  ghost function NackedBy(tx: Tx, cfg: TxConfig, now: Instant): nat { Process(tx, cfg, now).1.nacked }

  ghost predicate TimesOut(tx: Tx, selected: seq<Seq24>) {
    exists s <- selected :: s in tx.flight.sent && !tx.flight.sent[s].nackPending
  }

  /** What a step tells the controller: acknowledgements with their samples, losses reported by
      the peer, timeouts. */
  ghost function CcEvents(tx: Tx, cfg: TxConfig, e: Event): seq<CcEvent> {
    match e
    case Receipts(now) =>
      AckEvents(tx.(incomingAcks := []), cfg, WalkAll(tx.incomingAcks), now)
      + if NackedBy(tx, cfg, now) > 0 then [Nacked(now)] else []
    case Again(selected, _, _, now) => if TimesOut(tx, selected) then [TimedOut(now)] else []
    case _ => []
  }

  lemma {:induction false} CcRunConcat(cc: Cc, cfg: CcConfig, a: seq<CcEvent>, b: seq<CcEvent>)
    ensures CcRun(cc, cfg, a + b) == CcRun(CcRun(cc, cfg, a), cfg, b)
  {
    if b == [] {
      assert a + b == a;
    } else {
      assert (a + b)[..|a + b| - 1] == a + b[..|b| - 1];
      CcRunConcat(cc, cfg, a, b[..|b| - 1]);
    }
  }

  lemma CcRunOne(cc: Cc, cfg: CcConfig, e: CcEvent)
    ensures CcRun(cc, cfg, [e]) == CcStep(cc, cfg, e)
  {
    assert [e][..0] == [];
  }

  lemma {:induction false} AckIsCcRun(tx: Tx, cfg: TxConfig, numbers: seq<Seq24>, now: Instant)
    ensures AckNumbers(tx, cfg, numbers, now).0.cc == CcRun(tx.cc, cfg.cc, AckEvents(tx, cfg, numbers, now))
  {
    if numbers != [] {
      var init, s := numbers[..|numbers| - 1], numbers[|numbers| - 1];
      AckIsCcRun(tx, cfg, init, now);
      var before := AckNumbers(tx, cfg, init, now).0;
      var evs := AckEvents(tx, cfg, init, now);
      if s in before.flight.sent {
        CcRunConcat(tx.cc, cfg.cc, evs, [Acked(SampleOf(before, s, now))]);
        CcRunOne(before.cc, cfg.cc, Acked(SampleOf(before, s, now)));
      } else {
        assert evs + [] == evs;
      }
    }
  }

  lemma {:induction false} NackKeepsCc(tx: Tx, numbers: seq<Seq24>, now: Instant)
    ensures NackNumbers(tx, numbers, now).0.cc == tx.cc
  {
    if numbers != [] { NackKeepsCc(tx, numbers[..|numbers| - 1], now); }
  }

  lemma ProcessIsCcRun(tx: Tx, cfg: TxConfig, now: Instant)
    ensures Process(tx, cfg, now).0.cc == CcRun(tx.cc, cfg.cc, CcEvents(tx, cfg, Receipts(now)))
  {
    var tx0 := tx.(incomingAcks := []);
    AckIsCcRun(tx0, cfg, WalkAll(tx.incomingAcks), now);
    var tx1 := AckNumbers(tx0, cfg, WalkAll(tx.incomingAcks), now).0;
    NackKeepsCc(tx1.(incomingNacks := []), WalkAll(tx.incomingNacks), now);
    var evs := AckEvents(tx0, cfg, WalkAll(tx.incomingAcks), now);
    CcRunConcat(tx.cc, cfg.cc, evs, [Nacked(now)]);
    CcRunOne(tx1.cc, cfg.cc, Nacked(now));
    assert evs + [] == evs;
  }

  /** Nothing but these events moves the controller. */
  lemma StepIsCcRun(tx: Tx, cfg: TxConfig, e: Event)
    ensures Step(tx, cfg, e).cc == CcRun(tx.cc, cfg.cc, CcEvents(tx, cfg, e))
  {
    match e {
      case Receipts(now) => ProcessIsCcRun(tx, cfg, now);
      case Again(selected, _, _, now) => CcRunOne(tx.cc, cfg.cc, TimedOut(now));
      case _ =>
    }
  }

  ghost function Told(parts: seq<seq<CcEvent>>): seq<CcEvent> {
    if parts == [] then [] else Told(parts[..|parts| - 1]) + parts[|parts| - 1]
  }

  lemma {:induction false} ToldRun(ccs: seq<Cc>, cfg: CcConfig, parts: seq<seq<CcEvent>>)
    requires |ccs| == |parts| + 1 && forall j | 0 <= j < |parts| :: ccs[j + 1] == CcRun(ccs[j], cfg, parts[j])
    ensures ccs[|parts|] == CcRun(ccs[0], cfg, Told(parts))
  {
    if parts != [] {
      var n := |parts| - 1;
      ToldRun(ccs[..n + 1], cfg, parts[..n]);
      CcRunConcat(ccs[0], cfg, Told(parts[..n]), parts[n]);
    }
  }

  /** What each step of a run tells the controller. */
  ghost function CcParts(states: seq<Ledger>, cfg: TxConfig, events: seq<Event>): seq<seq<CcEvent>>
    requires |states| == |events| + 1
  {
    seq(|events|, j requires 0 <= j < |events| => CcEvents(states[j].tx, cfg, events[j]))
  }

  lemma CcAt(states: seq<Ledger>, cfg: TxConfig, events: seq<Event>, j: nat)
    requires IsRun(states, cfg, events) && j < |events|
    ensures states[j + 1].tx.cc == CcRun(states[j].tx.cc, cfg.cc, CcParts(states, cfg, events)[j])
  {
    RunStep(states, cfg, events, j);
    CcOfStep(states[j], cfg, events[j], states[j + 1]);
  }

  lemma CcOfStep(l: Ledger, cfg: TxConfig, e: Event, m: Ledger)
    requires Takes(l, cfg, e, m)
    ensures m.tx.cc == CcRun(l.tx.cc, cfg.cc, CcEvents(l.tx, cfg, e))
  {
    StepIsCcRun(l.tx, cfg, e);
  }

  lemma RunIsCcRun(states: seq<Ledger>, cfg: TxConfig, events: seq<Event>)
    requires IsRun(states, cfg, events)
    ensures states[|events|].tx.cc == CcRun(states[0].tx.cc, cfg.cc, Told(CcParts(states, cfg, events)))
  {
    var ccs := seq(|states|, j requires 0 <= j < |states| => states[j].tx.cc);
    var parts := CcParts(states, cfg, events);
    forall j | 0 <= j < |events| ensures ccs[j + 1] == CcRun(ccs[j], cfg.cc, parts[j]) { CcAt(states, cfg, events, j); }
    ToldRun(ccs, cfg.cc, parts);
  }

  /** Over every run of a session: timeout and window stay in their ranges, the estimates stay
      within the bounds of the samples taken, and window cuts caused by reported losses are at
      least one cooldown apart if the clock does not run backwards. */
  lemma ControllerOverRun(states: seq<Ledger>, cfg: TxConfig, events: seq<Event>, lo: real, hi: real, i: nat, j: nat)
    requires IsRun(states, cfg, events) && InRange(states[0].tx.cc, cfg.cc) && Estimates(states[0].tx.cc, lo, hi)
    requires SamplesWithin(Told(CcParts(states, cfg, events)), lo, hi)
    ensures InRange(states[|events|].tx.cc, cfg.cc) && Estimates(states[|events|].tx.cc, lo, hi)
    ensures var h, cc := Told(CcParts(states, cfg, events)), states[0].tx.cc;
            Forward(h) && i < j < |h| && CutsAt(cc, cfg.cc, h, i) && CutsAt(cc, cfg.cc, h, j)
            ==> h[j].at >= h[i].at + cfg.cc.nackCooldown
  {
    var h, cc := Told(CcParts(states, cfg, events)), states[0].tx.cc;
    RunIsCcRun(states, cfg, events);
    RunStaysInRange(cc, cfg.cc, h, lo, hi);
    if Forward(h) && i < j < |h| && CutsAt(cc, cfg.cc, h, i) && CutsAt(cc, cfg.cc, h, j) {
      CutsApart(cc, cfg.cc, h, i, j);
    }
  }
}
