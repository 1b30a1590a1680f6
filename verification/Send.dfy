/** The sending half of a session as a machine of labelled steps (src/session/mod.rs). Every
    method of the session object that changes the sending half is proved to be one of these
    steps or a sequence of them; the results here hold for all sequences. */
module Send {
  import opened Base
  import opened Sequence24
  import opened Wire
  import opened Frames
  import opened Ack
  import opened Datagrams
  import opened Congestion
  import opened Pacing
  import opened Outboxes
  import opened Flights

  datatype TxConfig = TxConfig(cc: CcConfig, pace: PaceConfig, queue: QueueLimits)

  datatype Tx = Tx(
    mtu: nat,
    numbers: Numbers,
    outbox: Outbox,
    flight: Flight,
    incomingAcks: seq<Range>,
    incomingNacks: seq<Range>,
    cc: Cc,
    pace: Pace,
    disconnect: bool)

  // ----- queueing -----

  function QueuePayload(tx: Tx, cfg: TxConfig, payload: Bytes, rel: Reliability, channel: u8,
                        priority: Priority, receipt: Option<nat>): (Tx, QueueResult)
  {
    match Decide(cfg.queue, tx.outbox, EstimateImpact(tx.mtu, |payload|, rel), priority)
    case DropIt => (tx, Dropped)
    case Defer => (tx, Deferred)
    case DisconnectPeer => (tx.(disconnect := true), DisconnectRequested)
    case Allow =>
      var built := FramesFor(tx.numbers, tx.mtu, payload, rel, channel);
      (tx.(numbers := built.numbers, outbox := PushFrames(tx.outbox, built.frames, priority, receipt)),
       Enqueued(ReliableBytes(built.frames)))
  }

  /** What an accepted payload does, spelled out. */
  lemma QueueAdmitted(tx: Tx, cfg: TxConfig, payload: Bytes, rel: Reliability, channel: u8, priority: Priority,
                      receipt: Option<nat>, built: Numbered)
    requires Decide(cfg.queue, tx.outbox, EstimateImpact(tx.mtu, |payload|, rel), priority) == Allow
    requires built == FramesFor(tx.numbers, tx.mtu, payload, rel, channel)
    ensures QueuePayload(tx, cfg, payload, rel, channel, priority, receipt)
         == (tx.(numbers := built.numbers, outbox := PushFrames(tx.outbox, built.frames, priority, receipt)),
             Enqueued(ReliableBytes(built.frames)))
  {
  }

  // ----- building a datagram -----

  function HasReliable(picked: seq<Queued>): bool { exists q <- picked :: q.isReliable }

  function FramesOf(picked: seq<Queued>): seq<Frame> {
    if picked == [] then [] else FramesOf(picked[..|picked| - 1]) + [picked[|picked| - 1].frame]
  }

  lemma {:induction false} FramesOfAt(picked: seq<Queued>)
    ensures |FramesOf(picked)| == |picked|
    ensures forall i | 0 <= i < |picked| :: FramesOf(picked)[i] == picked[i].frame
  {
    if picked != [] { FramesOfAt(picked[..|picked| - 1]); }
  }

  /** The receipts of the frames, each listed once. */
  function ReceiptIds(picked: seq<Queued>): seq<nat> {
    if picked == [] then []
    else
      var ids, last := ReceiptIds(picked[..|picked| - 1]), picked[|picked| - 1];
      if last.receipt.Some? && last.receipt.value !in ids then ids + [last.receipt.value] else ids
  }

  lemma {:induction false} ReceiptIdsOnce(picked: seq<Queued>)
    ensures NoRepeats(ReceiptIds(picked))
  {
    if picked != [] { ReceiptIdsOnce(picked[..|picked| - 1]); }
  }

  lemma {:induction false} ReceiptListed(picked: seq<Queued>, q: Queued)
    requires q in picked && q.receipt.Some?
    ensures q.receipt.value in ReceiptIds(picked)
  {
    var n := |picked| - 1;
    assert picked == picked[..n] + [picked[n]];
    if q in picked[..n] { ReceiptListed(picked[..n], q); }
  }

  /** What a selection of queued frames must satisfy to become a datagram. */
  predicate Picks(tx: Tx, picked: seq<Queued>, budget: nat) {
    && picked != [] && multiset(picked) <= tx.outbox.heap
    && HEADER_SIZE + Sizes(picked) <= tx.mtu && Sizes(picked) <= budget
    && (HasReliable(picked) ==> CanEmit(tx.cc, |tx.flight.sent|))
  }

  function DatagramFor(tx: Tx, picked: seq<Queued>): Datagram {
    var more := tx.outbox.heap - multiset(picked) != multiset{} || exists q <- picked :: q.frame.header.isSplit;
    Datagram(if more then FLAGS_CONTINUOUS else FLAGS_HAS_B_AND_AS, tx.numbers.write, FramesPayload(FramesOf(picked)))
  }

  function Build(tx: Tx, picked: seq<Queued>, now: Instant): Tx {
    var d, ids := DatagramFor(tx, picked), ReceiptIds(picked);
    var flight := if HasReliable(picked) || ids != []
                  then Track(tx.flight, d, ids, now, tx.cc.rto, HasReliable(picked)) else tx.flight;
    tx.(numbers := tx.numbers.(write := Next(tx.numbers.write)),
        outbox := TakePicked(tx.outbox, picked),
        flight := flight)
  }

  // ----- acknowledgements -----

  function WalkAll(ranges: seq<Range>): seq<Seq24> {
    if ranges == [] then []
    else WalkAll(ranges[..|ranges| - 1]) + Walk(ranges[|ranges| - 1].start, ranges[|ranges| - 1].end)
  }

  /** The round-trip sample of an acknowledgement: none for a datagram that was sent again. */
  function SampleOf(tx: Tx, s: Seq24, now: Instant): Option<real> {
    if s in tx.flight.sent && tx.flight.sent[s].retries == 0 then Some(Since(now, tx.flight.sent[s].sendTime)) else None
  }

  function AckNumber(tx: Tx, cfg: TxConfig, s: Seq24, now: Instant): (Tx, seq<nat>)
  {
    if s !in tx.flight.sent then (tx, [])
    else
      var (flight, reported) := Acknowledge(tx.flight, s);
      (tx.(flight := flight, cc := CcStep(tx.cc, cfg.cc, Acked(SampleOf(tx, s, now)))), reported)
  }

  /** Acknowledges numbers one after the other; also counts removals and collects receipts. */
  function AckNumbers(tx: Tx, cfg: TxConfig, numbers: seq<Seq24>, now: Instant): (Tx, nat, seq<nat>)
  {
    if numbers == [] then (tx, 0, [])
    else
      var (before, acked, reported) := AckNumbers(tx, cfg, numbers[..|numbers| - 1], now);
      var s := numbers[|numbers| - 1];
      var (after, more) := AckNumber(before, cfg, s, now);
      (after, acked + (if s in before.flight.sent then 1 else 0), reported + more)
  }

  function NackNumbers(tx: Tx, numbers: seq<Seq24>, now: Instant): (Tx, nat) {
    if numbers == [] then (tx, 0)
    else
      var (before, nacked) := NackNumbers(tx, numbers[..|numbers| - 1], now);
      var (flight, hit) := ScheduleResend(before.flight, numbers[|numbers| - 1], now);
      (before.(flight := flight), nacked + if hit then 1 else 0)
  }

  datatype ReceiptProgress = ReceiptProgress(acked: nat, nacked: nat, reported: seq<nat>)

  function Process(tx: Tx, cfg: TxConfig, now: Instant): (Tx, ReceiptProgress)
  {
    var (tx1, acked, reported) := AckNumbers(tx.(incomingAcks := []), cfg, WalkAll(tx.incomingAcks), now);
    var (tx2, nacked) := NackNumbers(tx1.(incomingNacks := []), WalkAll(tx.incomingNacks), now);
    (if nacked > 0 then tx2.(cc := OnNackLoss(tx2.cc, cfg.cc, now)) else tx2, ReceiptProgress(acked, nacked, reported))
  }

  // ----- resending -----

  function DatagramsSize(ds: seq<Datagram>): nat {
    if ds == [] then 0 else DatagramsSize(ds[..|ds| - 1]) + DatagramSize(ds[|ds| - 1])
  }

  /** Which tracked datagrams may be sent again together. */
  predicate Resends(tx: Tx, selected: seq<Seq24>, maxCount: nat, maxBytes: nat, now: Instant) {
    && |selected| <= maxCount
    && (forall i, j | 0 <= i < j < |selected| :: selected[i] != selected[j])
    && (forall s <- selected :: s in tx.flight.sent && tx.flight.sent[s].resendable && tx.flight.sent[s].nextSend <= now)
    && DatagramsSize(Selected(tx, selected)) <= maxBytes
  }

  /** The datagrams of the tracked numbers among those selected. */
  function Selected(tx: Tx, selected: seq<Seq24>): seq<Datagram> {
    if selected == [] then []
    else
      var before, s := Selected(tx, selected[..|selected| - 1]), selected[|selected| - 1];
      if s in tx.flight.sent then before + [tx.flight.sent[s].datagram] else before
  }

  function ResentAll(fl: Flight, selected: seq<Seq24>, now: Instant, rto: real): Flight {
    if selected == [] then fl
    else Resent(ResentAll(fl, selected[..|selected| - 1], now, rto), selected[|selected| - 1], now, rto)
  }

  /** A timeout is observed when some selected datagram was not already reported lost. */
  function Resend(tx: Tx, cfg: TxConfig, selected: seq<Seq24>, now: Instant): Tx {
    if selected == [] then tx
    else
      var timedOut := exists s <- selected :: s in tx.flight.sent && !tx.flight.sent[s].nackPending;
      var cc := if timedOut then OnTimeout(tx.cc, cfg.cc, now) else tx.cc;
      tx.(cc := cc, flight := ResentAll(tx.flight, selected, now, cc.rto))
  }

  // ----- the machine -----

  datatype Event =
    | Queue(payload: Bytes, reliability: Reliability, channel: u8, priority: Priority, receipt: Option<nat>)
    | Emit(picked: seq<Queued>, budget: nat, now: Instant)
    | Again(selected: seq<Seq24>, maxCount: nat, maxBytes: nat, now: Instant)
    | AckIn(acks: seq<Range>)
    | NackIn(nacks: seq<Range>)
    | Receipts(now: Instant)
    | Refill(now: Instant)
    | Pay(bytes: nat)
    | NewMtu(mtu: nat)
    | TakeDisconnect

  /** Invariant of the parts that the steps rely on. */
  ghost predicate TxOk(tx: Tx) { OutboxOk(tx.outbox) }

  predicate Enabled(tx: Tx, e: Event) {
    match e
    case Emit(picked, budget, _) => Picks(tx, picked, budget)
    case Again(selected, maxCount, maxBytes, now) => Resends(tx, selected, maxCount, maxBytes, now)
    case _ => true
  }

  function Step(tx: Tx, cfg: TxConfig, e: Event): Tx {
    match e
    case Queue(payload, rel, channel, priority, receipt) => QueuePayload(tx, cfg, payload, rel, channel, priority, receipt).0
    case Emit(picked, _, now) => Build(tx, picked, now)
    case Again(selected, _, _, now) => Resend(tx, cfg, selected, now)
    case AckIn(acks) => tx.(incomingAcks := tx.incomingAcks + acks)
    case NackIn(nacks) => tx.(incomingNacks := tx.incomingNacks + nacks)
    case Receipts(now) => Process(tx, cfg, now).0
    case Refill(now) => tx.(pace := Refresh(tx.pace, cfg.pace, tx.cc, tx.mtu, now))
    case Pay(bytes) => tx.(pace := Spend(tx.pace, cfg.pace, bytes))
    case NewMtu(mtu) => tx.(mtu := mtu)
    case TakeDisconnect => tx.(disconnect := false)
  }

  /** The datagrams a step hands to the network. */
  function Sends(tx: Tx, e: Event): seq<Datagram> {
    match e
    case Emit(picked, _, _) => [DatagramFor(tx, picked)]
    case Again(selected, _, _, _) => Selected(tx, selected)
    case _ => []
  }
}
