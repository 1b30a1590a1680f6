/** The table of tracked datagrams and the delivery receipts they carry (src/session/mod.rs). */
module Flights {
  import opened Base
  import opened Sequence24
  import opened Datagrams

  datatype Tracked = Tracked(
    datagram: Datagram,
    sendTime: Instant,
    nextSend: Instant,
    retries: nat,
    nackPending: bool,
    resendable: bool,
    receiptIds: seq<nat>)

  datatype Flight = Flight(sent: map<Seq24, Tracked>, receipts: map<nat, nat>)

  predicate NoRepeats(ids: seq<nat>) { forall i, j | 0 <= i < j < |ids| :: ids[i] != ids[j] }

  // ----- operations -----

  function BumpReceipts(receipts: map<nat, nat>, ids: seq<nat>): map<nat, nat> {
    if ids == [] then receipts
    else
      var before, id := BumpReceipts(receipts, ids[..|ids| - 1]), ids[|ids| - 1];
      before[id := (if id in before then before[id] else 0) + 1]
  }

  function Track(fl: Flight, d: Datagram, ids: seq<nat>, now: Instant, rto: real, hasReliable: bool): Flight {
    Flight(fl.sent[d.sequence := Tracked(d, now, now + rto, 0, false, hasReliable, ids)], BumpReceipts(fl.receipts, ids))
  }

  /** Counts one acknowledged datagram off each of its receipts, and collects those that reach zero. */
  function ReleaseReceipts(receipts: map<nat, nat>, ids: seq<nat>): (map<nat, nat>, seq<nat>) {
    if ids == [] then (receipts, [])
    else
      var (before, reported) := ReleaseReceipts(receipts, ids[..|ids| - 1]);
      var id := ids[|ids| - 1];
      if id !in before then (before, reported)
      else if before[id] > 1 then (before[id := before[id] - 1], reported)
      else (before - {id}, reported + [id])
  }

  /** Removes an acknowledged datagram; numbers that are not tracked change nothing. */
  function Acknowledge(fl: Flight, s: Seq24): (Flight, seq<nat>) {
    if s !in fl.sent then (fl, [])
    else
      var (receipts, reported) := ReleaseReceipts(fl.receipts, fl.sent[s].receiptIds);
      (Flight(fl.sent - {s}, receipts), reported)
  }

  /** A reported loss schedules a resendable datagram that is not already due. */
  function ScheduleResend(fl: Flight, s: Seq24, now: Instant): (Flight, bool) {
    if s in fl.sent && fl.sent[s].resendable && fl.sent[s].nextSend > now
    then (fl.(sent := fl.sent[s := fl.sent[s].(nextSend := now, nackPending := true)]), true)
    else (fl, false)
  }

  /** Marks a datagram as sent again. */
  function Resent(fl: Flight, s: Seq24, now: Instant, rto: real): Flight {
    if s !in fl.sent then fl
    else
      var t := fl.sent[s];
      fl.(sent := fl.sent[s := t.(sendTime := now, nextSend := now + rto, retries := t.retries + 1, nackPending := false)])
  }

  // ----- receipts count tracked datagrams -----

  /** The tracked datagrams that list a receipt. */
  ghost function Listing(sent: map<Seq24, Tracked>, id: nat): set<Seq24> {
    set k <- sent | id in sent[k].receiptIds
  }

  /** Each receipt counter is the number of tracked datagrams that list it. */
  ghost predicate ReceiptsExact(fl: Flight) {
    && (forall k <- fl.sent :: NoRepeats(fl.sent[k].receiptIds))
    && (forall id: nat :: CounterOf(fl.receipts, id) == |Listing(fl.sent, id)|)
    && (forall id <- fl.receipts :: fl.receipts[id] > 0)
  }

  function CounterOf(receipts: map<nat, nat>, id: nat): nat { if id in receipts then receipts[id] else 0 }

  lemma {:induction false} BumpCounts(receipts: map<nat, nat>, ids: seq<nat>, id: nat)
    requires NoRepeats(ids)
    ensures CounterOf(BumpReceipts(receipts, ids), id) == CounterOf(receipts, id) + if id in ids then 1 else 0
  {
    if ids != [] {
      var n := |ids| - 1;
      BumpCounts(receipts, ids[..n], id);
      assert ids == ids[..n] + [ids[n]];
    }
  }

  lemma {:induction false} BumpPositive(receipts: map<nat, nat>, ids: seq<nat>)
    requires forall id <- receipts :: receipts[id] > 0
    ensures forall id <- BumpReceipts(receipts, ids) :: BumpReceipts(receipts, ids)[id] > 0
  {
    if ids != [] { BumpPositive(receipts, ids[..|ids| - 1]); }
  }

  lemma {:induction false} ReleaseCounts(receipts: map<nat, nat>, ids: seq<nat>, id: nat)
    requires NoRepeats(ids) && forall x <- receipts :: receipts[x] > 0
    ensures var (after, reported) := ReleaseReceipts(receipts, ids);
            && (forall x <- after :: after[x] > 0)
            && CounterOf(after, id) == CounterOf(receipts, id) - (if id in ids && id in receipts then 1 else 0)
            && (id in reported <==> id in ids && CounterOf(receipts, id) == 1)
            && (id !in ids ==> (id in after <==> id in receipts))
  {
    if ids != [] {
      var n := |ids| - 1;
      ReleaseCounts(receipts, ids[..n], id);
      ReleaseCounts(receipts, ids[..n], ids[n]);
      assert ids == ids[..n] + [ids[n]];
    }
  }

  lemma ListingAdd(sent: map<Seq24, Tracked>, k: Seq24, t: Tracked, id: nat)
    requires k !in sent
    ensures |Listing(sent[k := t], id)| == |Listing(sent, id)| + if id in t.receiptIds then 1 else 0
  {
    if id in t.receiptIds {
      assert Listing(sent[k := t], id) == Listing(sent, id) + {k};
    } else {
      assert Listing(sent[k := t], id) == Listing(sent, id);
    }
  }

  lemma ListingRemove(sent: map<Seq24, Tracked>, k: Seq24, id: nat)
    requires k in sent
    ensures |Listing(sent - {k}, id)| == |Listing(sent, id)| - if id in sent[k].receiptIds then 1 else 0
    ensures id in sent[k].receiptIds ==> |Listing(sent, id)| >= 1
  {
    if id in sent[k].receiptIds {
      assert k in Listing(sent, id);
      assert Listing(sent - {k}, id) == Listing(sent, id) - {k};
    } else {
      assert Listing(sent - {k}, id) == Listing(sent, id);
    }
  }

  /** Tracking a datagram under an unused number keeps the counters exact. */
  lemma TrackKeepsReceipts(fl: Flight, d: Datagram, ids: seq<nat>, now: Instant, rto: real, hasReliable: bool)
    requires ReceiptsExact(fl) && NoRepeats(ids) && d.sequence !in fl.sent
    ensures ReceiptsExact(Track(fl, d, ids, now, rto, hasReliable))
  {
    var after := Track(fl, d, ids, now, rto, hasReliable);
    forall id: nat ensures CounterOf(after.receipts, id) == |Listing(after.sent, id)| {
      BumpCounts(fl.receipts, ids, id);
      ListingAdd(fl.sent, d.sequence, Tracked(d, now, now + rto, 0, false, hasReliable, ids), id);
    }
    BumpPositive(fl.receipts, ids);
  }

  /** An acknowledgement keeps the counters exact, and reports a receipt exactly when it removes
      the last tracked datagram that lists it. */
  lemma AcknowledgeReports(fl: Flight, s: Seq24, id: nat)
    requires ReceiptsExact(fl)
    ensures var (after, reported) := Acknowledge(fl, s);
            && ReceiptsExact(after)
            && (id in reported <==>
                s in fl.sent && id in fl.sent[s].receiptIds && Listing(after.sent, id) == {})
  {
    if s in fl.sent {
      var ids := fl.sent[s].receiptIds;
      var (after, reported) := Acknowledge(fl, s);
      forall x: nat ensures CounterOf(after.receipts, x) == |Listing(after.sent, x)| {
        ReleaseCounts(fl.receipts, ids, x);
        ListingRemove(fl.sent, s, x);
      }
      ReleaseCounts(fl.receipts, ids, id);
      ListingRemove(fl.sent, s, id);
      assert after.sent == fl.sent - {s};
    }
  }

  /** Changing the bookkeeping of a tracked datagram, not its contents, changes no listing. */
  lemma TouchKeepsReceipts(fl: Flight, s: Seq24, t: Tracked)
    requires ReceiptsExact(fl) && s in fl.sent && t.receiptIds == fl.sent[s].receiptIds
    ensures ReceiptsExact(fl.(sent := fl.sent[s := t]))
  {
    forall id: nat ensures Listing(fl.sent[s := t], id) == Listing(fl.sent, id) {}
  }
}
