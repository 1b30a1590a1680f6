/** Reassembly of split frames (src/session/split_assembler.rs). */
module Splits {
  import opened Base
  import opened Sequence24
  import opened Wire
  import opened Frames

  datatype Entry = Entry(
    header: FrameHeader,
    reliableIndex: Option<Seq24>,
    sequenceIndex: Option<Seq24>,
    orderingIndex: Option<Seq24>,
    orderingChannel: Option<u8>,
    partCount: nat,
    received: nat,
    parts: seq<Option<Bytes>>,
    lastUpdate: Instant)

  datatype Limits = Limits(ttl: real, maxParts: nat, maxConcurrent: nat)

  type Entries = map<u16, Entry>

  // ----- pieces -----

  function Concat(parts: seq<Bytes>): Bytes {
    if parts == [] then [] else Concat(parts[..|parts| - 1]) + parts[|parts| - 1]
  }

  function Filled(parts: seq<Option<Bytes>>): (n: nat)
    ensures n <= |parts|
  {
    if parts == [] then 0
    else Filled(parts[..|parts| - 1]) + if parts[|parts| - 1].Some? then 1 else 0
  }

  predicate Complete(parts: seq<Option<Bytes>>) { forall p <- parts :: p.Some? }

  function Values(parts: seq<Option<Bytes>>): seq<Bytes>
    requires Complete(parts)
  {
    seq(|parts|, i requires 0 <= i < |parts| => parts[i].value)
  }

  function Blank(n: nat): (parts: seq<Option<Bytes>>) { seq(n, _ => None) }

  lemma {:induction false} FilledSet(parts: seq<Option<Bytes>>, i: nat, b: Bytes)
    requires i < |parts| && parts[i].None?
    ensures Filled(parts[i := Some(b)]) == Filled(parts) + 1
  {
    var n := |parts| - 1;
    var after := parts[i := Some(b)];
    if i < n {
      FilledSet(parts[..n], i, b);
      assert after[..n] == parts[..n][i := Some(b)];
    } else {
      assert after[..n] == parts[..n];
    }
  }

  lemma {:induction false} FilledComplete(parts: seq<Option<Bytes>>)
    ensures Filled(parts) == |parts| <==> Complete(parts)
  {
    if parts != [] {
      var n := |parts| - 1;
      FilledComplete(parts[..n]);
      assert parts == parts[..n] + [parts[n]];
      if Complete(parts[..n]) && parts[n].Some? {
        forall p <- parts ensures p.Some? { assert p in parts[..n] || p == parts[n]; }
      }
      if Complete(parts) { forall p <- parts[..n] ensures p.Some? { assert p in parts; } }
    }
  }

  lemma {:induction false} FilledBlank(n: nat)
    ensures Filled(Blank(n)) == 0
  {
    if n > 0 {
      FilledBlank(n - 1);
      assert Blank(n)[..n - 1] == Blank(n - 1);
    }
  }

  // ----- the assembler -----

  predicate Expired(e: Entry, ttl: real, now: Instant) { Since(now, e.lastUpdate) >= ttl }

  function Prune(entries: Entries, ttl: real, now: Instant): Entries {
    map id | id in entries && !Expired(entries[id], ttl, now) :: entries[id]
  }

  function FreshEntry(f: Frame, now: Instant): Entry
    requires f.split.Some?
  {
    Entry(f.header, f.reliableIndex, f.sequenceIndex, f.orderingIndex, f.orderingChannel,
          f.split.value.partCount, 0, Blank(f.split.value.partCount), now)
  }

  /** The frame put together from a complete entry. */
  function Assembled(e: Entry): Frame
    requires Complete(e.parts)
  {
    var payload := Concat(Values(e.parts));
    Frame(FrameHeader(e.header.reliability, false, e.header.needsBas), BitLength(|payload|),
          e.reliableIndex, e.sequenceIndex, e.orderingIndex, e.orderingChannel, None, payload)
  }

  /** Why a split frame is refused before any entry is touched. */
  function SplitFault(entries: Entries, lim: Limits, f: Frame): Option<DecodeError> {
    if f.split.None? then Some(MissingSplitInfo)
    else if f.split.value.partCount == 0 then Some(SplitCountZero)
    else if f.split.value.partCount > lim.maxParts then Some(SplitTooLarge)
    else if f.split.value.partIndex >= f.split.value.partCount then Some(SplitIndexOutOfRange)
    else if |entries| >= lim.maxConcurrent && f.split.value.partId !in entries then Some(SplitBufferFull)
    else None
  }

  /** Files one part in its entry. */
  function Store(entries: Entries, split: SplitInfo, e: Entry, payload: Bytes, now: Instant)
    : (Entries, Result<Option<Frame>, DecodeError>)
  {
    var id, index := split.partId, split.partIndex;
    if e.partCount != split.partCount || |e.parts| != split.partCount then (entries[id := e], Err(SplitCountMismatch))
    else if index >= |e.parts| then (entries[id := e], Err(SplitIndexOutOfRange))
    else if e.parts[index].Some? then (entries[id := e], Ok(None))
    else
      var stored := e.(parts := e.parts[index := Some(payload)], received := e.received + 1, lastUpdate := now);
      if stored.received != |stored.parts| then (entries[id := stored], Ok(None))
      else if !Complete(stored.parts) then (entries[id := stored], Err(SplitCountMismatch))
      else (entries - {id}, Ok(Some(Assembled(stored))))
  }

  function Add(entries: Entries, lim: Limits, f: Frame, now: Instant): (Entries, Result<Option<Frame>, DecodeError>) {
    if !f.header.isSplit then (entries, Ok(Some(f)))
    else
      var live := Prune(entries, lim.ttl, now);
      if SplitFault(live, lim, f).Some? then (live, Err(SplitFault(live, lim, f).value))
      else
        var id := f.split.value.partId;
        var e := if id in live then live[id] else FreshEntry(f, now);
        Store(live, f.split.value, e, f.payload, now)
  }

  // ----- what every call keeps -----

  /** An entry counts its filled slots and still misses one. */
  ghost predicate EntryOk(e: Entry, lim: Limits) {
    && e.received == Filled(e.parts) < |e.parts| == e.partCount
    && e.partCount <= lim.maxParts
  }

  ghost predicate AssemblerOk(entries: Entries, lim: Limits) {
    && |entries| <= lim.maxConcurrent
    && forall id <- entries :: EntryOk(entries[id], lim)
  }

  lemma PruneKeepsOk(entries: Entries, lim: Limits, now: Instant)
    requires AssemblerOk(entries, lim)
    ensures AssemblerOk(Prune(entries, lim.ttl, now), lim)
  {
    SubmapSize(Prune(entries, lim.ttl, now), entries);
  }

  lemma StoreKeepsOk(entries: Entries, lim: Limits, split: SplitInfo, e: Entry, payload: Bytes, now: Instant)
    requires AssemblerOk(entries, lim) && EntryOk(e, lim)
    requires |entries| < lim.maxConcurrent || split.partId in entries
    ensures AssemblerOk(Store(entries, split, e, payload, now).0, lim)
  {
    var (after, r) := Store(entries, split, e, payload, now);
    if e.partCount == split.partCount && split.partIndex < |e.parts| && e.parts[split.partIndex].None? {
      FilledSet(e.parts, split.partIndex, payload);
      FilledComplete(e.parts[split.partIndex := Some(payload)]);
    }
    if split.partId in after {
      assert after.Keys == entries.Keys + {split.partId};
    } else {
      SubmapSize(after, entries);
    }
  }

  /** Every call keeps the count of stored parts exact, each entry incomplete, and the number
      of entries within the limit. */
  lemma AddKeepsOk(entries: Entries, lim: Limits, f: Frame, now: Instant)
    requires AssemblerOk(entries, lim)
    ensures AssemblerOk(Add(entries, lim, f, now).0, lim)
  {
    if f.header.isSplit {
      var live := Prune(entries, lim.ttl, now);
      PruneKeepsOk(entries, lim, now);
      if SplitFault(live, lim, f).None? {
        var s := f.split.value;
        if s.partId !in live { FilledBlank(s.partCount); }
        StoreKeepsOk(live, lim, s, if s.partId in live then live[s.partId] else FreshEntry(f, now), f.payload, now);
      }
    }
  }

  // ----- feeding the parts of one message in any order -----

  datatype Arrival = Arrival(frame: Frame, at: Instant)

  function Feed(entries: Entries, lim: Limits, arrivals: seq<Arrival>): Entries {
    if arrivals == [] then entries
    else
      var last := arrivals[|arrivals| - 1];
      Add(Feed(entries, lim, arrivals[..|arrivals| - 1]), lim, last.frame, last.at).0
  }

  /** `sent` is one message cut into parts under the split id `id`. */
  ghost predicate PartsOf(sent: seq<Frame>, id: u16) {
    |sent| < 0x1_0000_0000 && forall j | 0 <= j < |sent| ::
      && sent[j].header == sent[0].header && sent[j].header.isSplit
      && sent[j].split == Some(SplitInfo(|sent|, id, j))
      && sent[j].sequenceIndex == sent[0].sequenceIndex
      && sent[j].orderingIndex == sent[0].orderingIndex && sent[j].orderingChannel == sent[0].orderingChannel
  }

  function Payloads(sent: seq<Frame>): seq<Bytes> { seq(|sent|, i requires 0 <= i < |sent| => sent[i].payload) }

  ghost predicate Concerns(f: Frame, id: u16) { f.header.isSplit && f.split.Some? && f.split.value.partId == id }

  /** Everything arrives less than a time-to-live after `start`, and whatever uses this split
      id is a part of the message. */
  ghost predicate Timely(arrivals: seq<Arrival>, start: Instant, ttl: real, sent: seq<Frame>, id: u16) {
    forall a <- arrivals ::
      && start <= a.at < start + ttl
      && (Concerns(a.frame, id) ==> a.frame in sent)
  }

  ghost predicate Arrived(arrivals: seq<Arrival>, f: Frame) { exists a <- arrivals :: a.frame == f }

  /** The entry of the message holds exactly the parts that arrived. */
  ghost predicate Holds(e: Entry, sent: seq<Frame>, arrivals: seq<Arrival>, start: Instant)
    requires sent != []
  {
    && e.header == sent[0].header && e.sequenceIndex == sent[0].sequenceIndex
    && e.orderingIndex == sent[0].orderingIndex && e.orderingChannel == sent[0].orderingChannel
    && e.partCount == |sent| == |e.parts| && e.received == Filled(e.parts)
    && e.lastUpdate >= start
    && (forall j | 0 <= j < |sent| :: e.parts[j].Some? <==> Arrived(arrivals, sent[j]))
    && (forall j | 0 <= j < |sent| :: e.parts[j].Some? ==> e.parts[j].value == sent[j].payload)
  }

  lemma ArrivedLast(arrivals: seq<Arrival>, a: Arrival, f: Frame)
    ensures Arrived(arrivals + [a], f) <==> Arrived(arrivals, f) || a.frame == f
  {
    if Arrived(arrivals, f) { var x :| x in arrivals && x.frame == f; assert x in arrivals + [a]; }
    if a.frame == f { assert a in arrivals + [a]; }
  }

  /** One more arrival while the entry is live: traffic that is not the message's leaves it
      alone, a new part is filed, a repeat changes nothing, and the last missing part gives
      back the message. */
  lemma OneMore(entries: Entries, lim: Limits, sent: seq<Frame>, id: u16, init: seq<Arrival>, a: Arrival, start: Instant)
    requires sent != [] && PartsOf(sent, id) && |sent| <= lim.maxParts
    requires id in entries && Holds(entries[id], sent, init, start) && !Complete(entries[id].parts)
    requires Timely([a], start, lim.ttl, sent, id)
    ensures var (after, r) := Add(entries, lim, a.frame, a.at);
            if forall f <- sent :: Arrived(init + [a], f) then
              && id !in after && r.Ok? && r.value.Some?
              && r.value.value.payload == Concat(Payloads(sent))
              && Delivers(r.value.value, sent[0])
            else
              && id in after && Holds(after[id], sent, init + [a], start) && !Complete(after[id].parts)
              && (Concerns(a.frame, id) ==> r == Ok(None))
  {
    var e := entries[id];
    assert a in [a];
    assert !Expired(e, lim.ttl, a.at);
    forall j | 0 <= j < |sent| ensures Arrived(init + [a], sent[j]) <==> Arrived(init, sent[j]) || a.frame == sent[j] {
      ArrivedLast(init, a, sent[j]);
    }
    CompleteWhenAll(e, sent, init, start);
    if Concerns(a.frame, id) {
      var j :| 0 <= j < |sent| && sent[j] == a.frame;
      var live := Prune(entries, lim.ttl, a.at);
      assert id in live && live[id] == e;
      assert SplitFault(live, lim, a.frame).None?;
      if e.parts[j].None? {
        OwnPart(live, lim, sent, id, e, init, a, start, j);
      } else {
        assert live[id := e] == live;
        forall f <- sent ensures Arrived(init + [a], f) <==> Arrived(init, f) {
          var i :| 0 <= i < |sent| && sent[i] == f;
        }
      }
    } else {
      Foreign(entries, lim, a, id);
      forall j | 0 <= j < |sent| ensures a.frame != sent[j] { assert Concerns(sent[j], id); }
      forall f <- sent ensures Arrived(init + [a], f) <==> Arrived(init, f) {
        var i :| 0 <= i < |sent| && sent[i] == f;
      }
    }
  }

  /** The frame handed up carries the message's class, numbers and channel. */
  ghost predicate Delivers(f: Frame, part: Frame) {
    && f.header == FrameHeader(part.header.reliability, false, part.header.needsBas) && f.split.None?
    && f.sequenceIndex == part.sequenceIndex && f.orderingIndex == part.orderingIndex
    && f.orderingChannel == part.orderingChannel && f.bitLength == BitLength(|f.payload|)
  }

  lemma CompleteWhenAll(e: Entry, sent: seq<Frame>, arrivals: seq<Arrival>, start: Instant)
    requires sent != [] && Holds(e, sent, arrivals, start)
    ensures Complete(e.parts) <==> forall f <- sent :: Arrived(arrivals, f)
    ensures Complete(e.parts) ==> Values(e.parts) == Payloads(sent)
  {
    if forall f <- sent :: Arrived(arrivals, f) {
      forall p <- e.parts ensures p.Some? {
        var j :| 0 <= j < |e.parts| && e.parts[j] == p;
        assert sent[j] in sent;
      }
    }
    if Complete(e.parts) {
      forall f <- sent ensures Arrived(arrivals, f) {
        var j :| 0 <= j < |sent| && sent[j] == f;
        assert e.parts[j] in e.parts;
      }
      forall j | 0 <= j < |sent| ensures e.parts[j].Some? { assert e.parts[j] in e.parts; }
    }
  }

  /** A frame that does not use the split id leaves its live entry untouched. */
  lemma Foreign(entries: Entries, lim: Limits, a: Arrival, id: u16)
    requires id in entries && !Expired(entries[id], lim.ttl, a.at) && !Concerns(a.frame, id)
    ensures var after := Add(entries, lim, a.frame, a.at).0;
            id in after && after[id] == entries[id]
  {
  }

  /** A part that was missing. */
  lemma OwnPart(live: Entries, lim: Limits, sent: seq<Frame>, id: u16, e: Entry, init: seq<Arrival>, a: Arrival,
                start: Instant, j: nat)
    requires sent != [] && PartsOf(sent, id) && j < |sent| && a.frame == sent[j] && a.at >= start
    requires Holds(e, sent, init, start) && e.parts[j].None?
    requires forall i | 0 <= i < |sent| :: Arrived(init + [a], sent[i]) <==> Arrived(init, sent[i]) || a.frame == sent[i]
    ensures var (after, r) := Store(live, sent[j].split.value, e, sent[j].payload, a.at);
            if forall f <- sent :: Arrived(init + [a], f) then
              && id !in after && r.Ok? && r.value.Some?
              && r.value.value.payload == Concat(Payloads(sent)) && Delivers(r.value.value, sent[0])
            else
              && id in after && Holds(after[id], sent, init + [a], start) && !Complete(after[id].parts) && r == Ok(None)
  {
    var stored := e.(parts := e.parts[j := Some(sent[j].payload)], received := e.received + 1, lastUpdate := a.at);
    FilledSet(e.parts, j, sent[j].payload);
    FilledComplete(stored.parts);
    forall i | 0 <= i < |sent| && i != j ensures sent[i] != sent[j] {
      assert sent[i].split.value.partIndex == i && sent[j].split.value.partIndex == j;
    }
    assert Holds(stored, sent, init + [a], start);
    CompleteWhenAll(stored, sent, init + [a], start);
  }

  ghost predicate AllArrived(sent: seq<Frame>, arrivals: seq<Arrival>) { forall f <- sent :: Arrived(arrivals, f) }

  /** What the arrival `a` yields after `init`: nothing before the last distinct part, then the
      message, and nothing of the message stays behind. */
  ghost predicate Yields(before: Entries, lim: Limits, sent: seq<Frame>, id: u16, init: seq<Arrival>, a: Arrival, start: Instant)
    requires sent != []
  {
    var (after, r) := Add(before, lim, a.frame, a.at);
    if AllArrived(sent, init + [a]) then
      && id !in after && r.Ok? && r.value.Some?
      && r.value.value.payload == Concat(Payloads(sent)) && Delivers(r.value.value, sent[0])
    else
      && id in after && Holds(after[id], sent, init + [a], start) && !Complete(after[id].parts)
      && (Concerns(a.frame, id) ==> r == Ok(None))
  }

  /** The first part to arrive opens the entry. */
  lemma FirstPart(entries: Entries, lim: Limits, sent: seq<Frame>, id: u16, a: Arrival, start: Instant)
    requires sent != [] && PartsOf(sent, id) && |sent| <= lim.maxParts
    requires a.frame in sent && a.at >= start
    requires id !in Prune(entries, lim.ttl, a.at) && |Prune(entries, lim.ttl, a.at)| < lim.maxConcurrent
    ensures Yields(entries, lim, sent, id, [], a, start)
  {
    var j :| 0 <= j < |sent| && sent[j] == a.frame;
    var e := FreshEntry(a.frame, a.at);
    FilledBlank(|sent|);
    assert Holds(e, sent, [], start);
    forall i | 0 <= i < |sent| ensures Arrived([] + [a], sent[i]) <==> Arrived([], sent[i]) || a.frame == sent[i] {
      ArrivedLast([], a, sent[i]);
    }
    OwnPart(Prune(entries, lim.ttl, a.at), lim, sent, id, e, [], a, start, j);
  }

  /** Fed in any order, with repeats, with other traffic in between, and within the
      time-to-live, the parts yield nothing until the last distinct one and then exactly the
      message. */
  lemma {:induction false} AnyOrderReassembles(
    entries: Entries, lim: Limits, sent: seq<Frame>, id: u16, init: seq<Arrival>, a: Arrival, start: Instant)
    requires sent != [] && PartsOf(sent, id) && |sent| <= lim.maxParts
    requires Timely(init + [a], start, lim.ttl, sent, id)
    requires (init + [a])[0].frame in sent
    requires var at := (init + [a])[0].at; id !in Prune(entries, lim.ttl, at) && |Prune(entries, lim.ttl, at)| < lim.maxConcurrent
    requires !AllArrived(sent, init)
    ensures Yields(Feed(entries, lim, init), lim, sent, id, init, a, start)
    decreases |init|
  {
    assert a in init + [a];
    if init == [] {
      assert (init + [a])[0] == a;
      FirstPart(entries, lim, sent, id, a, start);
    } else {
      var n := |init| - 1;
      var earlier, b := init[..n], init[n];
      assert init == earlier + [b];
      forall x <- earlier + [b] ensures x in init + [a] {}
      assert !AllArrived(sent, earlier) by {
        var f :| f in sent && !Arrived(init, f);
        ArrivedLast(earlier, b, f);
      }
      assert (earlier + [b])[0] == (init + [a])[0];
      AnyOrderReassembles(entries, lim, sent, id, earlier, b, start);
      assert Timely([a], start, lim.ttl, sent, id);
      OneMore(Feed(entries, lim, init), lim, sent, id, init, a, start);
    }
  }

  // ----- the object -----

  class SplitAssembler {
    var entries: Entries
    const ttl: real
    const maxParts: nat
    const maxConcurrent: nat

    ghost function Lim(): Limits { Limits(ttl, maxParts, maxConcurrent) }

    ghost predicate Valid()
      reads this
    {
      AssemblerOk(entries, Lim())
    }

    /** A zero time-to-live means the default of thirty seconds. */
    constructor (ttl: real, maxParts: nat, maxConcurrent: nat)
      ensures Valid() && entries == map[]
      ensures this.ttl == (if ttl == 0.0 then 30000.0 else ttl)
      ensures this.maxParts == Max(maxParts, 1) && this.maxConcurrent == Max(maxConcurrent, 1)
    {
      entries := map[];
      this.ttl := if ttl == 0.0 then 30000.0 else ttl;
      this.maxParts := Max(maxParts, 1);
      this.maxConcurrent := Max(maxConcurrent, 1);
    }

    /** Drops the expired entries and counts them. */
    method PruneExpired(now: Instant) returns (dropped: nat)
      requires Valid()
      modifies this
      ensures Valid() && entries == Prune(old(entries), ttl, now)
      ensures dropped == |old(entries)| - |entries|
    {
      dropped := 0;
      var todo := entries.Keys;
      while todo != {}
        invariant todo <= entries.Keys <= old(entries.Keys)
        invariant forall id <- entries :: entries[id] == old(entries)[id] && (id in todo || !Expired(entries[id], ttl, now))
        invariant forall id <- old(entries) :: id in entries || Expired(old(entries)[id], ttl, now)
        invariant dropped + |entries| == |old(entries)|
        decreases |todo|
      {
        var id :| id in todo;
        todo := todo - {id};
        if Since(now, entries[id].lastUpdate) >= ttl {
          ghost var keys := entries.Keys;
          entries := entries - {id};
          assert entries.Keys == keys - {id};
          dropped := dropped + 1;
        }
      }
      PruneKeepsOk(old(entries), Lim(), now);
    }

    method Merge(parts: seq<Option<Bytes>>) returns (r: Result<Bytes, DecodeError>)
      ensures r == if Complete(parts) then Ok(Concat(Values(parts))) else Err(SplitCountMismatch)
    {
      var merged: Bytes := [];
      for i := 0 to |parts|
        invariant Complete(parts[..i]) && merged == Concat(Values(parts[..i]))
      {
        if parts[i].None? {
          assert parts[i] in parts;
          return Err(SplitCountMismatch);
        }
        assert parts[..i + 1] == parts[..i] + [parts[i]];
        assert Values(parts[..i + 1])[..i] == Values(parts[..i]);
        merged := merged + parts[i].value;
      }
      assert parts[..|parts|] == parts;
      r := Ok(merged);
    }

    /** Passes unsplit frames through; files a part and hands up the message it completes. */
    method AddFrame(f: Frame, now: Instant) returns (r: Result<Option<Frame>, DecodeError>)
      requires Valid()
      modifies this
      ensures Valid() && (entries, r) == Add(old(entries), Lim(), f, now)
    {
      AddKeepsOk(entries, Lim(), f, now);
      if !f.header.isSplit { return Ok(Some(f)); }
      var _ := PruneExpired(now);
      if f.split.None? { return Err(MissingSplitInfo); }
      var split := f.split.value;
      if split.partCount == 0 { return Err(SplitCountZero); }
      if split.partCount > maxParts { return Err(SplitTooLarge); }
      if split.partIndex >= split.partCount { return Err(SplitIndexOutOfRange); }
      if |entries| >= maxConcurrent && split.partId !in entries { return Err(SplitBufferFull); }
      r := FilePart(f, split, now);
    }

    /** The part of `AddFrame` that works on the entry. */
    method FilePart(f: Frame, split: SplitInfo, now: Instant) returns (r: Result<Option<Frame>, DecodeError>)
      requires f.split == Some(split)
      modifies this
      ensures var e := if split.partId in old(entries) then old(entries)[split.partId] else FreshEntry(f, now);
              (entries, r) == Store(old(entries), split, e, f.payload, now)
    {
      var id, index := split.partId, split.partIndex;
      if id !in entries { entries := entries[id := FreshEntry(f, now)]; }
      var e := entries[id];
      assert entries == old(entries)[id := e];
      if e.partCount != split.partCount || |e.parts| != split.partCount { return Err(SplitCountMismatch); }
      if index >= |e.parts| { return Err(SplitIndexOutOfRange); }
      if e.parts[index].Some? { return Ok(None); }
      e := e.(parts := e.parts[index := Some(f.payload)], received := e.received + 1, lastUpdate := now);
      entries := entries[id := e];
      assert entries == old(entries)[id := e];
      if e.received != |e.parts| { return Ok(None); }
      var payload := Merge(e.parts);
      if payload.Err? { return Err(payload.error); }
      var assembled := Frame(FrameHeader(e.header.reliability, false, e.header.needsBas), BitLength(|payload.value|),
                             e.reliableIndex, e.sequenceIndex, e.orderingIndex, e.orderingChannel, None, payload.value);
      entries := entries - {id};
      assert entries == old(entries) - {id};
      r := Ok(Some(assembled));
    }
  }
}
