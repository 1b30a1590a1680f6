/** The byte budget of a relay session (src/proxy.rs): two tasks check shared counters and then
    add to them, with no lock in between. The proxy task reserves for payloads going up and
    releases what comes down; the session task does the reverse. Every atomic access is a step
    of its own. */
module Relay {
  import opened Base

  /** The direction in which a task reserves: `Down` is downstream to upstream, reserved by the
      proxy task; `Up` is upstream to downstream, reserved by the session task. */
  datatype Side = Down | Up {
    function Other(): Side { if Down? then Up else Down }
  }

  datatype Counters = Counters(packets: nat, bytes: nat)

  /** Where a task is: reading the counters, past the check, adding, about to hand the payload
      over, or subtracting. */
  datatype Place =
    | Idle
    | Read1(len: nat, packets: nat)
    | Read2(len: nat, packets: nat, bytes: nat)
    | Read3(len: nat, packets: nat, bytes: nat, down: nat)
    | Read4(len: nat, packets: nat, bytes: nat, down: nat, up: nat)
    | Passed(len: nat)
    | AddedPacket(len: nat)
    | Reserved(len: nat)
    | Release1(side: Side, len: nat)
    | Release2(side: Side, len: nat)

  datatype Limits = Limits(downPackets: nat, downBytes: nat, upPackets: nat, upBytes: nat, total: nat) {
    function Packets(d: Side): nat { Max(if d.Down? then downPackets else upPackets, 1) }

    function Bytes(d: Side): nat { Max(if d.Down? then downBytes else upBytes, 1) }

    function Total(): nat { Max(total, 1) }
  }

  /** Counters and payloads handed over but not yet taken, for both directions, and the tasks. */
  datatype State = State(
    down: Counters, up: Counters, toSession: seq<nat>, toProxy: seq<nat>, proxy: Place, session: Place)
  {
    function Count(d: Side): Counters { if d.Down? then down else up }

    function Queue(d: Side): seq<nat> { if d.Down? then toSession else toProxy }

    function Task(d: Side): Place { if d.Down? then proxy else session }

    function WithCount(d: Side, c: Counters): State { if d.Down? then this.(down := c) else this.(up := c) }

    function WithQueue(d: Side, q: seq<nat>): State { if d.Down? then this.(toSession := q) else this.(toProxy := q) }

    function WithTask(d: Side, p: Place): State { if d.Down? then this.(proxy := p) else this.(session := p) }
  }

  const START := State(Counters(0, 0), Counters(0, 0), [], [], Idle, Idle)

  // ----- steps -----

  datatype Move =
    | Offer(d: Side, len: nat)
    | Read(d: Side)
    | Check(d: Side)
    | Add(d: Side)
    | Hand(d: Side, ok: bool)
    | Take(d: Side)
    | Subtract(d: Side)

  function Minus(a: nat, b: nat): nat { if a >= b then a - b else 0 }

  predicate Can(r: State, m: Move) {
    var t := r.Task(m.d);
    match m
    case Offer(_, _) => t.Idle?
    case Read(_) => t.Read1? || t.Read2? || t.Read3?
    case Check(_) => t.Read4?
    case Add(_) => t.Passed? || t.AddedPacket?
    case Hand(_, _) => t.Reserved?
    case Take(d) => t.Idle? && r.Queue(d.Other()) != []
    case Subtract(_) => t.Release1? || t.Release2?
  }

  function ReadNext(r: State, d: Side): State {
    match r.Task(d)
    case Read1(len, packets) => r.WithTask(d, Read2(len, packets, r.Count(d).bytes))
    case Read2(len, packets, bytes) => r.WithTask(d, Read3(len, packets, bytes, r.down.bytes))
    case Read3(len, packets, bytes, down) => r.WithTask(d, Read4(len, packets, bytes, down, r.up.bytes))
    case _ => r
  }

  predicate Exceeds(lim: Limits, d: Side, t: Place)
    requires t.Read4?
  {
    t.packets + 1 > lim.Packets(d) || t.bytes + t.len > lim.Bytes(d) || t.down + t.up + t.len > lim.Total()
  }

  function CheckRead(r: State, lim: Limits, d: Side): State {
    match r.Task(d)
    case Read4(len, _, _, _, _) => r.WithTask(d, if Exceeds(lim, d, r.Task(d)) then Idle else Passed(len))
    case _ => r
  }

  function AddNext(r: State, d: Side): State {
    var c := r.Count(d);
    match r.Task(d)
    case Passed(len) => r.WithCount(d, c.(packets := c.packets + 1)).WithTask(d, AddedPacket(len))
    case AddedPacket(len) => r.WithCount(d, c.(bytes := c.bytes + len)).WithTask(d, Reserved(len))
    case _ => r
  }

  /** The payload goes into the channel, or the channel refuses it and the task takes its
      reservation back. */
  function HandOver(r: State, d: Side, ok: bool): State {
    match r.Task(d)
    case Reserved(len) =>
      if ok then r.WithQueue(d, r.Queue(d) + [len]).WithTask(d, Idle) else r.WithTask(d, Release1(d, len))
    case _ => r
  }

  function TakeNext(r: State, d: Side): State {
    var q := r.Queue(d.Other());
    if q == [] then r else r.WithQueue(d.Other(), q[1..]).WithTask(d, Release1(d.Other(), q[0]))
  }

  function SubtractNext(r: State, d: Side): State {
    match r.Task(d)
    case Release1(s, len) =>
      var c := r.Count(s);
      r.WithCount(s, c.(packets := Minus(c.packets, 1))).WithTask(d, Release2(s, len))
    case Release2(s, len) =>
      var c := r.Count(s);
      r.WithCount(s, c.(bytes := Minus(c.bytes, len))).WithTask(d, Idle)
    case _ => r
  }

  function Step(r: State, lim: Limits, m: Move): State {
    match m
    case Offer(d, len) => r.WithTask(d, Read1(len, r.Count(d).packets))
    case Read(d) => ReadNext(r, d)
    case Check(d) => CheckRead(r, lim, d)
    case Add(d) => AddNext(r, d)
    case Hand(d, ok) => HandOver(r, d, ok)
    case Take(d) => TakeNext(r, d)
    case Subtract(d) => SubtractNext(r, d)
  }

  // ----- counters are exactly the outstanding reservations -----

  function Sum(q: seq<nat>): nat { if q == [] then 0 else q[0] + Sum(q[1..]) }

  lemma {:induction false} SumLast(q: seq<nat>, x: nat)
    ensures Sum(q + [x]) == Sum(q) + x
  {
    if q == [] {
      assert q + [x] == [x];
    } else {
      assert (q + [x])[1..] == q[1..] + [x];
      SumLast(q[1..], x);
    }
  }

  /** What a task holds of a direction's packet and byte counters. */
  function HeldPackets(t: Place, own: Side, s: Side): nat {
    match t
    case AddedPacket(_) => if own == s then 1 else 0
    case Reserved(_) => if own == s then 1 else 0
    case Release1(side, _) => if side == s then 1 else 0
    case _ => 0
  }

  function HeldBytes(t: Place, own: Side, s: Side): nat {
    match t
    case Reserved(len) => if own == s then len else 0
    case Release1(side, len) => if side == s then len else 0
    case Release2(side, len) => if side == s then len else 0
    case _ => 0
  }

  ghost predicate Exact(r: State, s: Side) {
    && r.Count(s).packets == |r.Queue(s)| + HeldPackets(r.proxy, Down, s) + HeldPackets(r.session, Up, s)
    && r.Count(s).bytes == Sum(r.Queue(s)) + HeldBytes(r.proxy, Down, s) + HeldBytes(r.session, Up, s)
  }

  // ----- each direction keeps its own limits -----

  /** Bytes of a task that has passed its check but not yet counted them. */
  function Pending(t: Place): nat {
    match t
    case Passed(len) => len
    case AddedPacket(len) => len
    case _ => 0
  }

  /** What a task has read of its own direction is not too small: only it adds there. */
  ghost predicate OwnReads(r: State, lim: Limits, d: Side) {
    var c, t := r.Count(d), r.Task(d);
    && c.packets <= lim.Packets(d) && c.bytes + Pending(t) <= lim.Bytes(d)
    && (t.Passed? ==> c.packets + 1 <= lim.Packets(d))
    && (t.Read1? || t.Read2? || t.Read3? || t.Read4? ==> c.packets <= t.packets)
    && (t.Read2? || t.Read3? || t.Read4? ==> c.bytes <= t.bytes)
    && (t.Read3? || t.Read4? ==> d.Down? ==> c.bytes <= t.down)
    && (t.Read4? ==> d.Up? ==> c.bytes <= t.up)
  }

  // ----- both directions together -----

  predicate Small(t: Place, most: nat) {
    t.Idle? || t.len <= most
  }

  function Both(r: State): nat { r.down.bytes + r.up.bytes }

  /** The proxy task has read the other direction's bytes: either at most one payload has been
      granted there since, or what is granted without the proxy's own payload is within the
      limit. */
  ghost predicate ProxyRead(r: State, lim: Limits, most: nat) {
    r.proxy.Read4? ==>
      || r.up.bytes + Pending(r.session) <= r.proxy.up + most
      || Both(r) + Pending(r.session) <= lim.Total()
  }

  ghost predicate SessionRead(r: State, lim: Limits, most: nat) {
    r.session.Read3? || r.session.Read4? ==>
      || r.down.bytes + Pending(r.proxy) <= r.session.down + most
      || Both(r) + Pending(r.proxy) <= lim.Total()
  }

  /** When both tasks have read each other's counter, the later of the two reads is still valid. */
  ghost predicate LaterRead(r: State) {
    r.proxy.Read4? && (r.session.Read3? || r.session.Read4?) ==>
      r.down.bytes <= r.session.down || r.up.bytes <= r.proxy.up
  }

  /** Everything granted exceeds the total limit by at most one payload. */
  ghost predicate Together(r: State, lim: Limits, most: nat) {
    && Both(r) + Pending(r.proxy) + Pending(r.session) <= lim.Total() + most
    && ProxyRead(r, lim, most) && SessionRead(r, lim, most) && LaterRead(r)
  }

  predicate AllSmall(q: seq<nat>, most: nat) { forall x <- q :: x <= most }

  ghost predicate Counted(r: State, lim: Limits) {
    Exact(r, Down) && Exact(r, Up) && OwnReads(r, lim, Down) && OwnReads(r, lim, Up)
  }

  ghost predicate SmallAll(r: State, most: nat) {
    Small(r.proxy, most) && Small(r.session, most) && AllSmall(r.toSession, most) && AllSmall(r.toProxy, most)
  }

  ghost predicate Inv(r: State, lim: Limits, most: nat) {
    Counted(r, lim) && SmallAll(r, most) && Together(r, lim, most)
  }

  lemma OfferInv(r: State, lim: Limits, d: Side, len: nat, most: nat)
    requires Inv(r, lim, most) && Can(r, Offer(d, len)) && len <= most
    ensures Inv(Step(r, lim, Offer(d, len)), lim, most)
  {
    if d.Down? {} else {}
  }

  lemma ReadCounted(r: State, lim: Limits, d: Side)
    requires Counted(r, lim) && Can(r, Read(d))
    ensures Counted(ReadNext(r, d), lim)
  {
    if d.Down? {} else {}
  }

  /** A fresh read of the other direction is right at that moment. */
  lemma ReadTogether(r: State, lim: Limits, d: Side, most: nat)
    requires Together(r, lim, most) && SmallAll(r, most) && Can(r, Read(d))
    ensures Together(ReadNext(r, d), lim, most)
  {
    if d.Down? {} else {}
  }

  lemma ReadInv(r: State, lim: Limits, d: Side, most: nat)
    requires Inv(r, lim, most) && Can(r, Read(d))
    ensures Inv(Step(r, lim, Read(d)), lim, most)
  {
    ReadCounted(r, lim, d);
    ReadTogether(r, lim, d, most);
  }

  /** Passing the check is the only step that grants bytes. */
  lemma CheckInv(r: State, lim: Limits, d: Side, most: nat)
    requires Inv(r, lim, most) && Can(r, Check(d))
    ensures Inv(Step(r, lim, Check(d)), lim, most)
  {
    if d.Down? {} else {}
  }

  lemma AddInv(r: State, lim: Limits, d: Side, most: nat)
    requires Inv(r, lim, most) && Can(r, Add(d))
    ensures Inv(Step(r, lim, Add(d)), lim, most)
  {
    AddExact(r, lim, d, Down);
    AddExact(r, lim, d, Up);
    AddOwn(r, lim, d, Down);
    AddOwn(r, lim, d, Up);
    AddTogether(r, lim, d, most);
  }

  lemma AddExact(r: State, lim: Limits, d: Side, s: Side)
    requires Counted(r, lim) && Can(r, Add(d))
    ensures Exact(AddNext(r, d), s)
  {
    if d.Down? {} else {}
  }

  lemma AddOwn(r: State, lim: Limits, d: Side, s: Side)
    requires Counted(r, lim) && Can(r, Add(d))
    ensures OwnReads(AddNext(r, d), lim, s)
  {
    if d.Down? {} else {}
  }

  /** Adding turns what was granted into what is counted. */
  lemma AddTogether(r: State, lim: Limits, d: Side, most: nat)
    requires Together(r, lim, most) && Can(r, Add(d))
    ensures Together(AddNext(r, d), lim, most)
  {
    if d.Down? {} else {}
  }

  lemma HandInv(r: State, lim: Limits, d: Side, ok: bool, most: nat)
    requires Inv(r, lim, most) && Can(r, Hand(d, ok))
    ensures Inv(Step(r, lim, Hand(d, ok)), lim, most)
  {
    HandExact(r, lim, d, ok, Down);
    HandExact(r, lim, d, ok, Up);
    HandOthers(r, lim, d, ok, most);
  }

  lemma HandExact(r: State, lim: Limits, d: Side, ok: bool, s: Side)
    requires Counted(r, lim) && Can(r, Hand(d, ok))
    ensures Exact(HandOver(r, d, ok), s)
  {
    SumLast(r.Queue(d), r.Task(d).len);
    if d.Down? {} else {}
  }

  lemma HandOthers(r: State, lim: Limits, d: Side, ok: bool, most: nat)
    requires Inv(r, lim, most) && Can(r, Hand(d, ok))
    ensures var v := HandOver(r, d, ok);
            OwnReads(v, lim, Down) && OwnReads(v, lim, Up) && SmallAll(v, most) && Together(v, lim, most)
  {
    if d.Down? {} else {}
  }

  lemma TakeInv(r: State, lim: Limits, d: Side, most: nat)
    requires Inv(r, lim, most) && Can(r, Take(d))
    ensures Inv(Step(r, lim, Take(d)), lim, most)
  {
    SumFirst(r.Queue(d.Other()), most);
    if d.Down? {} else {}
  }

  lemma SumFirst(q: seq<nat>, most: nat)
    requires q != [] && AllSmall(q, most)
    ensures Sum(q) == q[0] + Sum(q[1..]) && q[0] <= most && AllSmall(q[1..], most)
  {
    assert q[0] in q;
    forall x <- q[1..] ensures x <= most { assert x in q; }
  }

  lemma SubtractInv(r: State, lim: Limits, d: Side, most: nat)
    requires Inv(r, lim, most) && Can(r, Subtract(d))
    ensures Inv(Step(r, lim, Subtract(d)), lim, most)
  {
    SubtractExact(r, lim, d, Down);
    SubtractExact(r, lim, d, Up);
    SubtractOwn(r, lim, d, Down);
    SubtractOwn(r, lim, d, Up);
    SubtractTogether(r, lim, d, most);
  }

  lemma SubtractExact(r: State, lim: Limits, d: Side, s: Side)
    requires Counted(r, lim) && Can(r, Subtract(d))
    ensures Exact(SubtractNext(r, d), s)
  {
    if d.Down? { ProxySubtracts(r, s); } else { SessionSubtracts(r, s); }
  }

  lemma ProxySubtracts(r: State, s: Side)
    requires Exact(r, Down) && Exact(r, Up) && Can(r, Subtract(Down))
    ensures Exact(SubtractNext(r, Down), s)
  {
    if r.proxy.side == s {} else {}
  }

  lemma SessionSubtracts(r: State, s: Side)
    requires Exact(r, Down) && Exact(r, Up) && Can(r, Subtract(Up))
    ensures Exact(SubtractNext(r, Up), s)
  {
    if r.session.side == s {} else {}
  }

  lemma SubtractOwn(r: State, lim: Limits, d: Side, s: Side)
    requires Counted(r, lim) && Can(r, Subtract(d))
    ensures OwnReads(SubtractNext(r, d), lim, s)
  {
    if d.Down? {} else {}
  }

  /** Giving back only makes every read a safer one. */
  lemma SubtractTogether(r: State, lim: Limits, d: Side, most: nat)
    requires Together(r, lim, most) && Can(r, Subtract(d))
    ensures Together(SubtractNext(r, d), lim, most)
  {
    if d.Down? {} else {}
  }

  lemma StepInv(r: State, lim: Limits, m: Move, most: nat)
    requires Inv(r, lim, most) && Can(r, m) && (m.Offer? ==> m.len <= most)
    ensures Inv(Step(r, lim, m), lim, most)
  {
    match m {
      case Offer(d, len) => OfferInv(r, lim, d, len, most);
      case Read(d) => ReadInv(r, lim, d, most);
      case Check(d) => CheckInv(r, lim, d, most);
      case Add(d) => AddInv(r, lim, d, most);
      case Hand(d, ok) => HandInv(r, lim, d, ok, most);
      case Take(d) => TakeInv(r, lim, d, most);
      case Subtract(d) => SubtractInv(r, lim, d, most);
    }
  }

  // ----- every interleaving -----

  /** The state after the moves, each of them possible when it is made. */
  predicate Possible(r: State, lim: Limits, moves: seq<Move>)
    decreases |moves|
  {
    moves == [] || (Can(r, moves[0]) && Possible(Step(r, lim, moves[0]), lim, moves[1..]))
  }

  function After(r: State, lim: Limits, moves: seq<Move>): State
    decreases |moves|
  {
    if moves == [] then r else After(Step(r, lim, moves[0]), lim, moves[1..])
  }

  ghost predicate Offers(moves: seq<Move>, most: nat) { forall m <- moves :: m.Offer? ==> m.len <= most }

  lemma {:induction false} RunInv(r: State, lim: Limits, moves: seq<Move>, most: nat)
    requires Inv(r, lim, most) && Possible(r, lim, moves) && Offers(moves, most)
    ensures Inv(After(r, lim, moves), lim, most)
    decreases |moves|
  {
    if moves != [] {
      assert moves[0] in moves;
      StepInv(r, lim, moves[0], most);
      forall m <- moves[1..] ensures m.Offer? ==> m.len <= most { assert m in moves; }
      RunInv(Step(r, lim, moves[0]), lim, moves[1..], most);
    }
  }

  /** Under every interleaving of the two tasks each direction stays within its own limits, the
      total exceeds its limit by at most the largest payload offered, and when both tasks are
      idle the counters are exactly what waits in the channels. */
  lemma BudgetKept(lim: Limits, moves: seq<Move>, most: nat)
    requires Possible(START, lim, moves) && Offers(moves, most)
    ensures var r := After(START, lim, moves);
            && r.down.packets <= lim.Packets(Down) && r.down.bytes <= lim.Bytes(Down)
            && r.up.packets <= lim.Packets(Up) && r.up.bytes <= lim.Bytes(Up)
            && r.down.bytes + r.up.bytes <= lim.Total() + most
            && Exact(r, Down) && Exact(r, Up)
            && (r.proxy.Idle? && r.session.Idle? ==>
                  && r.down == Counters(|r.toSession|, Sum(r.toSession)) && r.up == Counters(|r.toProxy|, Sum(r.toProxy)))
  {
    RunInv(START, lim, moves, most);
  }

  lemma OneMove(r: State, lim: Limits, moves: seq<Move>)
    requires moves != []
    ensures After(r, lim, moves) == After(Step(r, lim, moves[0]), lim, moves[1..])
    ensures Possible(r, lim, moves) == (Can(r, moves[0]) && Possible(Step(r, lim, moves[0]), lim, moves[1..]))
  {
  }

  lemma {:induction false} Joins(r: State, lim: Limits, a: seq<Move>, b: seq<Move>)
    ensures After(r, lim, a + b) == After(After(r, lim, a), lim, b)
    ensures Possible(r, lim, a + b) <==> Possible(r, lim, a) && Possible(After(r, lim, a), lim, b)
    decreases |a|
  {
    if a == [] {
      assert a + b == b;
    } else {
      assert (a + b)[1..] == a[1..] + b;
      Joins(Step(r, lim, a[0]), lim, a[1..], b);
    }
  }

  // ----- one call, uninterrupted -----

  /** A payload is within all three limits. */
  predicate Room(lim: Limits, own: Counters, both: nat, d: Side, len: nat) {
    own.packets + 1 <= lim.Packets(d) && own.bytes + len <= lim.Bytes(d) && both + len <= lim.Total()
  }

  /** The reads of a call, one after the other. */
  function ReadMoves(d: Side, len: nat): seq<Move> { [Offer(d, len), Read(d), Read(d), Read(d)] }

  function FreshRead(r: State, d: Side, len: nat): State {
    r.WithTask(d, Read4(len, r.Count(d).packets, r.Count(d).bytes, r.down.bytes, r.up.bytes))
  }

  lemma ReadAlone(r: State, lim: Limits, d: Side, len: nat)
    requires r.Task(d).Idle?
    ensures Possible(r, lim, ReadMoves(d, len)) && After(r, lim, ReadMoves(d, len)) == FreshRead(r, d, len)
  {
    var moves := ReadMoves(d, len);
    var a := Step(r, lim, moves[0]);
    var b := Step(a, lim, moves[1]);
    var c := Step(b, lim, moves[2]);
    assert Step(c, lim, moves[3]) == FreshRead(r, d, len);
    OneMove(c, lim, moves[3..]);
    assert moves[3..][1..] == [];
    OneMove(b, lim, moves[2..]);
    assert moves[2..][1..] == moves[3..];
    OneMove(a, lim, moves[1..]);
    assert moves[1..][1..] == moves[2..];
    OneMove(r, lim, moves);
  }

  lemma Single(r: State, lim: Limits, m: Move)
    ensures After(r, lim, [m]) == Step(r, lim, m) && (Possible(r, lim, [m]) <==> Can(r, m))
  {
    OneMove(r, lim, [m]);
    assert [m][1..] == [];
  }

  /** Without another task in between, the steps of a call grant a payload exactly when the
      counters at that moment have room for it, so the total limit is kept. */
  lemma CallAlone(r: State, lim: Limits, d: Side, len: nat)
    requires r.Task(d).Idle?
    ensures var moves := ReadMoves(d, len) + [Check(d)];
            && Possible(r, lim, moves)
            && After(r, lim, moves) == r.WithTask(d, if Room(lim, r.Count(d), Both(r), d, len) then Passed(len) else Idle)
  {
    ReadAlone(r, lim, d, len);
    Single(FreshRead(r, d, len), lim, Check(d));
    Joins(r, lim, ReadMoves(d, len), [Check(d)]);
  }

  // ----- when the total limit is kept -----

  /** What a payload counted in a direction changes there. */
  function AfterAdding(r: State, d: Side, len: nat): State {
    r.WithCount(d, Counters(r.Count(d).packets + 1, r.Count(d).bytes + len)).WithTask(d, Reserved(len))
  }

  lemma AddBoth(r: State, lim: Limits, d: Side, len: nat)
    requires r.Task(d) == Passed(len)
    ensures Possible(r, lim, [Add(d)] + [Add(d)]) && After(r, lim, [Add(d)] + [Add(d)]) == AfterAdding(r, d, len)
  {
    Single(r, lim, Add(d));
    Single(Step(r, lim, Add(d)), lim, Add(d));
    Joins(r, lim, [Add(d)], [Add(d)]);
  }

  /** A payload that has room is reserved and handed over before the other task does anything. */
  lemma Deliver(r: State, lim: Limits, d: Side, len: nat) returns (moves: seq<Move>)
    requires r.Task(d).Idle? && Room(lim, r.Count(d), Both(r), d, len)
    ensures Possible(r, lim, moves) && Offers(moves, len)
    ensures After(r, lim, moves)
         == r.WithCount(d, Counters(r.Count(d).packets + 1, r.Count(d).bytes + len)).WithQueue(d, r.Queue(d) + [len])
  {
    var call := ReadMoves(d, len) + [Check(d)];
    var passed := r.WithTask(d, Passed(len));
    var adds, hand := [Add(d)] + [Add(d)], [Hand(d, true)];
    CallAlone(r, lim, d, len);
    AddBoth(passed, lim, d, len);
    Single(AfterAdding(passed, d, len), lim, Hand(d, true));
    Joins(passed, lim, adds, hand);
    Joins(r, lim, call, adds + hand);
    moves := call + (adds + hand);
  }

  /** Both tasks read, then both are granted their payload. */
  lemma Race(r: State, lim: Limits, x: nat, y: nat) returns (moves: seq<Move>)
    requires r.proxy.Idle? && r.session.Idle? && Room(lim, r.down, Both(r), Down, x) && Room(lim, r.up, Both(r), Up, y)
    ensures Possible(r, lim, moves) && Offers(moves, Max(x, y)) && Both(After(r, lim, moves)) == Both(r) + x + y
  {
    var first := FreshRead(r, Down, x);
    var both := FreshRead(first, Up, y);
    ReadAlone(r, lim, Down, x);
    ReadAlone(first, lim, Up, y);
    Joins(r, lim, ReadMoves(Down, x), ReadMoves(Up, y));
    var rest := Granted(both, lim, x, y);
    Joins(r, lim, ReadMoves(Down, x) + ReadMoves(Up, y), rest);
    moves := ReadMoves(Down, x) + ReadMoves(Up, y) + rest;
  }

  lemma Granted(r: State, lim: Limits, x: nat, y: nat) returns (moves: seq<Move>)
    requires r.proxy == Read4(x, r.down.packets, r.down.bytes, r.down.bytes, r.up.bytes)
    requires r.session == Read4(y, r.up.packets, r.up.bytes, r.down.bytes, r.up.bytes)
    requires Room(lim, r.down, Both(r), Down, x) && Room(lim, r.up, Both(r), Up, y)
    ensures Possible(r, lim, moves) && Offers(moves, 0) && Both(After(r, lim, moves)) == Both(r) + x + y
  {
    var one := r.WithTask(Down, Passed(x));
    var two := one.WithTask(Up, Passed(y));
    Single(r, lim, Check(Down));
    Single(one, lim, Check(Up));
    Joins(r, lim, [Check(Down)], [Check(Up)]);
    AddBoth(two, lim, Down, x);
    AddBoth(AfterAdding(two, Down, x), lim, Up, y);
    var checks, downs, ups := [Check(Down)] + [Check(Up)], [Add(Down)] + [Add(Down)], [Add(Up)] + [Add(Up)];
    Joins(two, lim, downs, ups);
    Joins(r, lim, checks, downs + ups);
    moves := checks + (downs + ups);
  }

  /** The most bytes one direction can hold in payloads of at most `most`. */
  function Cap(lim: Limits, d: Side, most: nat): nat { Min(lim.Bytes(d), most * lim.Packets(d)) }

  /** Payloads of at most `most` bytes handed over one by one until a direction holds `amount` more. */
  lemma {:induction false} Fill(r: State, lim: Limits, d: Side, amount: nat, most: nat, n: nat) returns (moves: seq<Move>, after: State)
    requires r.proxy.Idle? && r.session.Idle? && most >= 1 && amount <= most * n
    requires r.Count(d).packets + n < lim.Packets(d) && r.Count(d).bytes + amount <= lim.Bytes(d) && Both(r) + amount <= lim.Total()
    ensures Possible(r, lim, moves) && Offers(moves, most) && after == After(r, lim, moves)
    ensures after.proxy.Idle? && after.session.Idle? && after.Count(d.Other()) == r.Count(d.Other())
    ensures after.Count(d).bytes == r.Count(d).bytes + amount && after.Count(d).packets <= r.Count(d).packets + n
    decreases n
  {
    if amount == 0 {
      moves, after := [], r;
    } else {
      var len := Min(amount, most);
      var first := Deliver(r, lim, d, len);
      var mid := After(r, lim, first);
      OneRound(amount, most, n);
      var rest;
      rest, after := Fill(mid, lim, d, amount - len, most, n - 1);
      Joins(r, lim, first, rest);
      moves := first + rest;
    }
  }

  lemma OneRound(amount: nat, most: nat, n: nat)
    requires 0 < amount <= most * n
    ensures n >= 1 && amount - Min(amount, most) <= most * (n - 1)
  {
    assert most * n == most * (n - 1) + most;
    if n >= 1 { TimesMono(most, 0, n - 1); }
  }

  lemma TimesMono(a: nat, b: nat, c: nat)
    requires b <= c
    ensures a * b <= a * c
  {
  }

  /** If the two directions can hold more than the total, some run makes them. */
  lemma TotalBroken(lim: Limits, most: nat) returns (moves: seq<Move>)
    requires most >= 1 && Cap(lim, Down, most) + Cap(lim, Up, most) > lim.Total()
    ensures Possible(START, lim, moves) && Offers(moves, most) && Both(After(START, lim, moves)) == lim.Total() + 1
  {
    CapPositive(lim, Down, most);
    var a := Min(Cap(lim, Down, most), lim.Total());
    var b := lim.Total() + 1 - a;
    CapPositive(lim, Up, most);
    var x, y := Min(a, most), Min(b, most);
    OneRound(a, most, lim.Packets(Down));
    OneRound(b, most, lim.Packets(Up));
    var downs, mid := Fill(START, lim, Down, a - x, most, lim.Packets(Down) - 1);
    var ups, full := Fill(mid, lim, Up, b - y, most, lim.Packets(Up) - 1);
    var race := Race(full, lim, x, y);
    Joins(START, lim, downs, ups);
    Joins(START, lim, downs + ups, race);
    moves := downs + ups + race;
  }

  lemma CapPositive(lim: Limits, d: Side, most: nat)
    requires most >= 1
    ensures Cap(lim, d, most) >= 1
  {
    TimesMono(most, 1, lim.Packets(d));
  }

  // ----- and otherwise every run keeps it -----

  /** Payloads of a direction whose bytes are counted: those waiting, and those a task holds. */
  function Holds(t: Place, own: Side, s: Side): nat {
    match t
    case Reserved(_) => if own == s then 1 else 0
    case Release1(side, _) => if side == s then 1 else 0
    case Release2(side, _) => if side == s then 1 else 0
    case _ => 0
  }

  function Payloads(r: State, s: Side): nat { |r.Queue(s)| + Holds(r.proxy, Down, s) + Holds(r.session, Up, s) }

  lemma {:induction false} SumBound(q: seq<nat>, most: nat)
    requires AllSmall(q, most)
    ensures Sum(q) <= most * |q|
  {
    if q != [] {
      SumFirst(q, most);
      SumBound(q[1..], most);
      assert most * |q| == most * |q[1..]| + most;
    }
  }

  lemma HeldBound(t: Place, own: Side, s: Side, most: nat)
    requires Small(t, most)
    ensures HeldBytes(t, own, s) <= most * Holds(t, own, s)
  {
  }

  lemma BytesBound(r: State, s: Side, most: nat)
    requires Exact(r, s) && SmallAll(r, most)
    ensures r.Count(s).bytes <= most * Payloads(r, s)
  {
    var a, b, c := |r.Queue(s)|, Holds(r.proxy, Down, s), Holds(r.session, Up, s);
    SumBound(r.Queue(s), most);
    HeldBound(r.proxy, Down, s, most);
    HeldBound(r.session, Up, s, most);
    assert most * (a + b + c) == most * a + most * b + most * c;
  }

  predicate HasPassed(t: Place) { t.Passed? || t.AddedPacket? }

  /** A task that gives back its own reservation has left its packet's place free. */
  ghost predicate OwnRelease(r: State, lim: Limits, d: Side) {
    r.Task(d).Release2? && r.Task(d).side == d ==> r.Count(d).packets + 1 <= lim.Packets(d)
  }

  /** Unless the other task is just giving back bytes of it, a direction holds no more than it can. */
  lemma WithinCap(r: State, lim: Limits, d: Side, most: nat)
    requires Counted(r, lim) && SmallAll(r, most) && OwnRelease(r, lim, d)
    requires !(r.Task(d.Other()).Release2? && r.Task(d.Other()).side == d)
    ensures r.Count(d).bytes + Pending(r.Task(d)) <= Cap(lim, d, most)
  {
    BytesBound(r, d, most);
    var further := if HasPassed(r.Task(d)) then 1 else 0;
    assert Payloads(r, d) + further <= lim.Packets(d) by { if d.Down? {} else {} }
    assert Pending(r.Task(d)) <= most * further by { if d.Down? {} else {} }
    InCap(r.Count(d).bytes, Pending(r.Task(d)), Payloads(r, d), further, lim, d, most);
  }

  /** What the proxy task has read of the other direction still holds, or no payload of its own is
      counted beyond the packets it has read. */
  ghost predicate ProxyFresh(r: State) {
    r.proxy.Read4? ==> r.up.bytes + Pending(r.session) <= r.proxy.up || Payloads(r, Down) <= r.proxy.packets
  }

  ghost predicate SessionFresh(r: State) {
    r.session.Read3? || r.session.Read4? ==>
      r.down.bytes + Pending(r.proxy) <= r.session.down || Payloads(r, Up) <= r.session.packets
  }

  ghost predicate Kept(r: State, lim: Limits) {
    && ProxyFresh(r) && SessionFresh(r) && OwnRelease(r, lim, Down) && OwnRelease(r, lim, Up)
    && Both(r) + Pending(r.proxy) + Pending(r.session) <= lim.Total()
  }

  lemma OfferKept(r: State, lim: Limits, d: Side, len: nat)
    requires Kept(r, lim) && Counted(r, lim) && Can(r, Offer(d, len))
    ensures Kept(Step(r, lim, Offer(d, len)), lim)
  {
    if d.Down? {} else {}
  }

  lemma ReadKept(r: State, lim: Limits, d: Side)
    requires Kept(r, lim) && Counted(r, lim) && Can(r, Read(d))
    ensures Kept(Step(r, lim, Read(d)), lim)
  {
    if d.Down? {} else {}
  }

  /** A payload granted on a read that no longer holds brings its direction to at most its cap, and
      the other one is within its own. */
  lemma StaleGrant(r: State, lim: Limits, d: Side, most: nat)
    requires Counted(r, lim) && SmallAll(r, most) && Kept(r, lim)
    requires r.Task(d).Read4? && !Exceeds(lim, d, r.Task(d)) && Payloads(r, d) <= r.Task(d).packets
    ensures r.Count(d).bytes + r.Task(d).len <= Cap(lim, d, most)
    ensures r.Count(d.Other()).bytes + Pending(r.Task(d.Other())) <= Cap(lim, d.Other(), most)
  {
    StaleOwn(r, lim, d);
    BytesBound(r, d, most);
    assert r.Task(d).len <= most by { if d.Down? {} else {} }
    InCap(r.Count(d).bytes, r.Task(d).len, Payloads(r, d), 1, lim, d, most);
    assert !r.Task(d.Other().Other()).Release2?;
    WithinCap(r, lim, d.Other(), most);
  }

  lemma StaleOwn(r: State, lim: Limits, d: Side)
    requires OwnReads(r, lim, d) && r.Task(d).Read4? && !Exceeds(lim, d, r.Task(d)) && Payloads(r, d) <= r.Task(d).packets
    ensures Payloads(r, d) + 1 <= lim.Packets(d) && r.Count(d).bytes + r.Task(d).len <= lim.Bytes(d)
  {
  }

  lemma InCap(bytes: nat, more: nat, payloads: nat, further: nat, lim: Limits, d: Side, most: nat)
    requires bytes <= most * payloads && more <= most * further && payloads + further <= lim.Packets(d) && bytes + more <= lim.Bytes(d)
    ensures bytes + more <= Cap(lim, d, most)
  {
    TimesMono(most, payloads + further, lim.Packets(d));
    assert most * (payloads + further) == most * payloads + most * further;
  }

  lemma CheckKept(r: State, lim: Limits, d: Side, most: nat)
    requires Kept(r, lim) && Counted(r, lim) && SmallAll(r, most) && Can(r, Check(d))
    requires Cap(lim, Down, most) + Cap(lim, Up, most) <= lim.Total()
    ensures Kept(Step(r, lim, Check(d)), lim)
  {
    if !Exceeds(lim, d, r.Task(d)) && Payloads(r, d) <= r.Task(d).packets { StaleGrant(r, lim, d, most); }
    if d.Down? {} else {}
  }

  lemma AddKept(r: State, lim: Limits, d: Side)
    requires Kept(r, lim) && Counted(r, lim) && Can(r, Add(d))
    ensures Kept(Step(r, lim, Add(d)), lim)
  {
    if d.Down? {} else {}
  }

  lemma HandKept(r: State, lim: Limits, d: Side, ok: bool)
    requires Kept(r, lim) && Counted(r, lim) && Can(r, Hand(d, ok))
    ensures Kept(Step(r, lim, Hand(d, ok)), lim)
  {
    if d.Down? {} else {}
  }

  lemma TakeKept(r: State, lim: Limits, d: Side)
    requires Kept(r, lim) && Counted(r, lim) && Can(r, Take(d))
    ensures Kept(Step(r, lim, Take(d)), lim)
  {
    if d.Down? {} else {}
  }

  lemma SubtractKept(r: State, lim: Limits, d: Side)
    requires Kept(r, lim) && Counted(r, lim) && Can(r, Subtract(d))
    ensures Kept(Step(r, lim, Subtract(d)), lim)
  {
    if d.Down? {} else {}
  }

  lemma StepKept(r: State, lim: Limits, m: Move, most: nat)
    requires Kept(r, lim) && Counted(r, lim) && SmallAll(r, most) && Can(r, m)
    requires Cap(lim, Down, most) + Cap(lim, Up, most) <= lim.Total()
    ensures Kept(Step(r, lim, m), lim)
  {
    match m {
      case Offer(d, len) => OfferKept(r, lim, d, len);
      case Read(d) => ReadKept(r, lim, d);
      case Check(d) => CheckKept(r, lim, d, most);
      case Add(d) => AddKept(r, lim, d);
      case Hand(d, ok) => HandKept(r, lim, d, ok);
      case Take(d) => TakeKept(r, lim, d);
      case Subtract(d) => SubtractKept(r, lim, d);
    }
  }

  lemma {:induction false} RunKept(r: State, lim: Limits, moves: seq<Move>, most: nat)
    requires Inv(r, lim, most) && Kept(r, lim) && Possible(r, lim, moves) && Offers(moves, most)
    requires Cap(lim, Down, most) + Cap(lim, Up, most) <= lim.Total()
    ensures Kept(After(r, lim, moves), lim)
    decreases |moves|
  {
    if moves != [] {
      assert moves[0] in moves;
      StepInv(r, lim, moves[0], most);
      StepKept(r, lim, moves[0], most);
      forall m <- moves[1..] ensures m.Offer? ==> m.len <= most { assert m in moves; }
      RunKept(Step(r, lim, moves[0]), lim, moves[1..], most);
    }
  }

  /** No interleaving with payloads of at most `most` bytes exceeds the total limit. */
  ghost predicate TotalKept(lim: Limits, most: nat) {
    forall moves | Possible(START, lim, moves) && Offers(moves, most) :: Both(After(START, lim, moves)) <= lim.Total()
  }

  /** The total limit is kept in every interleaving with payloads of at most `most` bytes if and
      only if what the two directions can hold in such payloads is together within it. */
  lemma TotalKeptIff(lim: Limits, most: nat)
    requires most >= 1
    ensures TotalKept(lim, most) <==> Cap(lim, Down, most) + Cap(lim, Up, most) <= lim.Total()
  {
    if Cap(lim, Down, most) + Cap(lim, Up, most) <= lim.Total() {
      forall moves | Possible(START, lim, moves) && Offers(moves, most) ensures Both(After(START, lim, moves)) <= lim.Total() {
        RunKept(START, lim, moves, most);
      }
    } else {
      var moves := TotalBroken(lim, most);
    }
  }

  lemma {:induction false} LargestOffer(moves: seq<Move>) returns (most: nat)
    ensures Offers(moves, most)
  {
    most := 0;
    if moves != [] {
      var n := |moves| - 1;
      most := LargestOffer(moves[..n]);
      if moves[n].Offer? && moves[n].len > most { most := moves[n].len; }
      forall m <- moves ensures m.Offer? ==> m.len <= most { assert m in moves[..n] || m == moves[n]; }
    }
  }

  /** With payloads of any size it is kept in every interleaving if and only if the two byte limits
      are together within the total. */
  lemma TotalKeptAlwaysIff(lim: Limits)
    ensures (forall moves | Possible(START, lim, moves) :: Both(After(START, lim, moves)) <= lim.Total())
       <==> lim.Bytes(Down) + lim.Bytes(Up) <= lim.Total()
  {
    if lim.Bytes(Down) + lim.Bytes(Up) <= lim.Total() {
      forall moves | Possible(START, lim, moves) ensures Both(After(START, lim, moves)) <= lim.Total() {
        var most := LargestOffer(moves);
        BudgetKept(lim, moves, most);
      }
    } else {
      var most := Max(lim.Bytes(Down), lim.Bytes(Up));
      TimesMono(most, 1, lim.Packets(Down));
      TimesMono(most, 1, lim.Packets(Up));
      var moves := TotalBroken(lim, most);
    }
  }

  /** The default limits keep the total. */
  lemma DefaultsKeepTotal(moves: seq<Move>)
    requires Possible(START, DEFAULT_LIMITS, moves)
    ensures Both(After(START, DEFAULT_LIMITS, moves)) <= DEFAULT_LIMITS.Total()
  {
    TotalKeptAlwaysIff(DEFAULT_LIMITS);
  }

  const DEFAULT_LIMITS := Limits(256, 512 * 1024, 512, 1024 * 1024, 1536 * 1024)

  /** Two payloads that each fill the total are both granted when each task reads before the other
      adds: the bound of one payload is reached. */
  lemma TotalExceeded() returns (lim: Limits, moves: seq<Move>)
    ensures Possible(START, lim, moves) && Offers(moves, 10) && Both(After(START, lim, moves)) == lim.Total() + 10
  {
    lim := Limits(1, 10, 1, 10, 10);
    moves := Race(START, lim, 10, 10);
  }

  // ----- the object -----

  /** The four counters of a session, and the two calls both tasks make on them. */
  class Budget {
    const lim: Limits
    var down: Counters
    var up: Counters

    constructor (lim: Limits)
      ensures this.lim == lim && down == Counters(0, 0) == up
    {
      this.lim := lim;
      down, up := Counters(0, 0), Counters(0, 0);
    }

    method TryReserve(d: Side, len: nat) returns (ok: bool)
      modifies this
      ensures ok == Room(lim, old(if d.Down? then down else up), old(down.bytes + up.bytes), d, len)
      ensures ok ==> && (d.Down? ==> down == Counters(old(down.packets) + 1, old(down.bytes) + len) && up == old(up))
                     && (d.Up? ==> up == Counters(old(up.packets) + 1, old(up.bytes) + len) && down == old(down))
                     && down.bytes + up.bytes <= lim.Total()
      ensures !ok ==> down == old(down) && up == old(up)
    {
      var own := if d.Down? then down else up;
      var total := down.bytes + up.bytes;
      if own.packets + 1 > lim.Packets(d) || own.bytes + len > lim.Bytes(d) || total + len > lim.Total() { return false; }
      match d {
        case Down =>
          down := down.(packets := down.packets + 1);
          down := down.(bytes := down.bytes + len);
        case Up =>
          up := up.(packets := up.packets + 1);
          up := up.(bytes := up.bytes + len);
      }
      ok := true;
    }

    /** Subtraction stops at zero; it gives back exactly what was reserved if that much is held. */
    method Release(d: Side, len: nat)
      modifies this
      ensures d.Down? ==> down == Counters(Minus(old(down.packets), 1), Minus(old(down.bytes), len)) && up == old(up)
      ensures d.Up? ==> up == Counters(Minus(old(up.packets), 1), Minus(old(up.bytes), len)) && down == old(down)
    {
      match d {
        case Down =>
          down := down.(packets := Minus(down.packets, 1));
          down := down.(bytes := Minus(down.bytes, len));
        case Up =>
          up := up.(packets := Minus(up.packets, 1));
          up := up.(bytes := Minus(up.bytes, len));
      }
    }
  }

  /** Reserving and releasing one after the other puts the counters back. */
  method ReserveRelease(b: Budget, d: Side, len: nat)
    modifies b
    ensures b.down == old(b.down) && b.up == old(b.up)
  {
    var ok := b.TryReserve(d, len);
    if ok { b.Release(d, len); }
  }
}
