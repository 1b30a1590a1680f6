/** The handshake tables of the server (src/transport/server.rs, src/session/state.rs): which
    addresses have a session, in which state, and which of them are still shaking hands. What the
    rate limiter, the sockets and the session queues decide comes in as part of an event. */
module ServerTables {
  import opened Base

  type Addr = nat

  type Key = nat

  datatype SessionState =
    | Offline | Req1Recv | Reply1Sent | Req2Recv | Reply2Sent | ConnReqRecv | ConnReqAcceptedSent
    | NewIncomingRecv | Connected | Closing | Closed
  {
    predicate CanTransitionTo(next: SessionState) {
      this == next ||
      match this
      case Offline => next.Req1Recv?
      case Req1Recv => next.Reply1Sent?
      case Reply1Sent => next.Req2Recv?
      case Req2Recv => next.Reply2Sent?
      case Reply2Sent => next.ConnReqRecv?
      case ConnReqRecv => next.ConnReqAcceptedSent?
      case ConnReqAcceptedSent => next.NewIncomingRecv?
      case NewIncomingRecv => next.Connected?
      case Connected => next.Closing?
      case Closing => next.Closed?
      case Closed => false
    }

    /** Between Reply2 and the end of the handshake. */
    predicate PostReply2() { Reply2Sent? || ConnReqRecv? || ConnReqAcceptedSent? || NewIncomingRecv? }

    /** States in which an offline request is answered with "already connected". */
    predicate Active() { !Offline? && !Req1Recv? && !Reply1Sent? }
  }

  datatype Stage = AwaitingRequest2 | AwaitingConnectionRequest

  datatype Pending = Pending(cookie: Option<u32>, stage: Stage, expiresAt: Instant)

  datatype Keys = Keys(current: Key, previous: Option<Key>)

  datatype Config = Config(maxSessions: nat, sendCookie: bool, mac: (Addr, Key) -> u32, req2Timeout: real, connectTimeout: real)

  datatype Tables = Tables(
    sessions: map<Addr, SessionState>, pipelines: set<Addr>, pending: map<Addr, Pending>, keys: Keys)

  // ----- pieces -----

  /** Takes transitions in turn until one is not allowed. */
  function Transit(s: SessionState, path: seq<SessionState>): (SessionState, bool)
    decreases |path|
  {
    if path == [] then (s, true)
    else if s.CanTransitionTo(path[0]) then Transit(path[0], path[1..])
    else (s, false)
  }

  function Close(t: Tables, addr: Addr): Tables {
    Tables(t.sessions - {addr}, t.pipelines - {addr}, t.pending - {addr}, t.keys)
  }

  predicate ActiveForReject(t: Tables, addr: Addr) {
    addr in t.sessions && addr !in t.pending && t.sessions[addr].Active()
  }

  predicate WouldExceed(t: Tables, cfg: Config, addr: Addr) { addr !in t.sessions && |t.sessions| >= cfg.maxSessions }

  predicate Verifies(cfg: Config, keys: Keys, addr: Addr, cookie: Option<u32>) {
    cookie.Some? && (cfg.mac(addr, keys.current) == cookie.value
                     || (keys.previous.Some? && cfg.mac(addr, keys.previous.value) == cookie.value))
  }

  // ----- offline packets -----

  /** The cookie a pending handshake keeps over a repeated Request1. */
  function KeptCookie(t: Tables, addr: Addr): Option<u32> {
    if addr in t.pending && t.pending[addr].stage == AwaitingRequest2 then t.pending[addr].cookie else None
  }

  function NewCookie(t: Tables, cfg: Config, addr: Addr): Option<u32> {
    if !cfg.sendCookie then None
    else if KeptCookie(t, addr).Some? then KeptCookie(t, addr) else Some(cfg.mac(addr, t.keys.current))
  }

  predicate Request1Accepted(t: Tables, cfg: Config, addr: Addr, welcome: bool) {
    && welcome && !ActiveForReject(t, addr)
    && !(addr in t.pending && t.pending[addr].stage == AwaitingConnectionRequest)
    && !WouldExceed(t, cfg, addr)
  }

  /** `welcome`: the protocol version is supported and the address did not connect recently. */
  function OnRequest1(t: Tables, cfg: Config, addr: Addr, welcome: bool, now: Instant): Tables {
    if !Request1Accepted(t, cfg, addr, welcome) then t
    else
      var cookie := NewCookie(t, cfg, addr);
      var opened1 := Tables(t.sessions[addr := Offline], t.pipelines - {addr},
                            t.pending[addr := Pending(cookie, AwaitingRequest2, now + cfg.req2Timeout)], t.keys);
      var (s, ok) := Transit(Offline, [Req1Recv, Reply1Sent]);
      if ok then opened1.(sessions := opened1.sessions[addr := s]) else Close(opened1, addr)
  }

  /** The request passes every test up to and including the cookie. */
  predicate Request2Genuine(t: Tables, cfg: Config, addr: Addr, welcome: bool, cookie: Option<u32>, now: Instant) {
    && welcome && !ActiveForReject(t, addr) && addr in t.pending && t.pending[addr].expiresAt > now
    && (cfg.sendCookie ==> t.pending[addr].cookie.Some? && Verifies(cfg, t.keys, addr, cookie))
  }

  /** `welcome`: the address did not connect recently, and parse path and server address are ones
      the configuration allows. */
  function OnRequest2(t: Tables, cfg: Config, addr: Addr, welcome: bool, cookie: Option<u32>, now: Instant): Tables {
    if !welcome || ActiveForReject(t, addr) || addr !in t.pending then t
    else if t.pending[addr].expiresAt <= now then Close(t, addr)
    else if !Request2Genuine(t, cfg, addr, welcome, cookie, now) then t
    else if t.pending[addr].stage == AwaitingConnectionRequest then
      if addr !in t.sessions || !t.sessions[addr].PostReply2() then Close(t, addr) else t
    else if WouldExceed(t, cfg, addr) then t
    else if addr !in t.sessions then Close(t, addr)
    else
      var (s, ok) := Transit(t.sessions[addr], [Req2Recv, Reply2Sent]);
      var moved := t.(sessions := t.sessions[addr := s]);
      if !ok then Close(moved, addr)
      else moved.(pending := t.pending[addr := Pending(t.pending[addr].cookie, AwaitingConnectionRequest, now + cfg.connectTimeout)])
  }

  // ----- connected datagrams -----

  /** What became of a reply the server queued. */
  datatype Reply = Queued | NotQueued | CannotEncode

  datatype Control =
    | Ping(reply: Reply)
    | ConnectionRequest(accept: Reply)
    | NewIncomingConnection
    | Disconnection
    | LostConnection
    | Ignored

  /** A frame handed up by the session: nothing in it, application data that the pipeline takes
      or cannot hold, a control packet, or one that does not decode. */
  datatype FrameIn = Empty | App(overflows: bool) | Steer(packet: Control) | Unreadable

  datatype Outcome = Going | Ends(illegal: bool) | Broken

  datatype Loop = Loop(state: SessionState, outcome: Outcome, deeds: seq<Deed>)

  /** What an address has done since its session was created. */
  datatype Deed = Asked(cookie: Option<u32>, keys: Keys) | Requested | Incoming

  function Steered(s: SessionState, c: Control): Loop {
    match c
    case Ping(reply) =>
      if s != Connected then Loop(s, Ends(true), [])
      else if reply.CannotEncode? then Loop(s, Broken, [])
      else if reply.NotQueued? then Loop(s, Ends(false), [])
      else Loop(s, Going, [])
    case ConnectionRequest(accept) =>
      var (s1, ok) := Transit(s, [ConnReqRecv]);
      if !ok then Loop(s1, Ends(true), [])
      else if accept.CannotEncode? then Loop(s1, Broken, [Requested])
      else if accept.NotQueued? then Loop(s1, Ends(false), [Requested])
      else
        var (s2, more) := Transit(s1, [ConnReqAcceptedSent]);
        Loop(s2, if more then Going else Ends(true), [Requested])
    case NewIncomingConnection =>
      var (s1, ok) := Transit(s, [NewIncomingRecv, Connected]);
      if ok then Loop(s1, Going, [Incoming]) else Loop(s1, Ends(true), [])
    case Disconnection => var (s1, ok) := Transit(s, [Closing, Closed]); Loop(s1, Ends(!ok), [])
    case LostConnection => var (s1, ok) := Transit(s, [Closing, Closed]); Loop(s1, Ends(!ok), [])
    case Ignored => Loop(s, Going, [])
  }

  function OneFrame(s: SessionState, f: FrameIn): Loop {
    match f
    case Empty => Loop(s, Going, [])
    case App(overflows) => Loop(s, if overflows then Ends(false) else Going, [])
    case Steer(c) => Steered(s, c)
    case Unreadable => Loop(s, Broken, [])
  }

  function Frames(s: SessionState, frames: seq<FrameIn>): Loop {
    if frames == [] then Loop(s, Going, [])
    else
      var before := Frames(s, frames[..|frames| - 1]);
      if !before.outcome.Going? then before
      else var one := OneFrame(before.state, frames[|frames| - 1]); Loop(one.state, one.outcome, before.deeds + one.deeds)
  }

  /** `frames` is none when the session refuses the datagram; `overloaded` when the session asks
      to be closed afterwards; `sendFails` when one of the datagrams it answers with cannot be
      sent. A session that is ended sends nothing. */
  function OnDatagram(t: Tables, cfg: Config, addr: Addr, admitted: bool, frames: Option<seq<FrameIn>>,
                      overloaded: bool, sendFails: bool): (Tables, seq<Deed>)
  {
    if (addr !in t.sessions && addr !in t.pending) || WouldExceed(t, cfg, addr) || !admitted then (t, [])
    else
      var s0 := if addr in t.sessions then t.sessions[addr] else Offline;
      var reached := t.(sessions := t.sessions[addr := s0], pipelines := t.pipelines + {addr});
      if frames.None? then (reached, [])
      else
        var r := Frames(s0, frames.value);
        (Settle(reached, addr, r, overloaded, sendFails), r.deeds)
  }

  /** What happens to the tables once the frames have been gone through. */
  function Settle(t: Tables, addr: Addr, r: Loop, overloaded: bool, sendFails: bool): Tables {
    var moved := t.(sessions := t.sessions[addr := r.state]);
    if r.outcome.Broken? || (r.outcome.Going? && sendFails) then moved
    else if r.outcome.Ends? || overloaded then Close(moved, addr)
    else if r.state == Connected then moved.(pending := t.pending - {addr})
    else moved
  }

  // ----- the machine -----

  datatype Event =
    | Request1(addr: Addr, welcome: bool, now: Instant)
    | Request2(addr: Addr, welcome: bool, cookie: Option<u32>, now: Instant)
    | Datagram(addr: Addr, admitted: bool, frames: Option<seq<FrameIn>>, overloaded: bool, sendFails: bool)
    | Expire(now: Instant)
    | CloseOne(addr: Addr)
    | Rotate(key: Key)

  function Expired(t: Tables, now: Instant): set<Addr> { set a <- t.pending | t.pending[a].expiresAt <= now }

  function CloseAll(t: Tables, addrs: set<Addr>): Tables {
    Tables(t.sessions - addrs, t.pipelines - addrs, t.pending - addrs, t.keys)
  }

  /** A local disconnect, an idle timeout, a failed keepalive and an overloaded queue all end in
      `CloseOne`. */
  function Step(t: Tables, cfg: Config, e: Event): Tables {
    match e
    case Request1(addr, welcome, now) => OnRequest1(t, cfg, addr, welcome, now)
    case Request2(addr, welcome, cookie, now) => OnRequest2(t, cfg, addr, welcome, cookie, now)
    case Datagram(addr, admitted, frames, overloaded, sendFails) => OnDatagram(t, cfg, addr, admitted, frames, overloaded, sendFails).0
    case Expire(now) => CloseAll(t, Expired(t, now))
    case CloseOne(addr) => Close(t, addr)
    case Rotate(key) => t.(keys := Keys(key, Some(t.keys.current)))
  }

  // ----- the table invariant -----

  /** Reply2 sent up to and including connected. */
  predicate Late(s: SessionState) { s.PostReply2() || s.Connected? }

  predicate Agrees(s: SessionState, p: Option<Pending>) {
    match p
    case None => s == Connected
    case Some(pending) => if pending.stage == AwaitingRequest2 then s == Reply1Sent else Late(s)
  }

  function PendingAt(t: Tables, addr: Addr): Option<Pending> { if addr in t.pending then Some(t.pending[addr]) else None }

  /** Pending and pipeline addresses have sessions; session states and handshake stages agree;
      there are never too many sessions. */
  ghost predicate Inv(t: Tables, cfg: Config) {
    && t.pending.Keys <= t.sessions.Keys && t.pipelines <= t.sessions.Keys
    && (forall a <- t.sessions :: Agrees(t.sessions[a], PendingAt(t, a)))
    && |t.sessions| <= cfg.maxSessions
  }

  lemma {:induction false} Fewer(a: set<Addr>, b: set<Addr>)
    requires a <= b
    ensures |a| <= |b|
  {
    if a != {} {
      var x :| x in a;
      Fewer(a - {x}, b - {x});
    }
  }

  lemma CloseAllInv(t: Tables, cfg: Config, addrs: set<Addr>)
    requires Inv(t, cfg)
    ensures Inv(CloseAll(t, addrs), cfg)
  {
    var v := CloseAll(t, addrs);
    assert v.sessions.Keys == t.sessions.Keys - addrs;
    Fewer(v.sessions.Keys, t.sessions.Keys);
    forall a <- v.sessions ensures Agrees(v.sessions[a], PendingAt(v, a)) {
      assert Agrees(t.sessions[a], PendingAt(t, a));
    }
  }

  lemma CloseInv(t: Tables, cfg: Config, addr: Addr)
    requires Inv(t, cfg)
    ensures Inv(Close(t, addr), cfg)
  {
    CloseAllInv(t, cfg, {addr});
  }

  /** A change at one address that keeps that address consistent. */
  lemma PutInv(t: Tables, cfg: Config, v: Tables, addr: Addr)
    requires Inv(t, cfg) && v.sessions.Keys == t.sessions.Keys + {addr} && (addr !in t.sessions ==> |t.sessions| < cfg.maxSessions)
    requires v.pending.Keys <= t.pending.Keys + {addr} && v.pipelines <= t.pipelines + {addr}
    requires forall a <- t.sessions | a != addr :: v.sessions[a] == t.sessions[a] && PendingAt(v, a) == PendingAt(t, a)
    requires Agrees(v.sessions[addr], PendingAt(v, addr))
    ensures Inv(v, cfg)
  {
    forall a <- v.sessions ensures Agrees(v.sessions[a], PendingAt(v, a)) {
      if a != addr { assert Agrees(t.sessions[a], PendingAt(t, a)); }
    }
  }

  lemma TransitTwo(s: SessionState, a: SessionState, b: SessionState)
    ensures Transit(s, [a, b]) == if !s.CanTransitionTo(a) then (s, false) else if !a.CanTransitionTo(b) then (a, false) else (b, true)
    ensures Transit(s, [a]) == if s.CanTransitionTo(a) then (a, true) else (s, false)
  {
    assert [a, b][1..] == [b] && [b][1..] == [] && [a][1..] == [];
    assert Transit(a, [b]) == if a.CanTransitionTo(b) then (b, true) else (a, false);
  }

  /** The tables after an accepted Request1: the session has sent its first reply. */
  function Opened(t: Tables, cfg: Config, addr: Addr, cookie: Option<u32>, now: Instant): Tables {
    Tables(t.sessions[addr := Reply1Sent], t.pipelines - {addr},
           t.pending[addr := Pending(cookie, AwaitingRequest2, now + cfg.req2Timeout)], t.keys)
  }

  lemma Request1Is(t: Tables, cfg: Config, addr: Addr, welcome: bool, now: Instant)
    requires Request1Accepted(t, cfg, addr, welcome)
    ensures OnRequest1(t, cfg, addr, welcome, now) == Opened(t, cfg, addr, NewCookie(t, cfg, addr), now)
  {
    TransitTwo(Offline, Req1Recv, Reply1Sent);
    assert t.sessions[addr := Offline][addr := Reply1Sent] == t.sessions[addr := Reply1Sent];
  }

  lemma OpenedInv(t: Tables, cfg: Config, addr: Addr, cookie: Option<u32>, now: Instant)
    requires Inv(t, cfg) && (addr !in t.sessions ==> |t.sessions| < cfg.maxSessions)
    ensures Inv(Opened(t, cfg, addr, cookie, now), cfg)
  {
    PutInv(t, cfg, Opened(t, cfg, addr, cookie, now), addr);
  }

  lemma Request1Inv(t: Tables, cfg: Config, addr: Addr, welcome: bool, now: Instant)
    requires Inv(t, cfg)
    ensures Inv(OnRequest1(t, cfg, addr, welcome, now), cfg)
  {
    if Request1Accepted(t, cfg, addr, welcome) {
      Request1Is(t, cfg, addr, welcome, now);
      OpenedInv(t, cfg, addr, NewCookie(t, cfg, addr), now);
    }
  }

  lemma Request2Inv(t: Tables, cfg: Config, addr: Addr, welcome: bool, cookie: Option<u32>, now: Instant)
    requires Inv(t, cfg)
    ensures Inv(OnRequest2(t, cfg, addr, welcome, cookie, now), cfg)
  {
    CloseInv(t, cfg, addr);
    if Request2Genuine(t, cfg, addr, welcome, cookie, now) && t.pending[addr].stage == AwaitingRequest2 {
      assert Agrees(t.sessions[addr], PendingAt(t, addr));
      TransitTwo(Reply1Sent, Req2Recv, Reply2Sent);
      PutInv(t, cfg, OnRequest2(t, cfg, addr, welcome, cookie, now), addr);
    }
  }

  /** Frames that do not end the session keep it in the states its handshake stage allows. */
  lemma OneFrameKeeps(s: SessionState, f: FrameIn)
    requires s == Reply1Sent || Late(s)
    ensures Kept(s, OneFrame(s, f))
  {
    TransitTwo(s, ConnReqRecv, Offline);
    TransitTwo(ConnReqRecv, ConnReqAcceptedSent, Offline);
    TransitTwo(s, NewIncomingRecv, Connected);
    TransitTwo(s, Closing, Closed);
  }

  lemma {:induction false} FramesKeep(s: SessionState, frames: seq<FrameIn>)
    requires s == Reply1Sent || Late(s)
    ensures Kept(s, Frames(s, frames))
  {
    if frames != [] {
      FramesKeep(s, frames[..|frames| - 1]);
      var before := Frames(s, frames[..|frames| - 1]);
      if before.outcome.Going? { OneFrameKeeps(before.state, frames[|frames| - 1]); }
    }
  }

  predicate Kept(s: SessionState, r: Loop) {
    || r.outcome.Ends?
    || ((s == Reply1Sent ==> r.state == Reply1Sent) && (Late(s) ==> Late(r.state)) && (s == Connected ==> r.state == Connected))
  }

  lemma SettleInv(t: Tables, cfg: Config, addr: Addr, r: Loop, overloaded: bool, sendFails: bool)
    requires Inv(t, cfg) && addr in t.sessions && Kept(t.sessions[addr], r)
    ensures Inv(Settle(t, addr, r, overloaded, sendFails), cfg)
  {
    assert Agrees(t.sessions[addr], PendingAt(t, addr));
    var v := Settle(t, addr, r, overloaded, sendFails);
    if addr in v.sessions {
      PutInv(t, cfg, v, addr);
    } else {
      CloseInv(t, cfg, addr);
      assert v == Close(t, addr);
    }
  }

  lemma ReachedInv(t: Tables, cfg: Config, addr: Addr)
    requires Inv(t, cfg) && addr in t.sessions
    ensures Inv(t.(sessions := t.sessions[addr := t.sessions[addr]], pipelines := t.pipelines + {addr}), cfg)
  {
    assert Agrees(t.sessions[addr], PendingAt(t, addr));
    PutInv(t, cfg, t.(sessions := t.sessions[addr := t.sessions[addr]], pipelines := t.pipelines + {addr}), addr);
  }

  lemma DatagramInv(t: Tables, cfg: Config, addr: Addr, admitted: bool, frames: Option<seq<FrameIn>>, overloaded: bool, sendFails: bool)
    requires Inv(t, cfg)
    ensures Inv(OnDatagram(t, cfg, addr, admitted, frames, overloaded, sendFails).0, cfg)
  {
    if addr in t.sessions && admitted {
      ReachedInv(t, cfg, addr);
      assert Agrees(t.sessions[addr], PendingAt(t, addr));
      if frames.Some? {
        FramesKeep(t.sessions[addr], frames.value);
        SettleInv(t.(sessions := t.sessions[addr := t.sessions[addr]], pipelines := t.pipelines + {addr}), cfg, addr,
                  Frames(t.sessions[addr], frames.value), overloaded, sendFails);
      }
    }
  }

  /** Every event keeps the tables consistent. */
  lemma StepInv(t: Tables, cfg: Config, e: Event)
    requires Inv(t, cfg)
    ensures Inv(Step(t, cfg, e), cfg)
  {
    match e {
      case Request1(addr, welcome, now) => Request1Inv(t, cfg, addr, welcome, now);
      case Request2(addr, welcome, cookie, now) => Request2Inv(t, cfg, addr, welcome, cookie, now);
      case Datagram(addr, admitted, frames, overloaded, sendFails) => DatagramInv(t, cfg, addr, admitted, frames, overloaded, sendFails);
      case Expire(now) => CloseAllInv(t, cfg, Expired(t, now));
      case CloseOne(addr) => CloseInv(t, cfg, addr);
      case Rotate(key) =>
        var v := Step(t, cfg, e);
        forall a <- v.sessions ensures Agrees(v.sessions[a], PendingAt(v, a)) { assert Agrees(t.sessions[a], PendingAt(t, a)); }
    }
  }

  // ----- what a session has to have done -----

  /** The tables, and for each address what it has done since the Request1 that opened its
      session. */
  datatype World = World(t: Tables, past: map<Addr, seq<Deed>>)

  function PastAt(past: map<Addr, seq<Deed>>, addr: Addr): seq<Deed> { if addr in past then past[addr] else [] }

  ghost function Remember(w: World, cfg: Config, e: Event): map<Addr, seq<Deed>> {
    match e
    case Request1(addr, welcome, _) => if Request1Accepted(w.t, cfg, addr, welcome) then w.past[addr := []] else w.past
    case Request2(addr, welcome, cookie, now) =>
      if Request2Genuine(w.t, cfg, addr, welcome, cookie, now)
      then w.past[addr := PastAt(w.past, addr) + [Asked(cookie, w.t.keys)]] else w.past
    case Datagram(addr, admitted, frames, overloaded, sendFails) =>
      w.past[addr := PastAt(w.past, addr) + OnDatagram(w.t, cfg, addr, admitted, frames, overloaded, sendFails).1]
    case _ => w.past
  }

  ghost function Next(w: World, cfg: Config, e: Event): World { World(Step(w.t, cfg, e), Remember(w, cfg, e)) }

  /** How far the handshake has come by these deeds alone: a Request2 with a good cookie, then a
      ConnectionRequest, then a NewIncomingConnection. */
  function Phase(past: seq<Deed>, cfg: Config, addr: Addr): (p: nat)
    ensures p <= 3
  {
    if past == [] then 0
    else
      var p := Phase(past[..|past| - 1], cfg, addr);
      match past[|past| - 1]
      case Asked(cookie, keys) => if p == 0 && (cfg.sendCookie ==> Verifies(cfg, keys, addr, cookie)) then 1 else p
      case Requested => if p == 1 then 2 else p
      case Incoming => if p == 2 then 3 else p
  }

  /** What a state presupposes. */
  function Needed(s: SessionState): nat {
    match s
    case Offline => 0
    case Req1Recv => 0
    case Reply1Sent => 0
    case Req2Recv => 1
    case Reply2Sent => 1
    case ConnReqRecv => 2
    case ConnReqAcceptedSent => 2
    case NewIncomingRecv => 3
    case Connected => 3
    case Closing => 3
    case Closed => 3
  }

  ghost predicate Earned(w: World, cfg: Config) {
    forall a <- w.t.sessions :: Needed(w.t.sessions[a]) <= Phase(PastAt(w.past, a), cfg, a)
  }

  lemma PhaseLast(past: seq<Deed>, d: Deed, cfg: Config, addr: Addr)
    ensures Phase(past, cfg, addr) <= Phase(past + [d], cfg, addr)
    ensures d.Requested? && Phase(past, cfg, addr) >= 1 ==> Phase(past + [d], cfg, addr) >= 2
    ensures d.Incoming? && Phase(past, cfg, addr) >= 2 ==> Phase(past + [d], cfg, addr) >= 3
    ensures d.Asked? && (cfg.sendCookie ==> Verifies(cfg, d.keys, addr, d.cookie)) ==> Phase(past + [d], cfg, addr) >= 1
  {
    assert (past + [d])[..|past|] == past;
  }

  ghost predicate EarnsNow(r: Loop, past: seq<Deed>, cfg: Config, addr: Addr) {
    r.outcome.Ends? || Needed(r.state) <= Phase(past + r.deeds, cfg, addr)
  }

  lemma RequestEarns(s: SessionState, accept: Reply, past: seq<Deed>, cfg: Config, addr: Addr)
    requires (s == Reply1Sent || Late(s)) && Needed(s) <= Phase(past, cfg, addr)
    ensures EarnsNow(Steered(s, ConnectionRequest(accept)), past, cfg, addr)
  {
    TransitTwo(s, ConnReqRecv, Offline);
    TransitTwo(ConnReqRecv, ConnReqAcceptedSent, Offline);
    PhaseLast(past, Requested, cfg, addr);
  }

  lemma IncomingEarns(s: SessionState, past: seq<Deed>, cfg: Config, addr: Addr)
    requires (s == Reply1Sent || Late(s)) && Needed(s) <= Phase(past, cfg, addr)
    ensures EarnsNow(Steered(s, NewIncomingConnection), past, cfg, addr)
  {
    TransitTwo(s, NewIncomingRecv, Connected);
    PhaseLast(past, Incoming, cfg, addr);
  }

  lemma OneFrameEarns(s: SessionState, f: FrameIn, past: seq<Deed>, cfg: Config, addr: Addr)
    requires (s == Reply1Sent || Late(s)) && Needed(s) <= Phase(past, cfg, addr)
    ensures EarnsNow(OneFrame(s, f), past, cfg, addr)
  {
    assert past + [] == past;
    if f.Steer? && f.packet.ConnectionRequest? { RequestEarns(s, f.packet.accept, past, cfg, addr); }
    else if f.Steer? && f.packet.NewIncomingConnection? { IncomingEarns(s, past, cfg, addr); }
  }

  lemma {:induction false} FramesEarn(s: SessionState, frames: seq<FrameIn>, past: seq<Deed>, cfg: Config, addr: Addr)
    requires (s == Reply1Sent || Late(s)) && Needed(s) <= Phase(past, cfg, addr)
    ensures EarnsNow(Frames(s, frames), past, cfg, addr)
  {
    if frames == [] {
      assert past + [] == past;
    } else {
      var init, f := frames[..|frames| - 1], frames[|frames| - 1];
      FramesEarn(s, init, past, cfg, addr);
      FramesKeep(s, init);
      var before := Frames(s, init);
      if before.outcome.Going? {
        OneFrameEarns(before.state, f, past + before.deeds, cfg, addr);
        AssocDeeds(past, before.deeds, OneFrame(before.state, f).deeds);
      }
    }
  }

  lemma AssocDeeds(a: seq<Deed>, b: seq<Deed>, c: seq<Deed>)
    ensures (a + b) + c == a + (b + c)
  {
  }

  /** The session a datagram reaches, if it stays open, has earned its new state. */
  lemma ReachedEarned(w: World, cfg: Config, e: Event)
    requires Inv(w.t, cfg) && Earned(w, cfg) && e.Datagram? && e.addr in Step(w.t, cfg, e).sessions
    ensures var deeds := OnDatagram(w.t, cfg, e.addr, e.admitted, e.frames, e.overloaded, e.sendFails).1;
            Needed(Step(w.t, cfg, e).sessions[e.addr]) <= Phase(PastAt(w.past, e.addr) + deeds, cfg, e.addr)
  {
    var past := PastAt(w.past, e.addr);
    assert past + [] == past;
    if e.frames.Some? && e.addr in w.t.sessions {
      assert Agrees(w.t.sessions[e.addr], PendingAt(w.t, e.addr));
      FramesEarn(w.t.sessions[e.addr], e.frames.value, past, cfg, e.addr);
    }
  }

  lemma OthersKept(w: World, cfg: Config, e: Event, a: Addr)
    requires e.Datagram? && a != e.addr && a in Step(w.t, cfg, e).sessions
    ensures a in w.t.sessions && Step(w.t, cfg, e).sessions[a] == w.t.sessions[a]
    ensures PastAt(Next(w, cfg, e).past, a) == PastAt(w.past, a)
  {
  }

  lemma DatagramEarned(w: World, cfg: Config, e: Event)
    requires Inv(w.t, cfg) && Earned(w, cfg) && e.Datagram?
    ensures Earned(Next(w, cfg, e), cfg)
  {
    var v := Next(w, cfg, e);
    forall a <- v.t.sessions ensures Needed(v.t.sessions[a]) <= Phase(PastAt(v.past, a), cfg, a) {
      if a == e.addr { ReachedEarned(w, cfg, e); } else { OthersKept(w, cfg, e, a); }
    }
  }

  lemma Request2Moves(t: Tables, cfg: Config, e: Event, a: Addr)
    requires Inv(t, cfg) && e.Request2? && a in Step(t, cfg, e).sessions
    ensures a in t.sessions
    ensures Step(t, cfg, e).sessions[a] == t.sessions[a]
         || (a == e.addr && Request2Genuine(t, cfg, a, e.welcome, e.cookie, e.now) && Step(t, cfg, e).sessions[a] == Reply2Sent)
  {
    if e.addr in t.pending { assert Agrees(t.sessions[e.addr], PendingAt(t, e.addr)); }
    TransitTwo(Reply1Sent, Req2Recv, Reply2Sent);
  }

  lemma Request2Earned(w: World, cfg: Config, e: Event)
    requires Inv(w.t, cfg) && Earned(w, cfg) && e.Request2?
    ensures Earned(Next(w, cfg, e), cfg)
  {
    var v := Next(w, cfg, e);
    PhaseLast(PastAt(w.past, e.addr), Asked(e.cookie, w.t.keys), cfg, e.addr);
    forall a <- v.t.sessions ensures Needed(v.t.sessions[a]) <= Phase(PastAt(v.past, a), cfg, a) {
      Request2Moves(w.t, cfg, e, a);
    }
  }

  lemma NextEarned(w: World, cfg: Config, e: Event)
    requires Inv(w.t, cfg) && Earned(w, cfg)
    ensures Earned(Next(w, cfg, e), cfg)
  {
    match e {
      case Datagram(_, _, _, _, _) => DatagramEarned(w, cfg, e);
      case Request2(_, _, _, _) => Request2Earned(w, cfg, e);
      case Request1(addr, welcome, now) => if Request1Accepted(w.t, cfg, addr, welcome) { Request1Is(w.t, cfg, addr, welcome, now); }
      case _ =>
    }
  }

  // ----- whole runs -----

  ghost predicate Fresh(w: World) { w.t.sessions == map[] && w.t.pipelines == {} && w.t.pending == map[] && w.past == map[] }

  ghost function After(w: World, cfg: Config, events: seq<Event>): World {
    if events == [] then w else Next(After(w, cfg, events[..|events| - 1]), cfg, events[|events| - 1])
  }

  /** In every run from an empty server the tables stay consistent, and every session has earned
      its state. */
  lemma {:induction false} RunInv(w: World, cfg: Config, events: seq<Event>)
    requires Fresh(w)
    ensures Inv(After(w, cfg, events).t, cfg) && Earned(After(w, cfg, events), cfg)
  {
    if events != [] {
      var init, e := events[..|events| - 1], events[|events| - 1];
      RunInv(w, cfg, init);
      StepInv(After(w, cfg, init).t, cfg, e);
      NextEarned(After(w, cfg, init), cfg, e);
    }
  }

  ghost predicate GoodRequest2(d: Deed, cfg: Config, addr: Addr) {
    d.Asked? && (cfg.sendCookie ==> Verifies(cfg, d.keys, addr, d.cookie))
  }

  /** The deeds that a phase stands for, in their order. */
  lemma {:induction false} PhaseMeans(past: seq<Deed>, cfg: Config, addr: Addr) returns (i: nat, j: nat, k: nat)
    ensures Phase(past, cfg, addr) >= 1 ==> i < |past| && GoodRequest2(past[i], cfg, addr)
    ensures Phase(past, cfg, addr) >= 2 ==> i < j < |past| && past[j].Requested?
    ensures Phase(past, cfg, addr) >= 3 ==> j < k < |past| && past[k].Incoming?
  {
    i, j, k := 0, 0, 0;
    if past != [] {
      var init, n := past[..|past| - 1], |past| - 1;
      i, j, k := PhaseMeans(init, cfg, addr);
      var p, q := Phase(init, cfg, addr), Phase(past, cfg, addr);
      if q > p {
        if q == 1 { i := n; } else if q == 2 { j := n; } else { k := n; }
      }
    }
  }

  /** In every run: a session past Request2 is owed to a Request2 from its address, sent since the
      Request1 that opened it, whose cookie verified under the keys of that moment if cookies are
      on; and a connected session is owed to a ConnectionRequest after that and a
      NewIncomingConnection after that. */
  lemma OnlyByHandshake(w: World, cfg: Config, events: seq<Event>, addr: Addr) returns (i: nat, j: nat, k: nat)
    requires Fresh(w) && addr in After(w, cfg, events).t.sessions
    ensures var v := After(w, cfg, events);
            var s, past := v.t.sessions[addr], PastAt(v.past, addr);
            && (s.Active() ==> i < |past| && GoodRequest2(past[i], cfg, addr))
            && (s == Connected ==> i < j < k < |past| && past[j].Requested? && past[k].Incoming?)
  {
    RunInv(w, cfg, events);
    var v := After(w, cfg, events);
    i, j, k := PhaseMeans(PastAt(v.past, addr), cfg, addr);
  }

  /** The consistency of the tables, spelled out. */
  lemma TablesConsistent(w: World, cfg: Config, events: seq<Event>, addr: Addr)
    requires Fresh(w)
    ensures var t := After(w, cfg, events).t;
            && |t.sessions| <= cfg.maxSessions
            && (addr in t.pending ==> addr in t.sessions) && (addr in t.pipelines ==> addr in t.sessions)
            && (addr in t.sessions && addr !in t.pending ==> t.sessions[addr] == Connected)
            && (addr in t.pending && t.pending[addr].stage == AwaitingRequest2 ==> t.sessions[addr] == Reply1Sent)
            && (addr in t.pending && t.pending[addr].stage == AwaitingConnectionRequest ==>
                  t.sessions[addr] in {Reply2Sent, ConnReqRecv, ConnReqAcceptedSent, NewIncomingRecv, Connected})
  {
    RunInv(w, cfg, events);
    var t := After(w, cfg, events).t;
    if addr in t.sessions { assert Agrees(t.sessions[addr], PendingAt(t, addr)); }
  }

  // ----- the object -----

  class Server {
    const cfg: Config
    var sessions: map<Addr, SessionState>
    var pipelines: set<Addr>
    var pending: map<Addr, Pending>
    var keys: Keys

    ghost function Value(): Tables
      reads this
    {
      Tables(sessions, pipelines, pending, keys)
    }

    ghost predicate Valid()
      reads this
    {
      Inv(Value(), cfg)
    }

    constructor (cfg: Config, key: Key)
      ensures Valid() && this.cfg == cfg && Value() == Tables(map[], {}, map[], Keys(key, None))
    {
      this.cfg := cfg;
      sessions, pipelines, pending, keys := map[], {}, map[], Keys(key, None);
    }

    method CloseSession(addr: Addr)
      modifies this`sessions, this`pending, this`pipelines
      ensures Value() == Close(old(Value()), addr)
    {
      pending := pending - {addr};
      sessions := sessions - {addr};
      pipelines := pipelines - {addr};
    }

    method DisconnectPeer(addr: Addr) returns (existed: bool)
      modifies this
      ensures existed == (addr in old(sessions) || addr in old(pending))
      ensures Value() == if existed then Close(old(Value()), addr) else old(Value())
    {
      existed := addr in sessions || addr in pending;
      if existed { CloseSession(addr); }
    }

    /** Takes transitions in turn until one is not allowed. */
    static method ApplyTransitions(from: SessionState, path: seq<SessionState>) returns (state: SessionState, ok: bool)
      ensures (state, ok) == Transit(from, path)
    {
      state := from;
      for i := 0 to |path|
        invariant Transit(from, path) == Transit(state, path[i..])
      {
        assert path[i..][1..] == path[i + 1..];
        if !state.CanTransitionTo(path[i]) { return state, false; }
        state := path[i];
      }
      ok := true;
    }

    /** Moves the session along, or closes it if that is not allowed. */
    method AdvanceOrClose(addr: Addr, path: seq<SessionState>) returns (ok: bool)
      requires addr in sessions
      modifies this`sessions, this`pending, this`pipelines
      ensures var (s, moved) := Transit(old(sessions[addr]), path);
              var t := old(Value()).(sessions := old(sessions)[addr := s]);
              ok == moved && Value() == if moved then t else Close(t, addr)
    {
      var state;
      state, ok := ApplyTransitions(sessions[addr], path);
      sessions := sessions[addr := state];
      if !ok { CloseSession(addr); }
    }

    method HandleRequest1(addr: Addr, welcome: bool, now: Instant)
      modifies this
      ensures Value() == OnRequest1(old(Value()), cfg, addr, welcome, now)
      ensures old(Valid()) ==> Valid()
    {
      ghost var t := Value();
      if Valid() { Request1Inv(t, cfg, addr, welcome, now); }
      if !welcome { return; }
      if addr in sessions && addr !in pending && sessions[addr].Active() { return; }
      if addr in pending && pending[addr].stage == AwaitingConnectionRequest { return; }
      if addr !in sessions && |sessions| >= cfg.maxSessions { return; }
      var cookie: Option<u32> := None;
      if cfg.sendCookie {
        if addr in pending && pending[addr].stage == AwaitingRequest2 { cookie := pending[addr].cookie; }
        if cookie.None? { cookie := Some(cfg.mac(addr, keys.current)); }
      }
      Request1Is(t, cfg, addr, welcome, now);
      OpenSession(addr, cookie, now);
    }

    method OpenSession(addr: Addr, cookie: Option<u32>, now: Instant)
      modifies this`sessions, this`pending, this`pipelines
      ensures Value() == Opened(old(Value()), cfg, addr, cookie, now)
    {
      pending := pending[addr := Pending(cookie, AwaitingRequest2, now + cfg.req2Timeout)];
      pipelines := pipelines - {addr};
      sessions := sessions[addr := Offline];
      TransitTwo(Offline, Req1Recv, Reply1Sent);
      var _ := AdvanceOrClose(addr, [Req1Recv, Reply1Sent]);
      assert sessions == old(sessions)[addr := Reply1Sent];
    }

    method HandleRequest2(addr: Addr, welcome: bool, cookie: Option<u32>, now: Instant)
      modifies this
      ensures Value() == OnRequest2(old(Value()), cfg, addr, welcome, cookie, now)
      ensures old(Valid()) ==> Valid()
    {
      ghost var t := Value();
      if Valid() { Request2Inv(t, cfg, addr, welcome, cookie, now); }
      if !welcome { return; }
      if addr in sessions && addr !in pending && sessions[addr].Active() { return; }
      if addr !in pending { return; }
      var p := pending[addr];
      if p.expiresAt <= now {
        CloseSession(addr);
        return;
      }
      if cfg.sendCookie && (p.cookie.None? || !Verifies(cfg, keys, addr, cookie)) { return; }
      if p.stage == AwaitingConnectionRequest {
        if addr !in sessions || !sessions[addr].PostReply2() { CloseSession(addr); }
        return;
      }
      if addr !in sessions && |sessions| >= cfg.maxSessions { return; }
      if addr !in sessions {
        CloseSession(addr);
        return;
      }
      var ok := AdvanceOrClose(addr, [Req2Recv, Reply2Sent]);
      if ok { pending := pending[addr := Pending(p.cookie, AwaitingConnectionRequest, now + cfg.connectTimeout)]; }
    }

    /** Goes through the frames of a datagram until one ends the session or breaks off. */
    static method GoThrough(from: SessionState, frames: seq<FrameIn>) returns (state: SessionState, outcome: Outcome)
      ensures state == Frames(from, frames).state && outcome == Frames(from, frames).outcome
    {
      state, outcome := from, Going;
      for i := 0 to |frames|
        invariant outcome.Going? && Frames(from, frames[..i]).state == state && Frames(from, frames[..i]).outcome.Going?
      {
        assert frames[..i + 1][..i] == frames[..i];
        var one := OneFrame(state, frames[i]);
        state, outcome := one.state, one.outcome;
        if !outcome.Going? {
          StopsThere(from, frames, i + 1);
          return;
        }
      }
      assert frames[..|frames|] == frames;
    }

    method HandleDatagram(addr: Addr, admitted: bool, frames: Option<seq<FrameIn>>, overloaded: bool, sendFails: bool)
      modifies this
      ensures Value() == OnDatagram(old(Value()), cfg, addr, admitted, frames, overloaded, sendFails).0
      ensures old(Valid()) ==> Valid()
    {
      ghost var t := Value();
      if Valid() { DatagramInv(t, cfg, addr, admitted, frames, overloaded, sendFails); }
      if addr !in sessions && addr !in pending { return; }
      if addr !in sessions && |sessions| >= cfg.maxSessions { return; }
      if !admitted { return; }
      var state := if addr in sessions then sessions[addr] else Offline;
      sessions := sessions[addr := state];
      pipelines := pipelines + {addr};
      if frames.None? { return; }
      var outcome;
      state, outcome := GoThrough(state, frames.value);
      sessions := sessions[addr := state];
      if outcome.Broken? || (outcome.Going? && sendFails) { return; }
      if outcome.Ends? || overloaded {
        CloseSession(addr);
        return;
      }
      if sessions[addr] == Connected { pending := pending - {addr}; }
    }

    method CloseEach(addrs: set<Addr>)
      modifies this`sessions, this`pending, this`pipelines
      ensures Value() == CloseAll(old(Value()), addrs)
    {
      ghost var t := Value();
      var todo := addrs;
      ghost var done: set<Addr> := {};
      CloseNone(t);
      while todo != {}
        invariant Value() == CloseAll(t, done) && done + todo == addrs
        decreases |todo|
      {
        var a :| a in todo;
        CloseSession(a);
        CloseOneMore(t, done, a);
        done := done + {a};
        todo := todo - {a};
      }
      assert done == addrs;
    }

    /** Closes every session whose handshake has run out of time. */
    method PruneExpired(now: Instant)
      modifies this`sessions, this`pending, this`pipelines
      ensures Value() == CloseAll(old(Value()), Expired(old(Value()), now))
      ensures old(Valid()) ==> Valid()
    {
      var expired := set a <- pending | pending[a].expiresAt <= now;
      if Valid() { CloseAllInv(Value(), cfg, expired); }
      CloseEach(expired);
    }

    method RotateKeys(key: Key)
      modifies this`keys
      ensures Value() == Step(old(Value()), cfg, Rotate(key))
      ensures old(Valid()) ==> Valid()
    {
      if Valid() { StepInv(Value(), cfg, Rotate(key)); }
      keys := Keys(key, Some(keys.current));
    }
  }

  lemma CloseNone(t: Tables)
    ensures CloseAll(t, {}) == t
  {
  }

  lemma CloseOneMore(t: Tables, done: set<Addr>, a: Addr)
    ensures Close(CloseAll(t, done), a) == CloseAll(t, done + {a})
  {
  }

  lemma {:induction false} StopsThere(from: SessionState, frames: seq<FrameIn>, i: nat)
    requires i <= |frames| && !Frames(from, frames[..i]).outcome.Going?
    ensures Frames(from, frames) == Frames(from, frames[..i])
    decreases |frames|
  {
    if i == |frames| {
      assert frames[..i] == frames;
    } else {
      var init := frames[..|frames| - 1];
      assert init[..i] == frames[..i];
      StopsThere(from, init, i);
    }
  }
}
