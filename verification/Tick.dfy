/** Runs of the sending machine, the steps of one tick, and what pacing promises over any run of
    ticks (src/session/mod.rs). */
module Ticks {
  import opened Base
  import opened Sequence24
  import opened Datagrams
  import opened Pacing
  import opened Outboxes
  import opened Send
  import Conservation
  import Emission

  // ----- a run of the sending machine -----

  ghost function StepAll(tx: Tx, cfg: TxConfig, evs: seq<Event>): Tx {
    if evs == [] then tx else Step(StepAll(tx, cfg, evs[..|evs| - 1]), cfg, evs[|evs| - 1])
  }

  ghost predicate EnabledAll(tx: Tx, cfg: TxConfig, evs: seq<Event>) {
    evs != [] ==> && EnabledAll(tx, cfg, evs[..|evs| - 1])
                  && Enabled(StepAll(tx, cfg, evs[..|evs| - 1]), evs[|evs| - 1])
  }

  ghost function SendsAll(tx: Tx, cfg: TxConfig, evs: seq<Event>): seq<Datagram> {
    if evs == [] then []
    else SendsAll(tx, cfg, evs[..|evs| - 1]) + Sends(StepAll(tx, cfg, evs[..|evs| - 1]), evs[|evs| - 1])
  }

  /** The steps can be taken one after the other, lead to `after`, and send `out`. */
  ghost predicate Ran(tx: Tx, cfg: TxConfig, evs: seq<Event>, after: Tx, out: seq<Datagram>) {
    EnabledAll(tx, cfg, evs) && after == StepAll(tx, cfg, evs) && out == SendsAll(tx, cfg, evs)
  }

  lemma RanMore(tx: Tx, cfg: TxConfig, evs: seq<Event>, mid: Tx, out: seq<Datagram>, e: Event)
    requires Ran(tx, cfg, evs, mid, out) && Enabled(mid, e)
    ensures Ran(tx, cfg, evs + [e], Step(mid, cfg, e), out + Sends(mid, e))
  {
    assert (evs + [e])[..|evs|] == evs;
  }

  lemma RanOne(tx: Tx, cfg: TxConfig, e: Event, after: Tx, out: seq<Datagram>)
    ensures Ran(tx, cfg, [e], after, out) <==> Enabled(tx, e) && after == Step(tx, cfg, e) && out == Sends(tx, e)
  {
    One(tx, cfg, e);
  }

  lemma One(tx: Tx, cfg: TxConfig, e: Event)
    ensures StepAll(tx, cfg, [e]) == Step(tx, cfg, e) && SendsAll(tx, cfg, [e]) == Sends(tx, e)
    ensures EnabledAll(tx, cfg, [e]) <==> Enabled(tx, e)
  {
    var evs := [e];
    assert evs[..|evs| - 1] == [];
    assert SendsAll(tx, cfg, evs) == [] + Sends(tx, e);
  }

  lemma {:induction false} StepParts(tx: Tx, cfg: TxConfig, a: seq<Event>, b: seq<Event>)
    ensures StepAll(tx, cfg, a + b) == StepAll(StepAll(tx, cfg, a), cfg, b)
  {
    if b == [] {
      assert a + b == a;
    } else {
      assert (a + b)[..|a + b| - 1] == a + b[..|b| - 1];
      StepParts(tx, cfg, a, b[..|b| - 1]);
    }
  }

  lemma {:induction false} EnabledParts(tx: Tx, cfg: TxConfig, a: seq<Event>, b: seq<Event>)
    ensures EnabledAll(tx, cfg, a + b) <==> EnabledAll(tx, cfg, a) && EnabledAll(StepAll(tx, cfg, a), cfg, b)
  {
    if b == [] {
      assert a + b == a;
    } else {
      assert (a + b)[..|a + b| - 1] == a + b[..|b| - 1];
      EnabledParts(tx, cfg, a, b[..|b| - 1]);
      StepParts(tx, cfg, a, b[..|b| - 1]);
    }
  }

  lemma {:induction false} SendsParts(tx: Tx, cfg: TxConfig, a: seq<Event>, b: seq<Event>)
    ensures SendsAll(tx, cfg, a + b) == SendsAll(tx, cfg, a) + SendsAll(StepAll(tx, cfg, a), cfg, b)
  {
    if b == [] {
      assert a + b == a;
    } else {
      assert (a + b)[..|a + b| - 1] == a + b[..|b| - 1];
      var init := b[..|b| - 1];
      SendsParts(tx, cfg, a, init);
      StepParts(tx, cfg, a, init);
      var mid := StepAll(tx, cfg, a);
      AssocData(SendsAll(tx, cfg, a), SendsAll(mid, cfg, init), Sends(StepAll(mid, cfg, init), b[|b| - 1]));
    }
  }

  lemma AssocData(a: seq<Datagram>, b: seq<Datagram>, c: seq<Datagram>)
    ensures a + b + c == a + (b + c)
  {
  }

  /** A run of two parts is a run of the first and then of the second. */
  lemma RanParts(tx: Tx, cfg: TxConfig, a: seq<Event>, b: seq<Event>)
    ensures var mid := StepAll(tx, cfg, a);
            && StepAll(tx, cfg, a + b) == StepAll(mid, cfg, b)
            && (EnabledAll(tx, cfg, a + b) <==> EnabledAll(tx, cfg, a) && EnabledAll(mid, cfg, b))
            && SendsAll(tx, cfg, a + b) == SendsAll(tx, cfg, a) + SendsAll(mid, cfg, b)
  {
    StepParts(tx, cfg, a, b);
    EnabledParts(tx, cfg, a, b);
    SendsParts(tx, cfg, a, b);
  }

  /** Two steps, neither of them conditional on the other's outcome. */
  lemma Two(tx: Tx, cfg: TxConfig, e: Event, f: Event)
    ensures var mid := Step(tx, cfg, e);
            && StepAll(tx, cfg, [e] + [f]) == Step(mid, cfg, f)
            && SendsAll(tx, cfg, [e] + [f]) == Sends(tx, e) + Sends(mid, f)
            && (EnabledAll(tx, cfg, [e] + [f]) <==> Enabled(tx, e) && Enabled(mid, f))
  {
    One(tx, cfg, e);
    One(Step(tx, cfg, e), cfg, f);
    RanParts(tx, cfg, [e], [f]);
  }

  lemma AndThen(tx: Tx, cfg: TxConfig, evs: seq<Event>, e: Event)
    ensures var mid := StepAll(tx, cfg, evs);
            && StepAll(tx, cfg, evs + [e]) == Step(mid, cfg, e)
            && SendsAll(tx, cfg, evs + [e]) == SendsAll(tx, cfg, evs) + Sends(mid, e)
            && (EnabledAll(tx, cfg, evs + [e]) <==> EnabledAll(tx, cfg, evs) && Enabled(mid, e))
  {
    One(StepAll(tx, cfg, evs), cfg, e);
    RanParts(tx, cfg, evs, [e]);
  }

  lemma RanConcat(tx: Tx, cfg: TxConfig, a: seq<Event>, mid: Tx, out: seq<Datagram>, b: seq<Event>, after: Tx, more: seq<Datagram>)
    requires Ran(tx, cfg, a, mid, out) && Ran(mid, cfg, b, after, more)
    ensures Ran(tx, cfg, a + b, after, out + more)
  {
    RanParts(tx, cfg, a, b);
  }

  lemma {:induction false} SizesConcat(a: seq<Datagram>, b: seq<Datagram>)
    ensures DatagramsSize(a + b) == DatagramsSize(a) + DatagramsSize(b)
  {
    if b == [] {
      assert a + b == a;
    } else {
      assert (a + b)[..|a + b| - 1] == a + b[..|b| - 1];
      SizesConcat(a, b[..|b| - 1]);
    }
  }

  lemma SizeOne(d: Datagram)
    ensures DatagramsSize([d]) == DatagramSize(d)
  {
    assert [d][..0] == [];
  }

  lemma BuiltSize(tx: Tx, picked: seq<Queued>, budget: nat)
    requires OutboxOk(tx.outbox) && Picks(tx, picked, budget)
    ensures DatagramSize(DatagramFor(tx, picked)) == HEADER_SIZE + Sizes(picked)
  {
    forall q <- picked ensures QueuedOk(q) { assert q in multiset(picked); }
    Emission.PickedSize(picked);
  }

  // ----- the steps of a tick -----

  /** The whole bytes the pacing budget allows, if pacing is on. */
  function Affordable(tx: Tx, cfg: TxConfig, limit: nat): nat {
    if cfg.pace.enabled then Min(limit, if tx.pace.budget < 0.0 then 0 else tx.pace.budget.Floor) else limit
  }

  /** An immediate frame waits and the budget is too small for any frame. */
  predicate Bypasses(tx: Tx, cfg: TxConfig, maxBytes: nat) {
    var affordable := Affordable(tx, cfg, maxBytes);
    && cfg.pace.enabled && maxBytes > 0
    && (affordable == 0 || forall q <- tx.outbox.heap :: affordable < q.encodedSize)
    && exists q <- tx.outbox.heap :: q.priority.Immediate?
  }

  /** How many bytes of new frames may go out: what the budget affords, or one datagram's worth
      past it. */
  function NewBudget(tx: Tx, cfg: TxConfig, maxBytes: nat): nat {
    if Bypasses(tx, cfg, maxBytes) then Max(Min(tx.mtu, maxBytes), 1) else Affordable(tx, cfg, maxBytes)
  }

  datatype Limits = Limits(maxNew: nat, maxNewBytes: nat, maxResend: nat, maxResendBytes: nat)

  /** One tick: when, within which limits, which datagrams are sent again, and which frames each
      new datagram takes. */
  datatype Tick = Tick(now: Instant, limits: Limits, selected: seq<Seq24>, picks: seq<seq<Queued>>)

  function BudgetLeft(picks: seq<seq<Queued>>, budget: nat): nat {
    if picks == [] then budget
    else
      var left := BudgetLeft(picks[..|picks| - 1], budget);
      if left < Sizes(picks[|picks| - 1]) then 0 else left - Sizes(picks[|picks| - 1])
  }

  function Emits(picks: seq<seq<Queued>>, budget: nat, now: Instant): (evs: seq<Event>)
    ensures |evs| == |picks|
  {
    if picks == [] then []
    else
      var init := picks[..|picks| - 1];
      Emits(init, budget, now) + [Emit(picks[|picks| - 1], BudgetLeft(init, budget), now)]
  }

  function Refreshed(tx: Tx, cfg: TxConfig, k: Tick): Tx { Step(tx, cfg, Refill(k.now)) }

  function Resending(tx: Tx, cfg: TxConfig, k: Tick): Event {
    Again(k.selected, k.limits.maxResend, Affordable(Refreshed(tx, cfg, k), cfg, k.limits.maxResendBytes), k.now)
  }

  /** Resent datagrams are paid for before new ones are built. */
  function AfterResends(tx: Tx, cfg: TxConfig, k: Tick): Tx {
    var before, again := Refreshed(tx, cfg, k), Resending(tx, cfg, k);
    Step(Step(before, cfg, again), cfg, Pay(DatagramsSize(Sends(before, again))))
  }

  function Emitting(tx: Tx, cfg: TxConfig, k: Tick): seq<Event> {
    Emits(k.picks, NewBudget(AfterResends(tx, cfg, k), cfg, k.limits.maxNewBytes), k.now)
  }

  /** All steps of a tick, in order. */
  ghost function TickSteps(tx: Tx, cfg: TxConfig, k: Tick): seq<Event> {
    var before, again := Refreshed(tx, cfg, k), Resending(tx, cfg, k);
    [Refill(k.now)] + ([again] + [Pay(DatagramsSize(Sends(before, again)))])
    + (Emitting(tx, cfg, k) + [Pay(DatagramsSize(SendsAll(AfterResends(tx, cfg, k), cfg, Emitting(tx, cfg, k))))])
  }

  /** What a tick may send past the budget: something only if an immediate frame waits and the
      budget is too small for any frame, and then one datagram's worth. */
  function Allowance(tx: Tx, cfg: TxConfig, k: Tick): (a: nat)
    ensures a <= Max(tx.mtu, 1)
    ensures a > 0 ==> Bypasses(AfterResends(tx, cfg, k), cfg, k.limits.maxNewBytes)
  {
    var mid := AfterResends(tx, cfg, k);
    if Bypasses(mid, cfg, k.limits.maxNewBytes) then NewBudget(mid, cfg, k.limits.maxNewBytes) else 0
  }

  // ----- what a tick sends and pays -----

  lemma EmitOnce(tx: Tx, picked: seq<Queued>, budget: nat, now: Instant)
    requires TxOk(tx) && Picks(tx, picked, budget)
    ensures var d := Sends(tx, Emit(picked, budget, now));
            && DatagramsSize(d) == HEADER_SIZE + Sizes(picked) && |d| == 1
            && TxOk(Build(tx, picked, now)) && Build(tx, picked, now).pace == tx.pace
  {
    BuiltSize(tx, picked, budget);
    SizeOne(DatagramFor(tx, picked));
    TakePickedOk(tx.outbox, picked);
  }

  /** New datagrams hold together no more than the budget, besides their headers. */
  lemma {:induction false} EmitsSize(tx: Tx, cfg: TxConfig, picks: seq<seq<Queued>>, budget: nat, now: Instant)
    requires TxOk(tx) && EnabledAll(tx, cfg, Emits(picks, budget, now))
    ensures var evs := Emits(picks, budget, now);
            var after, out := StepAll(tx, cfg, evs), SendsAll(tx, cfg, evs);
            && TxOk(after) && after.pace == tx.pace && |out| == |picks|
            && DatagramsSize(out) + BudgetLeft(picks, budget) == budget + HEADER_SIZE * |picks|
  {
    if picks != [] {
      var init, last := picks[..|picks| - 1], picks[|picks| - 1];
      var evs, e := Emits(init, budget, now), Emit(last, BudgetLeft(init, budget), now);
      assert Emits(picks, budget, now)[..|evs|] == evs;
      EmitsSize(tx, cfg, init, budget, now);
      var mid := StepAll(tx, cfg, evs);
      EmitOnce(mid, last, BudgetLeft(init, budget), now);
      SizesConcat(SendsAll(tx, cfg, evs), Sends(mid, e));
    }
  }

  /** A tick in its parts. */
  lemma TickParts(tx: Tx, cfg: TxConfig, k: Tick)
    ensures var before, again, mid := Refreshed(tx, cfg, k), Resending(tx, cfg, k), AfterResends(tx, cfg, k);
            var emits := Emitting(tx, cfg, k);
            var out := SendsAll(mid, cfg, emits);
            && StepAll(tx, cfg, TickSteps(tx, cfg, k)) == Step(StepAll(mid, cfg, emits), cfg, Pay(DatagramsSize(out)))
            && SendsAll(tx, cfg, TickSteps(tx, cfg, k)) == Sends(before, again) + out
            && (EnabledAll(tx, cfg, TickSteps(tx, cfg, k)) <==> Enabled(before, again) && EnabledAll(mid, cfg, emits))
  {
    var before, again, mid := Refreshed(tx, cfg, k), Resending(tx, cfg, k), AfterResends(tx, cfg, k);
    var emits := Emitting(tx, cfg, k);
    var out := SendsAll(mid, cfg, emits);
    FiveParts(tx, cfg, Refill(k.now), again, Pay(DatagramsSize(Sends(before, again))), emits, Pay(DatagramsSize(out)));
    NoData([], Sends(before, again), [], out, []);
  }

  lemma FiveParts(tx: Tx, cfg: TxConfig, a: Event, b: Event, c: Event, ds: seq<Event>, e: Event)
    ensures var tx1 := Step(tx, cfg, a);
            var tx2 := Step(tx1, cfg, b);
            var tx3 := Step(tx2, cfg, c);
            var tx4 := StepAll(tx3, cfg, ds);
            var evs := [a] + ([b] + [c]) + (ds + [e]);
            && StepAll(tx, cfg, evs) == Step(tx4, cfg, e)
            && SendsAll(tx, cfg, evs) == Sends(tx, a) + (Sends(tx1, b) + Sends(tx2, c)) + (SendsAll(tx3, cfg, ds) + Sends(tx4, e))
            && (EnabledAll(tx, cfg, evs)
                <==> Enabled(tx, a) && Enabled(tx1, b) && Enabled(tx2, c) && EnabledAll(tx3, cfg, ds) && Enabled(tx4, e))
  {
    var tx1 := Step(tx, cfg, a);
    var tx3 := Step(Step(tx1, cfg, b), cfg, c);
    One(tx, cfg, a);
    Two(tx1, cfg, b, c);
    AndThen(tx3, cfg, ds, e);
    RanParts(tx, cfg, [a], [b] + [c]);
    RanParts(tx, cfg, [a] + ([b] + [c]), ds + [e]);
  }

  lemma NoData(a: seq<Datagram>, b: seq<Datagram>, c: seq<Datagram>, d: seq<Datagram>, e: seq<Datagram>)
    requires a == [] && c == [] && e == []
    ensures a + (b + c) + (d + e) == b + d
  {
  }

  /** Resent datagrams are within the refreshed budget and are paid for. */
  lemma ResendsPaid(tx: Tx, cfg: TxConfig, k: Tick)
    requires Enabled(Refreshed(tx, cfg, k), Resending(tx, cfg, k))
    ensures var before, mid := Refreshed(tx, cfg, k), AfterResends(tx, cfg, k);
            var size := DatagramsSize(Sends(before, Resending(tx, cfg, k)));
            && before.outbox == mid.outbox == tx.outbox
            && before.pace == Refresh(tx.pace, cfg.pace, tx.cc, tx.mtu, k.now) && mid.pace == Spend(before.pace, cfg.pace, size)
            && (cfg.pace.enabled && before.pace.budget >= 0.0 ==> size <= before.pace.budget.Floor)
  {
  }

  lemma NewWithin(tx: Tx, cfg: TxConfig, maxBytes: nat)
    requires cfg.pace.enabled && tx.pace.budget >= 0.0 && !Bypasses(tx, cfg, maxBytes)
    ensures NewBudget(tx, cfg, maxBytes) <= tx.pace.budget.Floor
  {
  }

  lemma NewPaid(mid: Tx, cfg: TxConfig, picks: seq<seq<Queued>>, budget: nat, now: Instant)
    requires TxOk(mid) && EnabledAll(mid, cfg, Emits(picks, budget, now))
    ensures var size := DatagramsSize(SendsAll(mid, cfg, Emits(picks, budget, now)));
            var after := Step(StepAll(mid, cfg, Emits(picks, budget, now)), cfg, Pay(size));
            && TxOk(after) && after.pace == Spend(mid.pace, cfg.pace, size) && size <= budget + HEADER_SIZE * |picks|
  {
    EmitsSize(mid, cfg, picks, budget, now);
    PayStep(StepAll(mid, cfg, Emits(picks, budget, now)), cfg, DatagramsSize(SendsAll(mid, cfg, Emits(picks, budget, now))));
  }

  lemma PayStep(tx: Tx, cfg: TxConfig, bytes: nat)
    ensures Step(tx, cfg, Pay(bytes)) == tx.(pace := Spend(tx.pace, cfg.pace, bytes))
  {
  }

  /** The bytes of a tick, resent and new. */
  function BytesAgain(tx: Tx, cfg: TxConfig, k: Tick): nat { DatagramsSize(Sends(Refreshed(tx, cfg, k), Resending(tx, cfg, k))) }

  ghost function BytesNew(tx: Tx, cfg: TxConfig, k: Tick): nat {
    DatagramsSize(SendsAll(AfterResends(tx, cfg, k), cfg, Emitting(tx, cfg, k)))
  }

  /** The states and amounts of a tick, as far as pacing is concerned. */
  lemma TickAmounts(tx: Tx, cfg: TxConfig, k: Tick)
    requires TxOk(tx) && EnabledAll(tx, cfg, TickSteps(tx, cfg, k))
    ensures var mid, after := AfterResends(tx, cfg, k), StepAll(tx, cfg, TickSteps(tx, cfg, k));
            && TxOk(after) && after.pace == Spend(mid.pace, cfg.pace, BytesNew(tx, cfg, k))
            && DatagramsSize(SendsAll(tx, cfg, TickSteps(tx, cfg, k))) == BytesAgain(tx, cfg, k) + BytesNew(tx, cfg, k)
            && BytesNew(tx, cfg, k) <= NewBudget(mid, cfg, k.limits.maxNewBytes) + HEADER_SIZE * |k.picks|
  {
    TickParts(tx, cfg, k);
    ResendsPaid(tx, cfg, k);
    NewPaid(AfterResends(tx, cfg, k), cfg, k.picks, NewBudget(AfterResends(tx, cfg, k), cfg, k.limits.maxNewBytes), k.now);
    SizesConcat(Sends(Refreshed(tx, cfg, k), Resending(tx, cfg, k)), SendsAll(AfterResends(tx, cfg, k), cfg, Emitting(tx, cfg, k)));
  }

  /** A tick sends no more than the budget holds and earns, besides a header for each new datagram
      and the allowance, and pays for it. */
  lemma TickPaced(tx: Tx, cfg: TxConfig, k: Tick)
    requires TxOk(tx) && cfg.pace.enabled && tx.pace.budget >= 0.0 && EnabledAll(tx, cfg, TickSteps(tx, cfg, k))
    ensures var after, out := StepAll(tx, cfg, TickSteps(tx, cfg, k)), SendsAll(tx, cfg, TickSteps(tx, cfg, k));
            && TxOk(after) && after.pace.lastUpdate == k.now && after.pace.budget >= 0.0
            && DatagramsSize(out) as real + after.pace.budget
               <= tx.pace.budget + Earned(cfg.pace, tx.pace.lastUpdate, k.now)
                  + (HEADER_SIZE * |k.picks| + Allowance(tx, cfg, k)) as real
  {
    var before, mid := Refreshed(tx, cfg, k), AfterResends(tx, cfg, k);
    TickParts(tx, cfg, k);
    TickAmounts(tx, cfg, k);
    ResendsPaid(tx, cfg, k);
    RefreshEarns(tx.pace, cfg.pace, tx.cc, tx.mtu, k.now);
    if !Bypasses(mid, cfg, k.limits.maxNewBytes) { NewWithin(mid, cfg, k.limits.maxNewBytes); }
    TickPays(before.pace, cfg.pace, BytesAgain(tx, cfg, k), BytesNew(tx, cfg, k), HEADER_SIZE * |k.picks| + Allowance(tx, cfg, k));
  }

  /** The three phases of a tick, one after the other. */
  lemma TickRan(tx: Tx, cfg: TxConfig, k: Tick, before: Tx, resent: seq<Datagram>, mid: Tx, out: seq<Datagram>, after: Tx)
    requires Ran(tx, cfg, [Refill(k.now)], before, [])
    requires Ran(before, cfg, [Resending(tx, cfg, k)] + [Pay(DatagramsSize(resent))], mid, resent)
    requires var emits := Emits(k.picks, NewBudget(mid, cfg, k.limits.maxNewBytes), k.now);
             out == SendsAll(mid, cfg, emits) && Ran(mid, cfg, emits + [Pay(DatagramsSize(out))], after, out)
    ensures Ran(tx, cfg, TickSteps(tx, cfg, k), after, resent + out)
  {
    var again := Resending(tx, cfg, k);
    RanOne(tx, cfg, Refill(k.now), before, []);
    assert before == Refreshed(tx, cfg, k);
    RanParts(before, cfg, [again], [Pay(DatagramsSize(resent))]);
    One(before, cfg, again);
    One(Step(before, cfg, again), cfg, Pay(DatagramsSize(resent)));
    assert resent == Sends(before, again) + [] == Sends(before, again);
    RanConcat(tx, cfg, [Refill(k.now)], before, [], [again] + [Pay(DatagramsSize(resent))], mid, resent);
    assert [] + resent == resent;
    RanConcat(tx, cfg, [Refill(k.now)] + ([again] + [Pay(DatagramsSize(resent))]), mid, resent,
              Emitting(tx, cfg, k) + [Pay(DatagramsSize(out))], after, out);
  }

  /** A tick never leaves a negative budget. */
  lemma TickKeepsBudget(tx: Tx, cfg: TxConfig, k: Tick)
    requires TxOk(tx) && tx.pace.budget >= 0.0 && EnabledAll(tx, cfg, TickSteps(tx, cfg, k))
    ensures StepAll(tx, cfg, TickSteps(tx, cfg, k)).pace.budget >= 0.0
  {
    if cfg.pace.enabled {
      TickPaced(tx, cfg, k);
    } else {
      TickParts(tx, cfg, k);
      TickAmounts(tx, cfg, k);
      ResendsPaid(tx, cfg, k);
    }
  }

  // ----- any run of ticks -----

  /** Between ticks anything else may happen: queueing, acknowledgements, a new MTU. */
  datatype Stage = Ticked(tick: Tick) | Between(event: Event)

  ghost function StageSteps(tx: Tx, cfg: TxConfig, st: Stage): seq<Event> {
    match st
    case Ticked(k) => TickSteps(tx, cfg, k)
    case Between(e) => [e]
  }

  predicate OutsideTick(e: Event) { !e.Emit? && !e.Again? && !e.Refill? && !e.Pay? }

  ghost predicate StageAt(cfg: TxConfig, txs: seq<Tx>, stages: seq<Stage>, i: nat) {
    && i < |stages| && i + 1 < |txs|
    && EnabledAll(txs[i], cfg, StageSteps(txs[i], cfg, stages[i]))
    && txs[i + 1] == StepAll(txs[i], cfg, StageSteps(txs[i], cfg, stages[i]))
    && (stages[i].Ticked? ==> txs[i].pace.lastUpdate <= stages[i].tick.now)
    && (stages[i].Between? ==> OutsideTick(stages[i].event))
  }

  /** A run of the sending half, stage by stage, with a clock that does not run backwards. */
  ghost predicate IsTickRun(cfg: TxConfig, txs: seq<Tx>, stages: seq<Stage>) {
    && |txs| == |stages| + 1 && TxOk(txs[0])
    && forall i: nat | i < |stages| :: StageAt(cfg, txs, stages, i)
  }

  /** All data datagrams sent in a run. */
  ghost function Data(cfg: TxConfig, txs: seq<Tx>, stages: seq<Stage>): seq<Datagram>
    requires |txs| == |stages| + 1
  {
    if stages == [] then []
    else
      var n := |stages| - 1;
      Data(cfg, txs[..n + 1], stages[..n]) + SendsAll(txs[n], cfg, StageSteps(txs[n], cfg, stages[n]))
  }

  /** How many of them were new. */
  function NewDatagrams(stages: seq<Stage>): nat {
    if stages == [] then 0
    else NewDatagrams(stages[..|stages| - 1])
         + if stages[|stages| - 1].Ticked? then |stages[|stages| - 1].tick.picks| else 0
  }

  /** The allowances of the ticks that had one. */
  function Allowances(cfg: TxConfig, txs: seq<Tx>, stages: seq<Stage>): nat
    requires |txs| == |stages| + 1
  {
    if stages == [] then 0
    else
      var n := |stages| - 1;
      Allowances(cfg, txs[..n + 1], stages[..n]) + if stages[n].Ticked? then Allowance(txs[n], cfg, stages[n].tick) else 0
  }

  /** Nothing between ticks sends data or touches the budget. */
  lemma BetweenTicks(tx: Tx, cfg: TxConfig, e: Event)
    requires TxOk(tx) && OutsideTick(e)
    ensures TxOk(Step(tx, cfg, e)) && Step(tx, cfg, e).pace == tx.pace && Sends(tx, e) == []
  {
    Conservation.StepKeepsOk(tx, cfg, e);
    if e.Queue? { Conservation.QueueFlow(tx, cfg, e); }
    if e.Receipts? { Conservation.ProcessFlow(tx, cfg, e.now); }
  }

  ghost predicate PacedSoFar(cfg: TxConfig, first: Pace, last: Pace, bytes: nat, extra: nat) {
    && last.budget >= 0.0 && first.lastUpdate <= last.lastUpdate
    && bytes as real + last.budget <= first.budget + Earned(cfg.pace, first.lastUpdate, last.lastUpdate) + extra as real
  }

  lemma PacedMore(cfg: TxConfig, first: Pace, mid: Pace, last: Pace, bytes: nat, extra: nat, more: nat, further: nat)
    requires PacedSoFar(cfg, first, mid, bytes, extra) && mid.lastUpdate <= last.lastUpdate && last.budget >= 0.0
    requires more as real + last.budget <= mid.budget + Earned(cfg.pace, mid.lastUpdate, last.lastUpdate) + further as real
    ensures PacedSoFar(cfg, first, last, bytes + more, extra + further)
  {
    EarnedAdds(cfg.pace, first.lastUpdate, mid.lastUpdate, last.lastUpdate);
  }

  /** Over any run of ticks, with anything else between them, the data bytes sent are at most the
      initial budget, the maximum rate over the time that passed, a header for each new datagram,
      and a datagram's worth for each tick in which an immediate frame went past the budget. */
  lemma {:induction false} PacedTotal(cfg: TxConfig, txs: seq<Tx>, stages: seq<Stage>)
    requires IsTickRun(cfg, txs, stages) && cfg.pace.enabled && txs[0].pace.budget >= 0.0
    ensures TxOk(txs[|stages|])
    ensures PacedSoFar(cfg, txs[0].pace, txs[|stages|].pace, DatagramsSize(Data(cfg, txs, stages)),
                       HEADER_SIZE * NewDatagrams(stages) + Allowances(cfg, txs, stages))
  {
    if stages != [] {
      var n := |stages| - 1;
      var front, init := txs[..n + 1], stages[..n];
      forall i: nat | i < n ensures StageAt(cfg, front, init, i) { assert StageAt(cfg, txs, stages, i); }
      PacedTotal(cfg, front, init);
      assert StageAt(cfg, txs, stages, n);
      var st, mid, last := stages[n], txs[n], txs[n + 1];
      var more := SendsAll(mid, cfg, StageSteps(mid, cfg, st));
      SizesConcat(Data(cfg, front, init), more);
      var extra := HEADER_SIZE * NewDatagrams(init) + Allowances(cfg, front, init);
      if st.Ticked? {
        TickPaced(mid, cfg, st.tick);
        PacedMore(cfg, txs[0].pace, mid.pace, last.pace, DatagramsSize(Data(cfg, front, init)), extra,
                  DatagramsSize(more), HEADER_SIZE * |st.tick.picks| + Allowance(mid, cfg, st.tick));
      } else {
        One(mid, cfg, st.event);
        BetweenTicks(mid, cfg, st.event);
      }
    }
  }
}
