/** Round-trip estimation, retransmission timeout and congestion window (src/session/mod.rs),
    with floating point taken as real arithmetic. */
module Congestion {
  import opened Base

  datatype CcSettings = CcSettings(
    minRto: real, maxRto: real,
    minWindow: real, maxWindow: real,
    additiveGain: real,
    decreaseNack: real, decreaseTimeout: real,
    highRttThreshold: real, highRttScale: real,
    nackCooldown: real)

  /** What the session constructor makes of a validated configuration. */
  predicate ConfigOk(cfg: CcSettings) {
    && 0.0 < cfg.minRto <= cfg.maxRto
    && 1.0 <= cfg.minWindow <= cfg.maxWindow
    && 0.01 <= cfg.additiveGain
    && 0.05 <= cfg.highRttScale <= 1.0
    && 0.0 < cfg.nackCooldown
  }

  type CcConfig = c: CcSettings | ConfigOk(c)
    witness CcSettings(80.0, 2000.0, 8.0, 1024.0, 1.0, 0.85, 0.6, 180.0, 0.6, 50.0)

  datatype Cc = Cc(
    srtt: Option<real>, rttvar: real, rto: real,
    window: real, threshold: real,
    nextNackBackoff: Instant)

  function Abs(x: real): real { if x < 0.0 then -x else x }

  /** A sample counts as at least one millisecond. */
  function EffectiveSample(sample: real): real { MaxReal(sample, 1.0) }

  function ObserveRtt(cc: Cc, cfg: CcConfig, sample: real): Cc
  {
    var s := EffectiveSample(sample);
    var measured :=
      match cc.srtt
      case None => cc.(srtt := Some(s), rttvar := s / 2.0)
      case Some(srtt) =>
        cc.(rttvar := 0.75 * cc.rttvar + 0.25 * Abs(srtt - s), srtt := Some(0.875 * srtt + 0.125 * s));
    RecomputeRto(measured, cfg)
  }

  function RecomputeRto(cc: Cc, cfg: CcConfig): Cc
  {
    match cc.srtt
    case None => cc
    case Some(srtt) => cc.(rto := Clamp(srtt + MaxReal(4.0 * cc.rttvar, 10.0), cfg.minRto, cfg.maxRto))
  }

  function OnReliableAck(cc: Cc, cfg: CcConfig): Cc
  {
    var base :=
      if cc.window < cc.threshold then MaxReal(cfg.additiveGain, 1.0)
      else cfg.additiveGain / MaxReal(cc.window, 1.0);
    var scaled := if cc.srtt.Some? && cc.srtt.value >= cfg.highRttThreshold then base * cfg.highRttScale else base;
    cc.(window := Clamp(cc.window + MaxReal(scaled, 0.001), cfg.minWindow, cfg.maxWindow))
  }

  function LossBackoff(cc: Cc, cfg: CcConfig, factor: real): Cc
  {
    var reduced := Clamp(cc.window * Clamp(factor, 0.1, 0.99), cfg.minWindow, cfg.maxWindow);
    cc.(threshold := reduced, window := reduced)
  }

  function OnTimeout(cc: Cc, cfg: CcConfig, now: Instant): Cc
  {
    LossBackoff(cc, cfg, cfg.decreaseTimeout).(
      rto := MinReal(cc.rto * 2.0, cfg.maxRto), nextNackBackoff := now + cfg.nackCooldown)
  }

  function OnNackLoss(cc: Cc, cfg: CcConfig, now: Instant): Cc
  {
    if now < cc.nextNackBackoff then cc
    else LossBackoff(cc, cfg, cfg.decreaseNack).(nextNackBackoff := now + cfg.nackCooldown)
  }

  function CanEmit(cc: Cc, inFlight: nat): bool { inFlight < MaxReal(cc.window, 1.0).Floor }

  // ----- any run of acknowledgements and losses -----

  datatype CcEvent = Acked(sample: Option<real>) | TimedOut(at: Instant) | Nacked(at: Instant)

  function CcStep(cc: Cc, cfg: CcConfig, e: CcEvent): Cc
  {
    match e
    case Acked(None) => OnReliableAck(cc, cfg)
    case Acked(Some(sample)) => ObserveRtt(OnReliableAck(cc, cfg), cfg, sample)
    case TimedOut(at) => OnTimeout(cc, cfg, at)
    case Nacked(at) => OnNackLoss(cc, cfg, at)
  }

  function CcRun(cc: Cc, cfg: CcConfig, events: seq<CcEvent>): Cc
  {
    if events == [] then cc else CcStep(CcRun(cc, cfg, events[..|events| - 1]), cfg, events[|events| - 1])
  }

  /** Timeout, window and threshold are in their configured ranges. */
  ghost predicate InRange(cc: Cc, cfg: CcConfig) {
    && cfg.minRto <= cc.rto <= cfg.maxRto
    && cfg.minWindow <= cc.window <= cfg.maxWindow
    && cfg.minWindow <= cc.threshold <= cfg.maxWindow
  }

  /** The estimates of samples between `lo` and `hi` (section 2 of RFC 6298). */
  ghost predicate Estimates(cc: Cc, lo: real, hi: real) {
    && 0.0 <= cc.rttvar
    && (cc.srtt.None? ==> cc.rttvar == 0.0)
    && (cc.srtt.Some? ==> lo <= cc.srtt.value <= hi && cc.rttvar <= MaxReal(hi / 2.0, hi - lo))
  }

  lemma ObserveEstimates(cc: Cc, cfg: CcConfig, sample: real, lo: real, hi: real)
    requires Estimates(cc, lo, hi) && lo <= EffectiveSample(sample) <= hi
    ensures Estimates(ObserveRtt(cc, cfg, sample), lo, hi)
  {
    var s := EffectiveSample(sample);
    if cc.srtt.Some? {
      var srtt := cc.srtt.value;
      assert Abs(srtt - s) <= hi - lo;
      assert 0.75 * cc.rttvar + 0.25 * Abs(srtt - s) <= MaxReal(hi / 2.0, hi - lo);
    }
  }

  lemma StepInRange(cc: Cc, cfg: CcConfig, e: CcEvent)
    requires InRange(cc, cfg)
    ensures InRange(CcStep(cc, cfg, e), cfg)
  {
  }

  /** Every sample of the run, as it counts, is between the bounds. */
  ghost predicate SamplesWithin(events: seq<CcEvent>, lo: real, hi: real) {
    forall e <- events :: e.Acked? && e.sample.Some? ==> lo <= EffectiveSample(e.sample.value) <= hi
  }

  /** In every run, estimates stay within the bounds of the samples and everything configured
      stays in its range. */
  lemma {:induction false} RunStaysInRange(cc: Cc, cfg: CcConfig, events: seq<CcEvent>, lo: real, hi: real)
    requires InRange(cc, cfg) && Estimates(cc, lo, hi) && SamplesWithin(events, lo, hi)
    ensures InRange(CcRun(cc, cfg, events), cfg) && Estimates(CcRun(cc, cfg, events), lo, hi)
  {
    if events != [] {
      var init, e := events[..|events| - 1], events[|events| - 1];
      assert e in events;
      forall x <- init ensures x in events {}
      RunStaysInRange(cc, cfg, init, lo, hi);
      var before := CcRun(cc, cfg, init);
      StepInRange(before, cfg, e);
      if e.Acked? && e.sample.Some? {
        ObserveEstimates(OnReliableAck(before, cfg), cfg, e.sample.value, lo, hi);
      }
    }
  }

  /** Acknowledgements widen the window, by a thousandth at least, until it is at its maximum. */
  lemma AckWidens(cc: Cc, cfg: CcConfig)
    requires InRange(cc, cfg)
    ensures var after := OnReliableAck(cc, cfg);
            && after.window >= MinReal(cc.window + 0.001, cfg.maxWindow)
            && after == cc.(window := after.window)
  {
  }

  lemma CutShrinks(window: real, factor: real, lo: real, hi: real)
    requires 1.0 <= lo <= window <= hi
    ensures lo <= Clamp(window * Clamp(factor, 0.1, 0.99), lo, hi) <= window
    ensures window > lo ==> Clamp(window * Clamp(factor, 0.1, 0.99), lo, hi) < window
  {
    var f := Clamp(factor, 0.1, 0.99);
    assert window * f <= window * 0.99;
    assert window * f > 0.0;
  }

  /** A timeout narrows the window unless it is at its minimum, never widens it, and doubles the
      retransmission timeout up to its maximum. */
  lemma TimeoutNarrows(cc: Cc, cfg: CcConfig, now: Instant)
    requires InRange(cc, cfg)
    ensures OnTimeout(cc, cfg, now).window <= cc.window
    ensures cc.window > cfg.minWindow ==> OnTimeout(cc, cfg, now).window < cc.window
    ensures OnTimeout(cc, cfg, now).rto == MinReal(2.0 * cc.rto, cfg.maxRto)
  {
    CutShrinks(cc.window, cfg.decreaseTimeout, cfg.minWindow, cfg.maxWindow);
  }

  /** A reported loss narrows the window in the same way, but does nothing before the next cut is
      permitted. */
  lemma NackNarrows(cc: Cc, cfg: CcConfig, now: Instant)
    requires InRange(cc, cfg)
    ensures OnNackLoss(cc, cfg, now).window <= cc.window
    ensures OnNackLoss(cc, cfg, now).window < cc.window <==> now >= cc.nextNackBackoff && cc.window > cfg.minWindow
    ensures now < cc.nextNackBackoff ==> OnNackLoss(cc, cfg, now) == cc
  {
    CutShrinks(cc.window, cfg.decreaseNack, cfg.minWindow, cfg.maxWindow);
  }

  // ----- spacing of the window cuts that NACKs cause -----

  function At(e: CcEvent): Option<Instant> {
    match e
    case Acked(_) => None
    case TimedOut(at) => Some(at)
    case Nacked(at) => Some(at)
  }

  /** Clock readings do not run backwards. */
  ghost predicate Forward(events: seq<CcEvent>) {
    forall i, j | 0 <= i < j < |events| && At(events[i]).Some? && At(events[j]).Some? ::
      At(events[i]).value <= At(events[j]).value
  }

  /** The event at `i` is a NACK that reduces the window. */
  ghost predicate CutsAt(cc: Cc, cfg: CcConfig, events: seq<CcEvent>, i: nat)
    requires i < |events|
  {
    events[i].Nacked? && events[i].at >= CcRun(cc, cfg, events[..i]).nextNackBackoff
  }

  lemma {:induction false} BackoffHolds(cc: Cc, cfg: CcConfig, events: seq<CcEvent>, i: nat, j: nat)
    requires Forward(events) && i < j <= |events| && CutsAt(cc, cfg, events, i)
    ensures CcRun(cc, cfg, events[..j]).nextNackBackoff >= events[i].at + cfg.nackCooldown
    decreases j
  {
    assert events[..j][..j - 1] == events[..j - 1];
    if i < j - 1 { BackoffHolds(cc, cfg, events, i, j - 1); }
  }

  /** Two window cuts caused by NACKs are at least one cooldown apart. */
  lemma CutsApart(cc: Cc, cfg: CcConfig, events: seq<CcEvent>, i: nat, j: nat)
    requires Forward(events) && i < j < |events|
    requires CutsAt(cc, cfg, events, i) && CutsAt(cc, cfg, events, j)
    ensures events[j].at >= events[i].at + cfg.nackCooldown
  {
    BackoffHolds(cc, cfg, events, i, j);
  }
}

/** Send pacing (src/session/mod.rs): a byte budget that refills at a rate derived from window
    and round-trip time. */
module Pacing {
  import opened Base
  import opened Congestion

  datatype PaceSettings = PaceSettings(enabled: bool, gain: real, minRate: real, maxRate: real, maxBudget: real)

  predicate PaceConfigOk(cfg: PaceSettings) {
    0.0 < cfg.minRate <= cfg.maxRate && 1.0 <= cfg.maxBudget
  }

  type PaceConfig = c: PaceSettings | PaceConfigOk(c) witness PaceSettings(true, 1.0, 24576.0, 33554432.0, 131072.0)

  datatype Pace = Pace(budget: real, rate: real, lastUpdate: Instant)

  /** Bytes per second. */
  function PacingRate(cfg: PaceConfig, cc: Cc, mtu: nat): real
  {
    var reference := if cc.srtt.Some? then cc.srtt.value else MaxReal(cc.rto, 1.0);
    var rttSecs := MaxReal(reference, 1.0) / 1000.0;
    var windowBytes := MaxReal(cc.window, 1.0) * mtu as real;
    Clamp(windowBytes / rttSecs * cfg.gain, cfg.minRate, cfg.maxRate)
  }

  function Refresh(p: Pace, cfg: PaceConfig, cc: Cc, mtu: nat, now: Instant): Pace
  {
    if !cfg.enabled then p
    else
      var elapsed := Since(now, p.lastUpdate) / 1000.0;
      var rate := PacingRate(cfg, cc, mtu);
      Pace(if elapsed > 0.0 then Clamp(p.budget + elapsed * rate, 0.0, cfg.maxBudget) else p.budget, rate, now)
  }

  function Spend(p: Pace, cfg: PaceConfig, bytes: nat): Pace {
    if !cfg.enabled then p else p.(budget := MaxReal(p.budget - bytes as real, 0.0))
  }

  /** The most the budget can gain between two clock readings. */
  function Earned(cfg: PaceConfig, from: Instant, now: Instant): (r: real)
    ensures r >= 0.0
  {
    Since(now, from) / 1000.0 * cfg.maxRate
  }

  /** A refresh adds at most the elapsed time at the maximum rate. */
  lemma RefreshEarns(p: Pace, cfg: PaceConfig, cc: Cc, mtu: nat, now: Instant)
    requires cfg.enabled && 0.0 <= p.budget
    ensures var q := Refresh(p, cfg, cc, mtu, now);
            0.0 <= q.budget <= p.budget + Earned(cfg, p.lastUpdate, now) && q.lastUpdate == now
  {
    RateInRange(cfg, cc, mtu);
    RefillEarns(p.budget, Since(now, p.lastUpdate) / 1000.0, PacingRate(cfg, cc, mtu), cfg.maxRate, cfg.maxBudget);
  }

  lemma RateInRange(cfg: PaceConfig, cc: Cc, mtu: nat)
    ensures 0.0 <= PacingRate(cfg, cc, mtu) <= cfg.maxRate
  {
  }

  lemma RefillEarns(budget: real, elapsed: real, rate: real, maxRate: real, maxBudget: real)
    requires 0.0 <= budget && 0.0 <= elapsed && 0.0 <= rate <= maxRate && 0.0 <= maxBudget
    ensures 0.0 <= Clamp(budget + elapsed * rate, 0.0, maxBudget) <= budget + elapsed * maxRate
    ensures budget <= budget + elapsed * maxRate
  {
    MulMono(rate, maxRate, elapsed);
    MulMono(0.0, rate, elapsed);
  }

  lemma EarnedAdds(cfg: PaceConfig, a: Instant, b: Instant, c: Instant)
    requires a <= b <= c
    ensures Earned(cfg, a, b) + Earned(cfg, b, c) == Earned(cfg, a, c)
  {
    Distributes((b - a) / 1000.0, (c - b) / 1000.0, cfg.maxRate);
    assert (b - a) / 1000.0 + (c - b) / 1000.0 == (c - a) / 1000.0;
  }

  /** Resends stay within the whole part of the budget, new datagrams within what is left of it,
      except for `extra` bytes; both are paid for. */
  lemma TickPays(p: Pace, cfg: PaceConfig, resent: nat, sent: nat, extra: nat)
    requires cfg.enabled && 0.0 <= p.budget
    requires resent <= p.budget.Floor && sent <= Spend(p, cfg, resent).budget.Floor + extra
    ensures var q := Spend(Spend(p, cfg, resent), cfg, sent);
            && q.lastUpdate == p.lastUpdate && q.budget >= 0.0
            && (resent + sent) as real + q.budget <= p.budget + extra as real
  {
  }
}
