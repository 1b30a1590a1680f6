/** Token buckets that bound processing per address and in total, with eviction of idle buckets
    (src/transport/rate_limiter.rs). Floating point is taken as real arithmetic and time is in
    milliseconds. */
module TokenBuckets {
  import opened Base

  type Ip = nat

  datatype Bucket = Bucket(tokens: real, lastRefill: Instant)

  datatype Settings = Settings(
    enabled: bool, ipRefill: nat, ipBurst: nat, globalRefill: nat, globalBurst: nat, idleTtl: real)

  datatype Decision = Allow | IpExhausted | GlobalExhausted

  /** An enabled configuration has no zero left in it. */
  function Normalize(s: Settings): (r: Settings)
    ensures Usable(r)
  {
    if !s.enabled then s
    else Settings(true, Max(s.ipRefill, 1), Max(s.ipBurst, 1), Max(s.globalRefill, 1), Max(s.globalBurst, 1),
                  if s.idleTtl <= 0.0 then 1.0 else s.idleTtl)
  }

  predicate Usable(s: Settings) {
    s.enabled ==> s.ipRefill >= 1 && s.ipBurst >= 1 && s.globalRefill >= 1 && s.globalBurst >= 1 && s.idleTtl > 0.0
  }

  // ----- one bucket -----

  function Full(now: Instant, burst: nat): Bucket { Bucket(burst as real, now) }

  /** What a rate yields between two clock readings. */
  function Yield(from: Instant, now: Instant, rate: nat): real { Since(now, from) / 1000.0 * rate as real }

  function Refill(b: Bucket, now: Instant, rate: nat, burst: nat): Bucket {
    if now <= b.lastRefill then b
    else Bucket(Clamp(b.tokens + Yield(b.lastRefill, now, rate), 0.0, burst as real), now)
  }

  function Spend(b: Bucket, cost: nat): Bucket { b.(tokens := MaxReal(b.tokens - cost as real, 0.0)) }

  // ----- the budget -----

  datatype Budget = Budget(global: Bucket, buckets: map<Ip, Bucket>)

  function Fresh(s: Settings, now: Instant): Budget { Budget(Full(now, s.globalBurst), map[]) }

  function Cost(s: Settings, units: nat): (c: nat)
    ensures c >= 1
  {
    Min(Max(units, 1), Max(Min(s.ipBurst, s.globalBurst), 1))
  }

  function Idle(b: Bucket, s: Settings, now: Instant): bool { Since(now, b.lastRefill) > s.idleTtl }

  function Tick(b: Budget, s: Settings, now: Instant): Budget {
    if !s.enabled then b.(buckets := map[])
    else b.(buckets := map ip | ip in b.buckets && !Idle(b.buckets[ip], s, now) :: b.buckets[ip])
  }

  /** The bucket of an address as a request finds it. */
  function BucketOf(b: Budget, s: Settings, ip: Ip, now: Instant): Bucket {
    Refill(if ip in b.buckets then b.buckets[ip] else Full(now, s.ipBurst), now, s.ipRefill, s.ipBurst)
  }

  function Consume(b: Budget, s: Settings, ip: Ip, units: nat, now: Instant): (Budget, Decision) {
    if !s.enabled then (b, Allow)
    else
      var cost := Cost(s, units);
      var global := Refill(b.global, now, s.globalRefill, s.globalBurst);
      if global.tokens < cost as real then (b.(global := global), GlobalExhausted)
      else
        var own := BucketOf(b, s, ip, now);
        if own.tokens < cost as real then (Budget(global, b.buckets[ip := own]), IpExhausted)
        else (Budget(Spend(global, cost), b.buckets[ip := Spend(own, cost)]), Allow)
  }

  // ----- runs -----

  datatype Op = TickAt(now: Instant) | ConsumeAt(ip: Ip, units: nat, now: Instant)

  /** A run with or without eviction, and the decisions taken in it. */
  function Run(s: Settings, start: Budget, ops: seq<Op>, evict: bool): (Budget, seq<Decision>) {
    if ops == [] then (start, [])
    else
      var (b, ds) := Run(s, start, ops[..|ops| - 1], evict);
      match ops[|ops| - 1]
      case TickAt(now) => (if evict then Tick(b, s, now) else b, ds)
      case ConsumeAt(ip, units, now) => var (c, d) := Consume(b, s, ip, units, now); (c, ds + [d])
  }

  /** Clock readings do not run backwards, from `from` on. */
  ghost predicate Forward(ops: seq<Op>, from: Instant) {
    && (forall op <- ops :: from <= op.now)
    && (forall i, j | 0 <= i < j < |ops| :: ops[i].now <= ops[j].now)
  }

  function Clock(ops: seq<Op>, from: Instant): Instant { if ops == [] then from else ops[|ops| - 1].now }

  // ----- eviction is invisible -----

  /** An idle bucket has time to fill up before it is evicted. */
  predicate FillsWhileIdle(s: Settings) { s.idleTtl / 1000.0 * s.ipRefill as real >= s.ipBurst as real }

  ghost predicate Sound(b: Bucket, burst: nat, clock: Instant) { 0.0 <= b.tokens <= burst as real && b.lastRefill <= clock }

  ghost predicate AllSound(b: Budget, s: Settings, clock: Instant) {
    Sound(b.global, s.globalBurst, clock) && forall ip <- b.buckets :: Sound(b.buckets[ip], s.ipBurst, clock)
  }

  /** The evicting budget lacks only buckets that have been idle past the limit. */
  ghost predicate Mirrors(e: Budget, r: Budget, s: Settings, clock: Instant) {
    && e.global == r.global
    && (forall ip <- e.buckets :: ip in r.buckets && e.buckets[ip] == r.buckets[ip])
    && (forall ip <- r.buckets :: ip in e.buckets || Idle(r.buckets[ip], s, clock))
  }

  lemma RefillSound(b: Bucket, now: Instant, rate: nat, burst: nat, clock: Instant)
    requires Sound(b, burst, clock) && clock <= now
    ensures Sound(Refill(b, now, rate, burst), burst, now)
  {
  }

  /** A bucket idle past the limit is full again. */
  lemma IdleFills(b: Bucket, s: Settings, clock: Instant, now: Instant)
    requires Usable(s) && s.enabled && FillsWhileIdle(s) && Sound(b, s.ipBurst, clock) && clock <= now && Idle(b, s, clock)
    ensures Refill(b, now, s.ipRefill, s.ipBurst) == Full(now, s.ipBurst)
  {
    MulMono(s.idleTtl / 1000.0, Since(now, b.lastRefill) / 1000.0, s.ipRefill as real);
  }

  lemma FullStays(s: Settings, now: Instant)
    ensures Refill(Full(now, s.ipBurst), now, s.ipRefill, s.ipBurst) == Full(now, s.ipBurst)
  {
  }

  /** So an address finds the same bucket whether or not it was evicted. */
  lemma SameBucket(e: Budget, r: Budget, s: Settings, clock: Instant, ip: Ip, now: Instant)
    requires Usable(s) && s.enabled && FillsWhileIdle(s) && AllSound(r, s, clock) && Mirrors(e, r, s, clock) && clock <= now
    ensures BucketOf(e, s, ip, now) == BucketOf(r, s, ip, now)
  {
    if ip !in e.buckets {
      FullStays(s, now);
      if ip in r.buckets { IdleFills(r.buckets[ip], s, clock, now); }
    }
  }

  lemma ConsumeMirrors(e: Budget, r: Budget, s: Settings, clock: Instant, ip: Ip, units: nat, now: Instant)
    requires Usable(s) && s.enabled && FillsWhileIdle(s) && AllSound(r, s, clock) && Mirrors(e, r, s, clock) && clock <= now
    ensures var (e2, d) := Consume(e, s, ip, units, now);
            var (r2, c) := Consume(r, s, ip, units, now);
            d == c && Mirrors(e2, r2, s, now)
  {
    SameBucket(e, r, s, clock, ip, now);
  }

  lemma ConsumeSound(b: Budget, s: Settings, clock: Instant, ip: Ip, units: nat, now: Instant)
    requires s.enabled && AllSound(b, s, clock) && clock <= now
    ensures AllSound(Consume(b, s, ip, units, now).0, s, now)
  {
    RefillSound(b.global, now, s.globalRefill, s.globalBurst, clock);
    var own := if ip in b.buckets then b.buckets[ip] else Full(now, s.ipBurst);
    RefillSound(own, now, s.ipRefill, s.ipBurst, now);
  }

  /** If an idle bucket fills up within the idle limit, every run takes the same decisions as if
      nothing were ever evicted. */
  lemma {:induction false} EvictionInvisible(s: Settings, start: Instant, ops: seq<Op>)
    requires Usable(s) && (s.enabled ==> FillsWhileIdle(s)) && Forward(ops, start)
    ensures Run(s, Fresh(s, start), ops, true).1 == Run(s, Fresh(s, start), ops, false).1
    ensures s.enabled ==>
              var r := Run(s, Fresh(s, start), ops, false).0;
              AllSound(r, s, Clock(ops, start)) && Mirrors(Run(s, Fresh(s, start), ops, true).0, r, s, Clock(ops, start))
  {
    if ops != [] {
      var init, op := ops[..|ops| - 1], ops[|ops| - 1];
      ForwardInit(ops, start);
      EvictionInvisible(s, start, init);
      if s.enabled && op.ConsumeAt? {
        var e, r := Run(s, Fresh(s, start), init, true).0, Run(s, Fresh(s, start), init, false).0;
        ConsumeMirrors(e, r, s, Clock(init, start), op.ip, op.units, op.now);
        ConsumeSound(r, s, Clock(init, start), op.ip, op.units, op.now);
      }
    }
  }

  lemma ForwardInit(ops: seq<Op>, start: Instant)
    requires ops != [] && Forward(ops, start)
    ensures Forward(ops[..|ops| - 1], start) && Clock(ops[..|ops| - 1], start) <= ops[|ops| - 1].now
  {
    forall op <- ops[..|ops| - 1] ensures start <= op.now { assert op in ops; }
    assert ops[|ops| - 1] in ops;
  }

  // ----- eviction is hidden by the total -----

  /** The least whole number of tokens above what an idle bucket regains within the idle limit. */
  function Beyond(s: Settings): int { AboveFloor(s.idleTtl / 1000.0, s.ipRefill) }

  /** The total runs out before the difference shows: an address fills up no slower than the total
      does, and by the time of an eviction it has caught up with it. */
  predicate TotalCatchesUp(s: Settings) {
    s.globalRefill <= s.ipRefill && Outweighs(Beyond(s), s.ipRefill, s.globalRefill, s.globalBurst - s.ipBurst)
  }

  /** While the slower rate `q` yields the rest, a rate `r` yields `tokens` no later than one that
      is ahead by `extra`. */
  predicate Outweighs(tokens: int, r: nat, q: nat, extra: int) { tokens * (r - q) >= extra * r }

  function AboveFloor(idle: real, rate: nat): int { (idle * rate as real).Floor + 1 }

  /** The bucket has been filling since `since`, when it would have held `held` tokens but for
      later costs, and the total has not gained more on it than the bursts and rates allow. */
  ghost predicate Dated(b: Bucket, g: Bucket, s: Settings, held: int, since: Instant) {
    && since <= b.lastRefill <= g.lastRefill
    && b.tokens == held as real + Yield(since, b.lastRefill, s.ipRefill)
    && g.tokens <= (held + s.globalBurst - s.ipBurst) as real + Yield(since, g.lastRefill, s.globalRefill)
  }

  ghost predicate DatedSome(b: Bucket, g: Bucket, s: Settings) {
    exists held: int, since: Instant :: Dated(b, g, s, held, since)
  }

  /** The same with a date further back than the idle limit. */
  ghost predicate Old(b: Bucket, g: Bucket, s: Settings) {
    exists held: int, since: Instant :: Dated(b, g, s, held, since) && b.lastRefill - since > s.idleTtl
  }

  lemma DatedLater(b: Bucket, g: Bucket, s: Settings, held: int, since: Instant, now: Instant, cost: nat)
    requires Dated(b, g, s, held, since)
    ensures Dated(b, Refill(g, now, s.globalRefill, s.globalBurst), s, held, since) || g.tokens < 0.0
    ensures g.tokens >= cost as real ==> Dated(b, Spend(g, cost), s, held, since)
  {
    if now > g.lastRefill {
      YieldAdds(since, g.lastRefill, now, s.globalRefill);
      MulMono(0.0, (now - g.lastRefill) / 1000.0, s.globalRefill as real);
    }
  }

  /** A request finds a bucket that has filled on since the same date, or is full. */
  lemma DatedOwn(b: Bucket, g: Bucket, s: Settings, held: int, since: Instant, now: Instant)
    requires Dated(b, g, s, held, since) && g.lastRefill == now && 0.0 <= b.tokens <= s.ipBurst as real
    ensures var own := Refill(b, now, s.ipRefill, s.ipBurst);
            own.lastRefill == now && b.tokens <= own.tokens && (Dated(own, g, s, held, since) || own == Full(now, s.ipBurst))
  {
    if now > b.lastRefill {
      YieldAdds(since, b.lastRefill, now, s.ipRefill);
      MulMono(0.0, (now - b.lastRefill) / 1000.0, s.ipRefill as real);
    }
  }

  lemma FullDated(g: Bucket, s: Settings, now: Instant)
    requires g.lastRefill == now && g.tokens <= s.globalBurst as real
    ensures Dated(Full(now, s.ipBurst), g, s, s.ipBurst, now)
  {
    assert Yield(now, now, s.ipRefill) == 0.0 && Yield(now, now, s.globalRefill) == 0.0;
  }

  lemma DatedSpend(b: Bucket, g: Bucket, s: Settings, held: int, since: Instant, cost: nat)
    requires Dated(b, g, s, held, since) && cost as real <= b.tokens && cost as real <= g.tokens
    ensures Dated(Spend(b, cost), Spend(g, cost), s, held - cost, since)
  {
  }

  /** A bucket filling since before the idle limit affords whatever the total affords. */
  lemma OldAffords(b: Bucket, g: Bucket, s: Settings, held: int, since: Instant, cost: nat)
    requires Usable(s) && s.enabled && TotalCatchesUp(s) && Dated(b, g, s, held, since) && b.lastRefill == g.lastRefill
    requires b.lastRefill - since > s.idleTtl && cost as real <= g.tokens
    ensures cost as real <= b.tokens
  {
    TotalAt(b, g, s, held, since, cost);
    CatchesUp(s, (b.lastRefill - since) / 1000.0, cost - held);
    HeldAt(b, g, s, held, since, cost);
  }

  lemma TotalAt(b: Bucket, g: Bucket, s: Settings, held: int, since: Instant, cost: nat)
    requires Dated(b, g, s, held, since) && b.lastRefill == g.lastRefill && cost as real <= g.tokens
    ensures (cost - held) as real
         <= (s.globalBurst - s.ipBurst) as real + (b.lastRefill - since) / 1000.0 * s.globalRefill as real
  {
    YieldIs(since, b.lastRefill, s.globalRefill);
  }

  lemma HeldAt(b: Bucket, g: Bucket, s: Settings, held: int, since: Instant, cost: nat)
    requires Dated(b, g, s, held, since)
    requires (cost - held) as real <= (b.lastRefill - since) / 1000.0 * s.ipRefill as real
    ensures cost as real <= b.tokens
  {
    YieldIs(since, b.lastRefill, s.ipRefill);
  }

  lemma YieldIs(from: Instant, now: Instant, rate: nat)
    requires from <= now
    ensures Yield(from, now, rate) == (now - from) / 1000.0 * rate as real
  {
    assert Since(now, from) == now - from;
  }

  lemma CatchesUp(s: Settings, u: real, n: int)
    requires Usable(s) && s.enabled && TotalCatchesUp(s) && u > s.idleTtl / 1000.0
    requires n as real <= (s.globalBurst - s.ipBurst) as real + u * s.globalRefill as real
    ensures n as real <= u * s.ipRefill as real
  {
    CaughtUp(s.idleTtl / 1000.0, u, s.ipRefill, s.globalRefill, n, s.globalBurst - s.ipBurst);
  }

  lemma CaughtUp(idle: real, u: real, r: nat, q: nat, n: int, extra: int)
    requires 0.0 <= idle < u && 1 <= q <= r && Outweighs(AboveFloor(idle, r), r, q, extra)
    requires n as real <= extra as real + u * q as real
    ensures n as real <= u * r as real
  {
    if u * r as real < n as real {
      MulMono(idle, u, r as real);
      MulMonoInt(AboveFloor(idle, r), n, r - q);
      Outgrown(u, r as real, q as real, n as real, extra as real);
      AsReal(n, r - q);
      AsReal(extra, r);
    }
  }

  lemma AsReal(a: int, b: int)
    ensures (a * b) as real == a as real * b as real
  {
  }

  lemma MulMonoInt(a: int, b: int, c: int)
    requires a <= b && 0 <= c
    ensures a * c <= b * c
  {
  }

  lemma Outgrown(u: real, r: real, q: real, n: real, extra: real)
    requires u * r < n && n <= extra + u * q && 0.0 < q && 0.0 < r
    ensures n * (r - q) < extra * r
  {
    MulMono(n, extra + u * q, r);
    Strictly(u * r, n, q);
    assert (extra + u * q) * r == extra * r + (u * r) * q;
    assert n * (r - q) == n * r - n * q;
  }

  /** Two buckets of an address, with and without eviction: the same, or the second has been
      filling for so long that it does not matter. */
  ghost predicate Alike(e: Bucket, r: Bucket, g: Bucket, s: Settings) {
    || e == r
    || (e.lastRefill == r.lastRefill && r.tokens <= e.tokens <= s.ipBurst as real && Old(r, g, s))
  }

  ghost predicate Follows(e: Budget, r: Budget, s: Settings, clock: Instant) {
    && e.global == r.global
    && (forall ip <- e.buckets :: ip in r.buckets && Alike(e.buckets[ip], r.buckets[ip], r.global, s))
    && (forall ip <- r.buckets :: DatedSome(r.buckets[ip], r.global, s))
    && (forall ip <- r.buckets :: ip in e.buckets || Idle(r.buckets[ip], s, clock))
  }

  /** What a refill of the total or a cost taken from it leaves of the relation. */
  lemma AlikeLater(e: Bucket, r: Bucket, g: Bucket, s: Settings, now: Instant, cost: nat)
    requires g.tokens >= 0.0 && DatedSome(r, g, s) && Alike(e, r, g, s)
    ensures var h := Refill(g, now, s.globalRefill, s.globalBurst); DatedSome(r, h, s) && Alike(e, r, h, s)
    ensures g.tokens >= cost as real ==> DatedSome(r, Spend(g, cost), s) && Alike(e, r, Spend(g, cost), s)
  {
    var held, since :| Dated(r, g, s, held, since);
    DatedLater(r, g, s, held, since, now, cost);
    if Old(r, g, s) {
      var held2, since2 :| Dated(r, g, s, held2, since2) && r.lastRefill - since2 > s.idleTtl;
      DatedLater(r, g, s, held2, since2, now, cost);
    }
  }

  /** The buckets a request of an address finds, with and without eviction: alike, and both
      afford it or both do not. */
  ghost predicate BothWays(e: Bucket, r: Bucket, g: Bucket, s: Settings, cost: nat) {
    && e.lastRefill == r.lastRefill == g.lastRefill
    && DatedSome(r, g, s) && Alike(e, r, g, s)
    && (cost as real <= e.tokens <==> cost as real <= r.tokens)
    && (cost as real <= r.tokens ==> DatedSome(Spend(r, cost), Spend(g, cost), s)
                                     && Alike(Spend(e, cost), Spend(r, cost), Spend(g, cost), s))
  }

  lemma SameBothWays(b: Bucket, g: Bucket, s: Settings, held: int, since: Instant, cost: nat)
    requires Dated(b, g, s, held, since) && b.lastRefill == g.lastRefill && cost as real <= g.tokens
    ensures BothWays(b, b, g, s, cost)
  {
    if cost as real <= b.tokens { DatedSpend(b, g, s, held, since, cost); }
  }

  lemma OldBothWays(e: Bucket, r: Bucket, g: Bucket, s: Settings, held: int, since: Instant, cost: nat)
    requires Usable(s) && s.enabled && TotalCatchesUp(s) && Dated(r, g, s, held, since)
    requires e.lastRefill == r.lastRefill == g.lastRefill && r.lastRefill - since > s.idleTtl
    requires r.tokens <= e.tokens <= s.ipBurst as real && cost as real <= g.tokens
    ensures BothWays(e, r, g, s, cost)
  {
    OldAffords(r, g, s, held, since, cost);
    DatedSpend(r, g, s, held, since, cost);
    assert Old(Spend(r, cost), Spend(g, cost), s);
    assert Old(r, g, s);
  }

  /** The bucket of an address as a request finds it, when it was there all along. */
  lemma FoundAlike(e: Bucket, r: Bucket, g: Bucket, s: Settings, now: Instant, cost: nat)
    requires Usable(s) && s.enabled && TotalCatchesUp(s) && DatedSome(r, g, s) && Alike(e, r, g, s)
    requires 0.0 <= r.tokens <= s.ipBurst as real && g.lastRefill == now && cost as real <= g.tokens <= s.globalBurst as real
    ensures BothWays(Refill(e, now, s.ipRefill, s.ipBurst), Refill(r, now, s.ipRefill, s.ipBurst), g, s, cost)
  {
    var own := Refill(r, now, s.ipRefill, s.ipBurst);
    if e == r {
      var held, since :| Dated(r, g, s, held, since);
      DatedOwn(r, g, s, held, since, now);
      if own == Full(now, s.ipBurst) { FullDated(g, s, now); SameBothWays(own, g, s, s.ipBurst, now, cost); }
      else { SameBothWays(own, g, s, held, since, cost); }
    } else {
      var held, since :| Dated(r, g, s, held, since) && r.lastRefill - since > s.idleTtl;
      DatedOwn(r, g, s, held, since, now);
      if own == Full(now, s.ipBurst) { FullDated(g, s, now); SameBothWays(own, g, s, s.ipBurst, now, cost); }
      else { OldBothWays(Refill(e, now, s.ipRefill, s.ipBurst), own, g, s, held, since, cost); }
    }
  }

  /** The same when it was evicted. */
  lemma FoundEvicted(r: Bucket, g: Bucket, s: Settings, now: Instant, cost: nat)
    requires Usable(s) && s.enabled && TotalCatchesUp(s) && DatedSome(r, g, s) && Idle(r, s, now)
    requires 0.0 <= r.tokens <= s.ipBurst as real && g.lastRefill == now && cost as real <= g.tokens <= s.globalBurst as real
    ensures BothWays(Full(now, s.ipBurst), Refill(r, now, s.ipRefill, s.ipBurst), g, s, cost)
  {
    var own := Refill(r, now, s.ipRefill, s.ipBurst);
    var held, since :| Dated(r, g, s, held, since);
    DatedOwn(r, g, s, held, since, now);
    if own == Full(now, s.ipBurst) { FullDated(g, s, now); SameBothWays(own, g, s, s.ipBurst, now, cost); }
    else { OldBothWays(Full(now, s.ipBurst), own, g, s, held, since, cost); }
  }

  lemma Found(e: Budget, r: Budget, g: Bucket, s: Settings, clock: Instant, ip: Ip, now: Instant, cost: nat)
    requires Usable(s) && s.enabled && TotalCatchesUp(s) && Follows(e.(global := g), r.(global := g), s, clock)
    requires AllSound(r, s, clock) && clock <= now && g.lastRefill == now && cost as real <= g.tokens <= s.globalBurst as real
    ensures BothWays(BucketOf(e, s, ip, now), BucketOf(r, s, ip, now), g, s, cost)
  {
    FullStays(s, now);
    if ip in e.buckets {
      FoundAlike(e.buckets[ip], r.buckets[ip], g, s, now, cost);
    } else if ip in r.buckets {
      FoundEvicted(r.buckets[ip], g, s, now, cost);
    } else {
      FullDated(g, s, now);
      SameBothWays(Full(now, s.ipBurst), g, s, s.ipBurst, now, cost);
    }
  }

  lemma FollowsLater(e: Budget, r: Budget, s: Settings, clock: Instant, now: Instant, cost: nat)
    requires Follows(e, r, s, clock) && r.global.tokens >= 0.0 && clock <= now
    ensures var g := Refill(r.global, now, s.globalRefill, s.globalBurst);
            Follows(e.(global := g), r.(global := g), s, now)
    ensures var g := Spend(r.global, cost);
            r.global.tokens >= cost as real ==> Follows(e.(global := g), r.(global := g), s, now)
  {
    forall ip <- r.buckets
      ensures var g := Refill(r.global, now, s.globalRefill, s.globalBurst);
              DatedSome(r.buckets[ip], g, s) && (ip in e.buckets ==> Alike(e.buckets[ip], r.buckets[ip], g, s))
      ensures var g := Spend(r.global, cost);
              r.global.tokens >= cost as real ==>
                DatedSome(r.buckets[ip], g, s) && (ip in e.buckets ==> Alike(e.buckets[ip], r.buckets[ip], g, s))
    {
      AlikeLater(if ip in e.buckets then e.buckets[ip] else r.buckets[ip], r.buckets[ip], r.global, s, now, cost);
    }
  }

  lemma FollowsPut(e: Budget, r: Budget, s: Settings, clock: Instant, ip: Ip, a: Bucket, b: Bucket)
    requires Follows(e, r, s, clock) && DatedSome(b, r.global, s) && Alike(a, b, r.global, s)
    ensures Follows(e.(buckets := e.buckets[ip := a]), r.(buckets := r.buckets[ip := b]), s, clock)
  {
  }

  lemma ConsumeFollows(e: Budget, r: Budget, s: Settings, clock: Instant, ip: Ip, units: nat, now: Instant)
    requires Usable(s) && s.enabled && TotalCatchesUp(s) && AllSound(r, s, clock) && Follows(e, r, s, clock) && clock <= now
    ensures Consume(e, s, ip, units, now).1 == Consume(r, s, ip, units, now).1
    ensures Follows(Consume(e, s, ip, units, now).0, Consume(r, s, ip, units, now).0, s, now)
  {
    var cost, g := Cost(s, units), Refill(r.global, now, s.globalRefill, s.globalBurst);
    FollowsLater(e, r, s, clock, now, cost);
    RefillSound(r.global, now, s.globalRefill, s.globalBurst, clock);
    if g.tokens >= cost as real {
      var e1, r1 := e.(global := g), r.(global := g);
      var a, b := BucketOf(e, s, ip, now), BucketOf(r, s, ip, now);
      SoundLater(r, s, clock, now);
      Found(e, r, g, s, now, ip, now, cost);
      if cost as real <= b.tokens {
        FollowsLater(e1, r1, s, now, now, cost);
        FollowsPut(e1.(global := Spend(g, cost)), r1.(global := Spend(g, cost)), s, now, ip, Spend(a, cost), Spend(b, cost));
      } else {
        FollowsPut(e1, r1, s, now, ip, a, b);
      }
    }
  }

  lemma SoundLater(r: Budget, s: Settings, clock: Instant, now: Instant)
    requires AllSound(r, s, clock) && clock <= now
    ensures AllSound(r, s, now)
  {
  }

  lemma TickFollows(e: Budget, r: Budget, s: Settings, clock: Instant, now: Instant)
    requires s.enabled && Follows(e, r, s, clock) && clock <= now
    ensures Follows(Tick(e, s, now), r, s, now)
  {
  }

  /** If the total catches up, every run takes the same decisions as if nothing were ever
      evicted, though the buckets differ. */
  lemma {:induction false} EvictionHidden(s: Settings, start: Instant, ops: seq<Op>)
    requires Usable(s) && s.enabled && TotalCatchesUp(s) && Forward(ops, start)
    ensures Run(s, Fresh(s, start), ops, true).1 == Run(s, Fresh(s, start), ops, false).1
    ensures var r := Run(s, Fresh(s, start), ops, false).0;
            AllSound(r, s, Clock(ops, start)) && Follows(Run(s, Fresh(s, start), ops, true).0, r, s, Clock(ops, start))
  {
    if ops != [] {
      var init, op := ops[..|ops| - 1], ops[|ops| - 1];
      ForwardInit(ops, start);
      EvictionHidden(s, start, init);
      var e, r, clock := Run(s, Fresh(s, start), init, true).0, Run(s, Fresh(s, start), init, false).0, Clock(init, start);
      if op.ConsumeAt? {
        ConsumeFollows(e, r, s, clock, op.ip, op.units, op.now);
        ConsumeSound(r, s, clock, op.ip, op.units, op.now);
      } else {
        SoundLater(r, s, clock, op.now);
        TickFollows(e, r, s, clock, op.now);
      }
    }
  }

  /** In particular a total that is no larger and no faster than an address hides all evictions. */
  lemma SmallTotalHides(s: Settings)
    requires Usable(s) && s.enabled && s.globalBurst <= s.ipBurst && s.globalRefill <= s.ipRefill
    ensures TotalCatchesUp(s)
  {
    MulMono(0.0, s.idleTtl / 1000.0, s.ipRefill as real);
    Products(Beyond(s), s.ipRefill - s.globalRefill, s.globalBurst - s.ipBurst, s.ipRefill);
  }

  lemma Products(a: int, b: int, c: int, d: int)
    requires a >= 0 && b >= 0 && c <= 0 && d >= 0
    ensures a * b >= 0 >= c * d
  {
  }

  // ----- eviction is visible otherwise -----

  /** One address has been served; the total and its bucket were last refilled at the same time. */
  function One(own: real, total: real, now: Instant): Budget { Budget(Bucket(total, now), map[0 := Bucket(own, now)]) }

  lemma {:induction false} RunConcat(s: Settings, start: Budget, a: seq<Op>, b: seq<Op>, evict: bool)
    ensures Run(s, start, a + b, evict).0 == Run(s, Run(s, start, a, evict).0, b, evict).0
  {
    if b == [] {
      assert a + b == a;
    } else {
      assert (a + b)[..|a + b| - 1] == a + b[..|b| - 1];
      RunConcat(s, start, a, b[..|b| - 1], evict);
    }
  }

  lemma RunLast(s: Settings, start: Budget, init: seq<Op>, op: Op, evict: bool)
    ensures var (b, ds) := Run(s, start, init, evict);
            Run(s, start, init + [op], evict)
            == match op
               case TickAt(now) => (if evict then Tick(b, s, now) else b, ds)
               case ConsumeAt(ip, units, now) => (Consume(b, s, ip, units, now).0, ds + [Consume(b, s, ip, units, now).1])
  {
    assert (init + [op])[..|init|] == init;
  }

  lemma ForwardMore(ops: seq<Op>, from: Instant, op: Op)
    requires Forward(ops, from) && Clock(ops, from) <= op.now
    ensures Forward(ops + [op], from) && Clock(ops + [op], from) == op.now && from <= op.now
  {
    if ops != [] { assert ops[|ops| - 1] in ops; }
  }

  lemma ForwardConcat(a: seq<Op>, b: seq<Op>, from: Instant)
    requires Forward(a, from) && Forward(b, Clock(a, from))
    ensures Forward(a + b, from) && Clock(a + b, from) == Clock(b, Clock(a, from))
  {
    var all := a + b;
    if a != [] { assert a[|a| - 1] in a; }
    forall op <- all ensures from <= op.now { if op !in a { assert op in b; } }
    forall i, j | 0 <= i < j < |all| ensures all[i].now <= all[j].now {
      if i < |a| <= j { assert b[j - |a|] in b; }
    }
  }

  lemma YieldSeconds(now: Instant, t: real, rate: nat)
    requires t >= 0.0
    ensures Yield(now, now + 1000.0 * t, rate) == t * rate as real
  {
    assert 1000.0 * t / 1000.0 == t;
  }

  /** What the address and the total hold `t` seconds later. */
  lemma HoldLater(s: Settings, own: real, total: real, now: Instant, t: real)
    requires t > 0.0 && own >= 0.0 && total >= 0.0
    ensures var later := now + 1000.0 * t;
            && Refill(Bucket(total, now), later, s.globalRefill, s.globalBurst)
               == Bucket(MinReal(total + t * s.globalRefill as real, s.globalBurst as real), later)
            && BucketOf(One(own, total, now), s, 0, later)
               == Bucket(MinReal(own + t * s.ipRefill as real, s.ipBurst as real), later)
  {
    YieldSeconds(now, t, s.globalRefill);
    YieldSeconds(now, t, s.ipRefill);
    MulMono(0.0, t, s.globalRefill as real);
    MulMono(0.0, t, s.ipRefill as real);
  }

  /** The decision on a request of `c` units, `t` seconds later. */
  lemma DecidedLater(s: Settings, own: real, total: real, now: Instant, t: real, c: nat)
    requires s.enabled && t > 0.0 && own >= 0.0 && total >= 0.0
    requires 1 <= c <= s.ipBurst && c <= s.globalBurst && total + t * s.globalRefill as real >= c as real
    ensures Consume(One(own, total, now), s, 0, c, now + 1000.0 * t).1
         == if own + t * s.ipRefill as real >= c as real then Allow else IpExhausted
  {
    HoldLater(s, own, total, now, t);
  }

  /** Once evicted, the address is allowed whatever the total allows. */
  lemma EvictedLater(s: Settings, own: real, total: real, now: Instant, t: real, c: nat)
    requires s.enabled && t > 0.0 && 1000.0 * t > s.idleTtl && own >= 0.0 && total >= 0.0
    requires 1 <= c <= s.ipBurst && c <= s.globalBurst && total + t * s.globalRefill as real >= c as real
    ensures var later := now + 1000.0 * t;
            var (b, d) := Consume(Tick(One(own, total, now), s, later), s, 0, c, later);
            && d == Allow
            && b == One((s.ipBurst - c) as real, MinReal(total + t * s.globalRefill as real, s.globalBurst as real) - c as real, later)
  {
    var later := now + 1000.0 * t;
    HoldLater(s, own, total, now, t);
    assert Tick(One(own, total, now), s, later).buckets == map[];
    FullStays(s, later);
  }

  /** With and without eviction these steps lead to the same budget. */
  ghost predicate BothReach(s: Settings, from: Budget, ops: seq<Op>, to: Budget) {
    Run(s, from, ops, true).0 == to && Run(s, from, ops, false).0 == to
  }

  /** After these steps a request is answered differently with and without eviction. */
  ghost predicate Part(s: Settings, from: Budget, ops: seq<Op>, units: nat, now: Instant) {
    Consume(Run(s, from, ops, true).0, s, 0, units, now).1 != Consume(Run(s, from, ops, false).0, s, 0, units, now).1
  }

  lemma ReachOne(s: Settings, from: Budget, units: nat, now: Instant, to: Budget)
    requires Consume(from, s, 0, units, now).0 == to
    ensures BothReach(s, from, [ConsumeAt(0, units, now)], to)
  {
    assert [] + [ConsumeAt(0, units, now)] == [ConsumeAt(0, units, now)];
    RunLast(s, from, [], ConsumeAt(0, units, now), true);
    RunLast(s, from, [], ConsumeAt(0, units, now), false);
  }

  lemma ReachOn(s: Settings, from: Budget, a: seq<Op>, mid: Budget, b: seq<Op>, to: Budget)
    requires BothReach(s, from, a, mid) && BothReach(s, mid, b, to)
    ensures BothReach(s, from, a + b, to)
  {
    RunConcat(s, from, a, b, true);
    RunConcat(s, from, a, b, false);
  }

  lemma PartAfter(s: Settings, from: Budget, a: seq<Op>, mid: Budget, b: seq<Op>, units: nat, now: Instant)
    requires BothReach(s, from, a, mid) && Part(s, mid, b, units, now)
    ensures Part(s, from, a + b, units, now)
  {
    RunConcat(s, from, a, b, true);
    RunConcat(s, from, a, b, false);
  }

  /** An eviction between two requests. */
  lemma PartTick(s: Settings, from: Budget, units: nat, now: Instant)
    requires Consume(Tick(from, s, now), s, 0, units, now).1 != Consume(from, s, 0, units, now).1
    ensures Part(s, from, [TickAt(now)], units, now)
  {
    assert [] + [TickAt(now)] == [TickAt(now)];
    RunLast(s, from, [], TickAt(now), true);
    RunLast(s, from, [], TickAt(now), false);
  }

  lemma PartDiffers(s: Settings, from: Budget, ops: seq<Op>, units: nat, now: Instant)
    requires Part(s, from, ops, units, now)
    ensures Run(s, from, ops + [ConsumeAt(0, units, now)], true).1 != Run(s, from, ops + [ConsumeAt(0, units, now)], false).1
  {
    var op := ConsumeAt(0, units, now);
    RunLast(s, from, ops, op, true);
    RunLast(s, from, ops, op, false);
    var a, b := Run(s, from, ops + [op], true).1, Run(s, from, ops + [op], false).1;
    assert a[|a| - 1] != b[|b| - 1];
  }

  lemma Strictly(a: real, b: real, c: real)
    requires a < b && 0.0 < c
    ensures a * c < b * c
  {
  }

  lemma Quotient(a: real, b: real)
    requires b > 0.0
    ensures a / b * b == a
  {
  }

  lemma Compare(a: real, x: real, y: real)
    requires 0.0 < a && x * a < y * a
    ensures x < y
  {
  }

  /** A moment when the address has not yet `m` tokens and the total, which had `extra`, has. */
  lemma Moment(idle: real, r: nat, q: nat, m: int, extra: int) returns (t: real)
    requires 1 <= r && 1 <= q && 0.0 <= idle && idle * r as real < m as real && !Outweighs(m, r, q, extra)
    ensures idle < t && t * r as real < m as real && m as real <= extra as real + t * q as real
  {
    var upper, lower := m as real / r as real, (m - extra) as real / q as real;
    Quotient(m as real, r as real);
    Quotient((m - extra) as real, q as real);
    Compare(r as real, idle, upper);
    LowerBelow(r, q, m, extra, lower, upper);
    t := (MaxReal(idle, lower) + upper) / 2.0;
    Strictly(t, upper, r as real);
    MulMono(lower, t, q as real);
  }

  lemma LowerBelow(r: nat, q: nat, m: int, extra: int, lower: real, upper: real)
    requires 1 <= r && 1 <= q && !Outweighs(m, r, q, extra)
    requires upper * r as real == m as real && lower * q as real == (m - extra) as real
    ensures lower < upper
  {
    if upper <= lower {
      MulMono(upper, lower, q as real);
      MulMono(upper * q as real, lower * q as real, r as real);
      assert upper * q as real * r as real == m as real * q as real;
      AsReal(m, q);
      AsReal(m - extra, r);
      Expand(m, r, q, extra);
    }
  }

  lemma Expand(m: int, r: nat, q: nat, extra: int)
    ensures m * (r - q) < extra * r <==> (m - extra) * r < m * q
  {
    assert m * (r - q) == m * r - m * q;
    assert (m - extra) * r == m * r - extra * r;
  }

  lemma BeyondBounds(s: Settings)
    requires Usable(s) && s.enabled && !FillsWhileIdle(s)
    ensures 1 <= Beyond(s) <= s.ipBurst && s.idleTtl / 1000.0 * s.ipRefill as real < Beyond(s) as real
  {
    MulMono(0.0, s.idleTtl / 1000.0, s.ipRefill as real);
  }

  /** The total holds more than one address and has not been caught up with: the address empties
      its bucket and asks again just after the eviction. */
  lemma VisibleAhead(s: Settings, start: Instant) returns (ops: seq<Op>, units: nat, now: Instant)
    requires Usable(s) && s.enabled && !FillsWhileIdle(s) && s.globalBurst > s.ipBurst
    requires !Outweighs(Beyond(s), s.ipRefill, s.globalRefill, s.globalBurst - s.ipBurst)
    ensures Forward(ops, start) && Clock(ops, start) <= now && Part(s, Fresh(s, start), ops, units, now)
  {
    var extra := s.globalBurst - s.ipBurst;
    BeyondBounds(s);
    var t := Moment(s.idleTtl / 1000.0, s.ipRefill, s.globalRefill, Beyond(s), extra);
    units, now := Beyond(s), start + 1000.0 * t;
    var first := ConsumeAt(0, s.ipBurst, start);
    FullStays(s, start);
    ReachOne(s, Fresh(s, start), s.ipBurst, start, One(0.0, extra as real, start));
    AskedAhead(s, start, extra, t, units);
    PartTick(s, One(0.0, extra as real, start), units, now);
    PartAfter(s, Fresh(s, start), [first], One(0.0, extra as real, start), [TickAt(now)], units, now);
    ops := [first] + [TickAt(now)];
  }

  lemma AskedAhead(s: Settings, start: Instant, extra: nat, t: real, m: nat)
    requires Usable(s) && s.enabled && 1 <= m <= s.ipBurst && m <= s.globalBurst && s.idleTtl / 1000.0 < t
    requires t * s.ipRefill as real < m as real <= extra as real + t * s.globalRefill as real
    ensures var b, now := One(0.0, extra as real, start), start + 1000.0 * t;
            Consume(Tick(b, s, now), s, 0, m, now).1 != Consume(b, s, 0, m, now).1
  {
    DecidedLater(s, 0.0, extra as real, start, t, m);
    EvictedLater(s, 0.0, extra as real, start, t, m);
  }

  // ----- an address that fills up more slowly than the total -----

  /** The address waits until the total is full again and takes all of it. */
  lemma TakesTotal(s: Settings, own: real, now: Instant, t: real)
    requires Usable(s) && s.enabled && s.globalBurst <= s.ipBurst && t > 0.0 && own >= 0.0
    requires t * s.globalRefill as real >= s.globalBurst as real
    requires s.globalBurst as real <= own + t * s.ipRefill as real <= s.ipBurst as real
    ensures var later := now + 1000.0 * t;
            Consume(One(own, 0.0, now), s, 0, s.globalBurst, later).0
            == One(own + t * s.ipRefill as real - s.globalBurst as real, 0.0, later)
  {
    HoldLater(s, own, 0.0, now, t);
  }

  /** Seconds until an empty total is full. */
  function FillTime(s: Settings): real
    requires s.globalRefill >= 1
  {
    s.globalBurst as real / s.globalRefill as real
  }

  /** What the address loses by taking the whole total as soon as it is full. */
  function Loss(s: Settings): real
    requires s.globalRefill >= 1
  {
    s.globalBurst as real - FillTime(s) * s.ipRefill as real
  }

  lemma LossPositive(s: Settings)
    requires Usable(s) && s.enabled && s.globalRefill > s.ipRefill
    ensures FillTime(s) > 0.0 && FillTime(s) * s.globalRefill as real == s.globalBurst as real && Loss(s) > 0.0
  {
    Quotient(s.globalBurst as real, s.globalRefill as real);
    Positive(FillTime(s), s.globalRefill as real);
    Strictly(s.ipRefill as real, s.globalRefill as real, FillTime(s));
  }

  lemma Positive(a: real, b: real)
    requires b > 0.0 && a * b > 0.0
    ensures a > 0.0
  {
  }

  /** A wait after which the address, if it takes the total, has lost one `Loss` or is empty. */
  lemma NextWait(s: Settings, own: real) returns (t: real)
    requires Usable(s) && s.enabled && s.globalRefill > s.ipRefill && own >= 0.0
    ensures t > 0.0 && t * s.globalRefill as real >= s.globalBurst as real
    ensures own + t * s.ipRefill as real
         == s.globalBurst as real + if own >= Loss(s) then own - Loss(s) else 0.0
  {
    LossPositive(s);
    if own >= Loss(s) {
      t := FillTime(s);
    } else {
      t := (s.globalBurst as real - own) / s.ipRefill as real;
      Quotient(s.globalBurst as real - own, s.ipRefill as real);
      Compare(s.ipRefill as real, FillTime(s), t);
      MulMono(FillTime(s), t, s.globalRefill as real);
    }
  }

  /** Taking the total once, by an address and by one that is ahead by `more`. */
  lemma NextTake(s: Settings, own: real, more: real, now: Instant) returns (later: Instant, left: real)
    requires Usable(s) && s.enabled && s.globalBurst <= s.ipBurst && s.globalRefill > s.ipRefill
    requires own >= 0.0 && more >= 0.0 && own + more + s.globalBurst as real <= s.ipBurst as real
    ensures later > now && left == if own >= Loss(s) then own - Loss(s) else 0.0
    ensures left <= own && left >= 0.0
    ensures BothReach(s, One(own, 0.0, now), [ConsumeAt(0, s.globalBurst, later)], One(left, 0.0, later))
    ensures BothReach(s, One(own + more, 0.0, now), [ConsumeAt(0, s.globalBurst, later)], One(left + more, 0.0, later))
  {
    LossPositive(s);
    var t := NextWait(s, own);
    later, left := now + 1000.0 * t, if own >= Loss(s) then own - Loss(s) else 0.0;
    TakesTotal(s, own, now, t);
    TakesTotal(s, own + more, now, t);
    ReachOne(s, One(own, 0.0, now), s.globalBurst, later, One(left, 0.0, later));
    ReachOne(s, One(own + more, 0.0, now), s.globalBurst, later, One(left + more, 0.0, later));
  }

  /** Taking the total again and again empties the bucket, and leaves in a bucket that was ahead
      by `more` exactly that. */
  lemma {:induction false} Drain(s: Settings, own: real, more: real, now: Instant, n: nat) returns (ops: seq<Op>, end: Instant)
    requires Usable(s) && s.enabled && s.globalBurst <= s.ipBurst && s.globalRefill > s.ipRefill
    requires own >= 0.0 && more >= 0.0 && own + more + s.globalBurst as real <= s.ipBurst as real
    requires Rounded(own, n, Loss(s))
    ensures Forward(ops, now) && end == Clock(ops, now)
    ensures BothReach(s, One(own, 0.0, now), ops, One(0.0, 0.0, end))
    ensures BothReach(s, One(own + more, 0.0, now), ops, One(more, 0.0, end))
    decreases n
  {
    if n == 0 {
      ops, end := [], now;
    } else {
      LossPositive(s);
      var later, left := NextTake(s, own, more, now);
      if own < Loss(s) { RoundedBelow(0.0, n - 1, Loss(s)); }
      var rest;
      rest, end := Drain(s, left, more, later, n - 1);
      var first := [ConsumeAt(0, s.globalBurst, later)];
      ReachOn(s, One(own, 0.0, now), first, One(left, 0.0, later), rest, One(0.0, 0.0, end));
      ReachOn(s, One(own + more, 0.0, now), first, One(left + more, 0.0, later), rest, One(more, 0.0, end));
      ForwardConcat(first, rest, now);
      ops := first + rest;
    }
  }

  /** `n` steps down lead from `x` to nothing or less. */
  ghost predicate Rounded(x: real, n: nat, step: real)
    decreases n
  {
    if n == 0 then x <= 0.0 else Rounded(x - step, n - 1, step)
  }

  lemma {:induction false} RoundedBelow(x: real, n: nat, step: real)
    requires x <= 0.0 && step >= 0.0
    ensures Rounded(x, n, step)
    decreases n
  {
    if n > 0 { RoundedBelow(x - step, n - 1, step); }
  }

  lemma {:induction false} Rounds(x: real, step: real, most: nat) returns (n: nat)
    requires step > 0.0 && x <= most as real * step
    ensures Rounded(x, n, step)
    decreases most
  {
    if most == 0 { n := 0; }
    else {
      assert most as real * step == (most - 1) as real * step + step;
      n := Rounds(x - step, step, most - 1);
      n := n + 1;
    }
  }

  lemma Enough(x: real, step: real) returns (n: nat)
    requires x >= 0.0 && step > 0.0
    ensures Rounded(x, n, step)
  {
    var k := (x / step).Floor + 1;
    Quotient(x, step);
    MulMono(x / step, k as real, step);
    if k < 0 { MulMono(k as real, 0.0, step); }
    n := Rounds(x, step, if k >= 0 then k else 0);
  }

  /** From the start: the address takes totals until its bucket is empty. */
  lemma Emptied(s: Settings, start: Instant) returns (ops: seq<Op>, end: Instant)
    requires Usable(s) && s.enabled && s.globalBurst <= s.ipBurst && s.globalRefill > s.ipRefill
    ensures Forward(ops, start) && end == Clock(ops, start) && BothReach(s, Fresh(s, start), ops, One(0.0, 0.0, end))
  {
    var first := [ConsumeAt(0, s.globalBurst, start)];
    var left := (s.ipBurst - s.globalBurst) as real;
    LossPositive(s);
    var n := Enough(left, Loss(s));
    var rest;
    rest, end := Drain(s, left, 0.0, start, n);
    FullStays(s, start);
    ReachOne(s, Fresh(s, start), s.globalBurst, start, One(left, 0.0, start));
    ReachOn(s, Fresh(s, start), first, One(left, 0.0, start), rest, One(0.0, 0.0, end));
    ForwardConcat(first, rest, start);
    ops := first + rest;
  }

  lemma MidWait(lower: real, other: real, rate: nat, bound: real) returns (t: real)
    requires rate >= 1 && lower * rate as real < bound && other * rate as real < bound
    ensures lower < t && other < t && t * rate as real < bound
  {
    Quotient(bound, rate as real);
    Compare(rate as real, lower, bound / rate as real);
    Compare(rate as real, other, bound / rate as real);
    t := (MaxReal(lower, other) + bound / rate as real) / 2.0;
    Strictly(t, bound / rate as real, rate as real);
  }

  /** An empty bucket is evicted and the address asks for a whole total that it would not have. */
  lemma AskedAtOnce(s: Settings, now: Instant) returns (later: Instant)
    requires Usable(s) && s.enabled && s.globalBurst <= s.ipBurst && s.globalRefill > s.ipRefill
    requires s.idleTtl / 1000.0 * s.ipRefill as real < s.globalBurst as real
    ensures later > now && Part(s, One(0.0, 0.0, now), [TickAt(later)], s.globalBurst, later)
  {
    LossPositive(s);
    var t := FullWait(s.idleTtl / 1000.0, FillTime(s), s.ipRefill, s.globalRefill, s.globalBurst as real);
    later := now + 1000.0 * t;
    AskedAhead(s, now, 0, t, s.globalBurst);
    PartTick(s, One(0.0, 0.0, now), s.globalBurst, later);
  }

  lemma FullWait(idle: real, fill: real, r: nat, q: nat, total: real) returns (t: real)
    requires 1 <= r && 1 <= q && idle * r as real < total && fill * r as real < total && fill * q as real == total
    ensures idle < t && fill < t && t * r as real < total <= t * q as real
  {
    t := MidWait(idle, fill, r, total);
    MulMono(fill, t, q as real);
  }

  /** When one unit has come in for the total, but not for the address unless it is ahead. */
  lemma UnitWait(r: nat, q: nat, more: real) returns (t: real)
    requires 1 <= r < q && more > 0.0
    ensures t > 0.0 && t * r as real < 1.0 <= t * q as real && 1.0 <= more + t * r as real
  {
    var soon, short := 1.0 / q as real, (1.0 - more) / r as real;
    Quotient(1.0, q as real);
    Positive(soon, q as real);
    Quotient(1.0 - more, r as real);
    Strictly(r as real, q as real, soon);
    t := MidWait(soon, short, r, 1.0);
    MulMono(soon, t, q as real);
    MulMono(short, t, r as real);
  }

  /** An address ahead by `more` asks for one unit when without that it would not have it. */
  lemma AskedForOne(s: Settings, now: Instant, more: real) returns (later: Instant)
    requires Usable(s) && s.enabled && s.globalRefill > s.ipRefill && more > 0.0
    ensures later > now && Consume(One(0.0, 0.0, now), s, 0, 1, later).1 == IpExhausted
    ensures Consume(One(more, 0.0, now), s, 0, 1, later).1 == Allow
  {
    var t := UnitWait(s.ipRefill, s.globalRefill, more);
    later := now + 1000.0 * t;
    DecidedLater(s, 0.0, 0.0, now, t, 1);
    DecidedLater(s, more, 0.0, now, t, 1);
  }

  /** An empty bucket is evicted when it has filled up with a whole total or more, and the address
      takes the total: it is then ahead of what it would have. */
  lemma Ahead(s: Settings, now: Instant) returns (later: Instant, own: real, more: real)
    requires Usable(s) && s.enabled && s.globalBurst <= s.ipBurst && s.globalRefill > s.ipRefill
    requires s.globalBurst as real <= s.idleTtl / 1000.0 * s.ipRefill as real < s.ipBurst as real
    ensures later > now && own >= 0.0 && more > 0.0 && own + more + s.globalBurst as real == s.ipBurst as real
    ensures Consume(Tick(One(0.0, 0.0, now), s, later), s, 0, s.globalBurst, later).0 == One(own + more, 0.0, later)
    ensures Consume(One(0.0, 0.0, now), s, 0, s.globalBurst, later).0 == One(own, 0.0, later)
  {
    var t := LongWait(s.idleTtl / 1000.0, s.ipRefill, s.globalRefill, s.globalBurst as real, s.ipBurst as real);
    later := now + 1000.0 * t;
    own := t * s.ipRefill as real - s.globalBurst as real;
    more := s.ipBurst as real - t * s.ipRefill as real;
    TakesTotal(s, 0.0, now, t);
    EvictedLater(s, 0.0, 0.0, now, t, s.globalBurst);
  }

  lemma LongWait(idle: real, r: nat, q: nat, total: real, burst: real) returns (t: real)
    requires 1 <= r < q && idle > 0.0 && total <= idle * r as real < burst
    ensures idle < t && total <= t * r as real < burst && total <= t * q as real
  {
    t := MidWait(idle, idle, r, burst);
    AtLeast(idle, t, r as real, total);
    Faster(t, r as real, q as real, total);
  }

  lemma AtLeast(a: real, b: real, c: real, total: real)
    requires a <= b && 0.0 <= c && total <= a * c
    ensures total <= b * c
  {
    MulMono(a, b, c);
  }

  lemma Faster(t: real, r: real, q: real, total: real)
    requires 0.0 <= t && r <= q && total <= t * r
    ensures total <= t * q
  {
    MulMono(r, q, t);
  }

  /** The two runs after that first request. */
  lemma AheadRuns(s: Settings, now: Instant, later: Instant, own: real, more: real)
    requires Consume(Tick(One(0.0, 0.0, now), s, later), s, 0, s.globalBurst, later).0 == One(own + more, 0.0, later)
    requires Consume(One(0.0, 0.0, now), s, 0, s.globalBurst, later).0 == One(own, 0.0, later)
    ensures var ops := [TickAt(later)] + [ConsumeAt(0, s.globalBurst, later)];
            && Run(s, One(0.0, 0.0, now), ops, true).0 == One(own + more, 0.0, later)
            && Run(s, One(0.0, 0.0, now), ops, false).0 == One(own, 0.0, later)
  {
    var from := One(0.0, 0.0, now);
    assert [] + [TickAt(later)] == [TickAt(later)];
    forall evict: bool ensures Run(s, from, [TickAt(later)], evict).0 == if evict then Tick(from, s, later) else from {
      RunLast(s, from, [], TickAt(later), evict);
    }
    RunLast(s, from, [TickAt(later)], ConsumeAt(0, s.globalBurst, later), true);
    RunLast(s, from, [TickAt(later)], ConsumeAt(0, s.globalBurst, later), false);
  }

  /** Then the address takes totals until the difference is all it has left. */
  lemma AskedAfterDraining(s: Settings, now: Instant) returns (ops: seq<Op>, later: Instant)
    requires Usable(s) && s.enabled && s.globalBurst <= s.ipBurst && s.globalRefill > s.ipRefill
    requires s.globalBurst as real <= s.idleTtl / 1000.0 * s.ipRefill as real < s.ipBurst as real
    ensures Forward(ops, now) && Clock(ops, now) <= later && Part(s, One(0.0, 0.0, now), ops, 1, later)
  {
    var mid, own, more := Ahead(s, now);
    AheadRuns(s, now, mid, own, more);
    ops, later := Apart(s, now, mid, own, more);
  }

  lemma Apart(s: Settings, now: Instant, mid: Instant, own: real, more: real) returns (ops: seq<Op>, later: Instant)
    requires Usable(s) && s.enabled && s.globalBurst <= s.ipBurst && s.globalRefill > s.ipRefill
    requires mid > now && own >= 0.0 && more > 0.0 && own + more + s.globalBurst as real == s.ipBurst as real
    requires var ops := [TickAt(mid)] + [ConsumeAt(0, s.globalBurst, mid)];
             && Run(s, One(0.0, 0.0, now), ops, true).0 == One(own + more, 0.0, mid)
             && Run(s, One(0.0, 0.0, now), ops, false).0 == One(own, 0.0, mid)
    ensures Forward(ops, now) && Clock(ops, now) <= later && Part(s, One(0.0, 0.0, now), ops, 1, later)
  {
    LossPositive(s);
    var n := Enough(own, Loss(s));
    var rest, end := Drain(s, own, more, mid, n);
    later := AskedForOne(s, end, more);
    var pre := [TickAt(mid)] + [ConsumeAt(0, s.globalBurst, mid)];
    ForwardConcat([TickAt(mid)], [ConsumeAt(0, s.globalBurst, mid)], now);
    ForwardConcat(pre, rest, now);
    RunConcat(s, One(0.0, 0.0, now), pre, rest, true);
    RunConcat(s, One(0.0, 0.0, now), pre, rest, false);
    ops := pre + rest;
  }

  /** The total fills up faster than the address: the address can be driven down to nothing, and
      an eviction then gives it what it would not have. */
  lemma VisibleFaster(s: Settings, start: Instant) returns (ops: seq<Op>, units: nat, now: Instant)
    requires Usable(s) && s.enabled && !FillsWhileIdle(s) && s.globalBurst <= s.ipBurst && s.globalRefill > s.ipRefill
    ensures Forward(ops, start) && Clock(ops, start) <= now && Part(s, Fresh(s, start), ops, units, now)
  {
    var pre, mid := Emptied(s, start);
    var rest;
    if s.idleTtl / 1000.0 * s.ipRefill as real < s.globalBurst as real {
      now := AskedAtOnce(s, mid);
      rest, units := [TickAt(now)], s.globalBurst;
    } else {
      rest, now := AskedAfterDraining(s, mid);
      units := 1;
    }
    PartAfter(s, Fresh(s, start), pre, One(0.0, 0.0, mid), rest, units, now);
    ForwardConcat(pre, rest, start);
    ops := pre + rest;
  }

  // ----- exactly when eviction is invisible -----

  /** No run shows whether idle buckets are evicted. */
  ghost predicate EvictionNeverShows(s: Settings, start: Instant) {
    forall ops | Forward(ops, start) :: Run(s, Fresh(s, start), ops, true).1 == Run(s, Fresh(s, start), ops, false).1
  }

  /** Where neither an idle bucket fills up in time nor the total catches up, some run shows it. */
  lemma EvictionVisible(s: Settings, start: Instant) returns (ops: seq<Op>)
    requires Usable(s) && s.enabled && !FillsWhileIdle(s) && !TotalCatchesUp(s)
    ensures Forward(ops, start) && Run(s, Fresh(s, start), ops, true).1 != Run(s, Fresh(s, start), ops, false).1
  {
    var pre, units, now;
    if s.globalBurst > s.ipBurst {
      if s.globalRefill > s.ipRefill { NotOutweighed(s); }
      pre, units, now := VisibleAhead(s, start);
    } else {
      if s.globalRefill <= s.ipRefill { SmallTotalHides(s); }
      pre, units, now := VisibleFaster(s, start);
    }
    ForwardMore(pre, start, ConsumeAt(0, units, now));
    PartDiffers(s, Fresh(s, start), pre, units, now);
    ops := pre + [ConsumeAt(0, units, now)];
  }

  lemma NotOutweighed(s: Settings)
    requires Usable(s) && s.enabled && s.globalBurst > s.ipBurst && s.globalRefill > s.ipRefill
    ensures !Outweighs(Beyond(s), s.ipRefill, s.globalRefill, s.globalBurst - s.ipBurst)
  {
    MulMono(0.0, s.idleTtl / 1000.0, s.ipRefill as real);
    SignedProducts(Beyond(s), s.ipRefill - s.globalRefill, s.globalBurst - s.ipBurst, s.ipRefill);
  }

  lemma SignedProducts(a: int, b: int, c: int, d: int)
    requires a >= 0 && b <= 0 && c > 0 && d > 0
    ensures a * b <= 0 < c * d
  {
  }

  /** Eviction of idle buckets never changes a decision, in any run, if and only if an idle bucket
      fills up within the idle limit or the total catches up with it. */
  lemma EvictionIff(s: Settings, start: Instant)
    requires Usable(s)
    ensures EvictionNeverShows(s, start) <==> !s.enabled || FillsWhileIdle(s) || TotalCatchesUp(s)
  {
    if !s.enabled || FillsWhileIdle(s) {
      forall ops | Forward(ops, start)
        ensures Run(s, Fresh(s, start), ops, true).1 == Run(s, Fresh(s, start), ops, false).1
      {
        EvictionInvisible(s, start, ops);
      }
    } else if TotalCatchesUp(s) {
      forall ops | Forward(ops, start)
        ensures Run(s, Fresh(s, start), ops, true).1 == Run(s, Fresh(s, start), ops, false).1
      {
        EvictionHidden(s, start, ops);
      }
    } else {
      var ops := EvictionVisible(s, start);
    }
  }

  // ----- the total -----

  function CostOf(s: Settings, op: Op): nat { if op.ConsumeAt? then Cost(s, op.units) else 0 }

  /** Units consumed in a run. */
  function Consumed(s: Settings, start: Budget, ops: seq<Op>): nat {
    if ops == [] then 0
    else
      var init, op := ops[..|ops| - 1], ops[|ops| - 1];
      Consumed(s, start, init)
      + if op.ConsumeAt? && Consume(Run(s, start, init, true).0, s, op.ip, op.units, op.now).1 == Allow then CostOf(s, op) else 0
  }

  lemma YieldAdds(a: Instant, b: Instant, c: Instant, rate: nat)
    requires a <= b <= c
    ensures Yield(a, b, rate) + Yield(b, c, rate) == Yield(a, c, rate)
  {
    Distributes((b - a) / 1000.0, (c - b) / 1000.0, rate as real);
    assert (b - a) / 1000.0 + (c - b) / 1000.0 == (c - a) / 1000.0;
  }

  /** A global bucket and the units taken from it since `start`. */
  ghost predicate Accounted(b: Bucket, consumed: nat, s: Settings, start: Instant) {
    && start <= b.lastRefill && 0.0 <= b.tokens
    && consumed as real + b.tokens <= s.globalBurst as real + Yield(start, b.lastRefill, s.globalRefill)
  }

  lemma RefillAccounted(b: Bucket, consumed: nat, s: Settings, start: Instant, now: Instant)
    requires Accounted(b, consumed, s, start)
    ensures Accounted(Refill(b, now, s.globalRefill, s.globalBurst), consumed, s, start)
  {
    if now > b.lastRefill {
      YieldAdds(start, b.lastRefill, now, s.globalRefill);
      MulMono(0.0, (now - b.lastRefill) / 1000.0, s.globalRefill as real);
    }
  }

  /** In every run, whatever the clock does, the units consumed are at most the total burst and
      what the total rate yields in the time that passed. */
  lemma {:induction false} ConsumedBounded(s: Settings, start: Instant, ops: seq<Op>)
    requires Usable(s) && s.enabled
    ensures Accounted(Run(s, Fresh(s, start), ops, true).0.global, Consumed(s, Fresh(s, start), ops), s, start)
    ensures var b := Run(s, Fresh(s, start), ops, true).0.global;
            Consumed(s, Fresh(s, start), ops) as real <= s.globalBurst as real + Yield(start, b.lastRefill, s.globalRefill)
  {
    if ops == [] {
      assert Yield(start, start, s.globalRefill) == 0.0;
    } else {
      var init, op := ops[..|ops| - 1], ops[|ops| - 1];
      ConsumedBounded(s, start, init);
      if op.ConsumeAt? {
        RefillAccounted(Run(s, Fresh(s, start), init, true).0.global, Consumed(s, Fresh(s, start), init), s, start, op.now);
      }
    }
  }

  // ----- the object -----

  class ProcessingBudget {
    const config: Settings
    var global: Bucket
    var perIp: map<Ip, Bucket>
    var consumed: nat

    ghost function Value(): Budget
      reads this
    {
      Budget(global, perIp)
    }

    constructor (settings: Settings, now: Instant)
      ensures config == Normalize(settings) && Value() == Fresh(config, now) && consumed == 0
    {
      config := Normalize(settings);
      global := Full(now, Normalize(settings).globalBurst);
      perIp := map[];
      consumed := 0;
    }

    /** Drops the buckets that have been idle past the limit. */
    method OnTick(now: Instant)
      modifies this
      ensures Value() == Tick(old(Value()), config, now) && consumed == old(consumed)
    {
      if !config.enabled {
        perIp := map[];
        return;
      }
      var todo := perIp.Keys;
      while todo != {}
        invariant todo <= perIp.Keys <= old(perIp.Keys) && global == old(global) && consumed == old(consumed)
        invariant forall ip <- perIp :: perIp[ip] == old(perIp)[ip] && (ip in todo || !Idle(perIp[ip], config, now))
        invariant forall ip <- old(perIp) :: ip in perIp || Idle(old(perIp)[ip], config, now)
        decreases |todo|
      {
        var ip :| ip in todo;
        todo := todo - {ip};
        if Idle(perIp[ip], config, now) { perIp := perIp - {ip}; }
      }
      assert perIp == Tick(old(Value()), config, now).buckets;
    }

    method Use(ip: Ip, units: nat, now: Instant) returns (d: Decision)
      modifies this
      ensures (Value(), d) == Consume(old(Value()), config, ip, units, now)
      ensures consumed == old(consumed) + if config.enabled && d.Allow? then Cost(config, units) else 0
    {
      if !config.enabled { return Allow; }
      var cost := Min(Max(units, 1), Max(Min(config.ipBurst, config.globalBurst), 1));
      global := Refill(global, now, config.globalRefill, config.globalBurst);
      if global.tokens < cost as real { return GlobalExhausted; }
      if ip !in perIp { perIp := perIp[ip := Full(now, config.ipBurst)]; }
      perIp := perIp[ip := Refill(perIp[ip], now, config.ipRefill, config.ipBurst)];
      if perIp[ip].tokens < cost as real {
        assert perIp == old(perIp)[ip := perIp[ip]];
        return IpExhausted;
      }
      global := Spend(global, cost);
      perIp := perIp[ip := Spend(perIp[ip], cost)];
      assert perIp == old(perIp)[ip := perIp[ip]];
      consumed := consumed + cost;
      d := Allow;
    }
  }
}
