/** The duplicate filter of reliable frames (src/session/reliable_tracker.rs). */
module Tracking {
  import opened Base
  import opened Sequence24

  /** `ahead[i]` was meant to say that the number `i + 1` after `base` has been seen. */
  datatype Tracker = Tracker(base: Seq24, ahead: seq<bool>)

  function HasSeen(t: Tracker, maxWindow: nat, index: Seq24): bool {
    var distance := DistanceTo(t.base, index);
    && 0 < distance <= maxWindow
    && distance - 1 < |t.ahead| && t.ahead[distance - 1]
  }

  /** `advance_base`: pops seen numbers off the front, moving the base past each. */
  function Advance(t: Tracker): Tracker
    decreases |t.ahead|
  {
    if t.ahead != [] && t.ahead[0] then Advance(Tracker(Next(t.base), t.ahead[1..])) else t
  }

  function Widen(ahead: seq<bool>, n: nat): (r: seq<bool>)
    ensures |r| == Max(|ahead|, n) && ahead <= r
    ensures forall i | |ahead| <= i < |r| :: !r[i]
  {
    if |ahead| >= n then ahead else ahead + seq(n - |ahead|, _ => false)
  }

  function See(t: Tracker, maxWindow: nat, index: Seq24): (Tracker, bool) {
    if index == t.base then (Advance(t.(base := Next(t.base))), true)
    else
      var distance := DistanceTo(t.base, index);
      if distance > maxWindow then (t, false)
      else
        var wide := Widen(t.ahead, distance);
        if wide[distance - 1] then (t.(ahead := wide), false)
        else (t.(ahead := wide[distance - 1 := true]), true)
  }

  // ----- what has been recorded -----

  /** The length of the run of seen numbers right after the base. */
  function RunLength(ahead: seq<bool>): (k: nat)
    ensures k <= |ahead|
    ensures forall i | 0 <= i < k :: ahead[i]
    ensures k < |ahead| ==> !ahead[k]
  {
    if ahead == [] || !ahead[0] then 0 else 1 + RunLength(ahead[1..])
  }

  lemma {:induction false} AdvanceDrops(t: Tracker, base: nat)
    requires t.base == Of(base)
    ensures Advance(t) == Tracker(Of(base + RunLength(t.ahead)), t.ahead[RunLength(t.ahead)..])
    decreases |t.ahead|
  {
    if t.ahead != [] && t.ahead[0] {
      NextOf(base);
      AdvanceDrops(Tracker(Next(t.base), t.ahead[1..]), base + 1);
    }
  }

  /** An unbounded counter behind the base, and the counter values of all numbers recorded. */
  datatype History = History(base: nat, numbers: set<nat>)

  /** A number is recorded if it is the base or lies in the window ahead. */
  ghost function Recorded(h: History, t: Tracker, maxWindow: nat, index: Seq24): History {
    var d := DistanceTo(t.base, index);
    if d > maxWindow then h
    else History(h.base + (if d == 0 then 1 + RunLength(t.ahead) else 0), h.numbers + {h.base + d})
  }

  /** The tracker and the history after any run of numbers. */
  ghost function After(maxWindow: nat, run: seq<Seq24>): (Tracker, History) {
    if run == [] then (Tracker(0, []), History(0, {}))
    else
      var (t, h) := After(maxWindow, run[..|run| - 1]);
      (See(t, maxWindow, run[|run| - 1]).0, Recorded(h, t, maxWindow, run[|run| - 1]))
  }

  /** The base stands for its counter, and nothing is recorded past the bitmap's reach. */
  ghost predicate Bounded(t: Tracker, maxWindow: nat, h: History) {
    && t.base == Of(h.base) && |t.ahead| <= maxWindow && |t.ahead| < MODULO
    && forall n <- h.numbers :: n < h.base + MODULO
  }

  lemma SeeBounded(t: Tracker, maxWindow: nat, h: History, index: Seq24)
    requires Bounded(t, maxWindow, h)
    ensures Bounded(See(t, maxWindow, index).0, maxWindow, Recorded(h, t, maxWindow, index))
  {
    if index == t.base {
      NextOf(h.base);
      AdvanceDrops(t.(base := Next(t.base)), h.base + 1);
    }
  }

  lemma {:induction false} RunBounded(maxWindow: nat, run: seq<Seq24>)
    ensures var (t, h) := After(maxWindow, run); Bounded(t, maxWindow, h)
  {
    if run != [] {
      var (t, h) := After(maxWindow, run[..|run| - 1]);
      RunBounded(maxWindow, run[..|run| - 1]);
      SeeBounded(t, maxWindow, h, run[|run| - 1]);
    }
  }

  // ----- when the filter is exact on the numbers ahead -----

  /** The filter answers "seen" for exactly those numbers ahead of the base that were recorded. */
  ghost predicate Exact(t: Tracker, maxWindow: nat, h: History) {
    forall d | 1 <= d < MODULO :: HasSeen(t, maxWindow, Plus(t.base, d)) <==> h.base + d in h.numbers
  }

  /** Of the numbers after the base none is missing before a recorded one. */
  ghost predicate NoneMissing(h: History) {
    forall n, m | n in h.numbers && h.base < m < n :: m in h.numbers
  }

  /** The bitmap has the number at this distance from the base. */
  predicate Marked(t: Tracker, d: nat) { 1 <= d <= |t.ahead| && t.ahead[d - 1] }

  /** The bitmap is the history, without unseen numbers at its end, and the base is the first
      number missing. */
  ghost predicate Faithful(t: Tracker, maxWindow: nat, h: History) {
    && Bounded(t, maxWindow, h)
    && (forall n: nat | n > h.base :: n in h.numbers <==> Marked(t, n - h.base))
    && (t.ahead != [] ==> t.ahead[|t.ahead| - 1])
    && (forall n: nat | n <= h.base :: n in h.numbers <==> n < h.base)
  }

  lemma FaithfulExact(t: Tracker, maxWindow: nat, h: History)
    requires Faithful(t, maxWindow, h)
    ensures Exact(t, maxWindow, h)
  {
  }

  lemma GapFree(t: Tracker, maxWindow: nat, h: History)
    requires Faithful(t, maxWindow, h)
    ensures NoneMissing(h) <==> RunLength(t.ahead) == |t.ahead|
  {
    var k := RunLength(t.ahead);
    if k < |t.ahead| {
      assert Marked(t, |t.ahead|) && !Marked(t, k + 1);
      assert h.base + |t.ahead| in h.numbers && h.base + k + 1 !in h.numbers;
    } else {
      forall n, m | n in h.numbers && h.base < m < n ensures m in h.numbers {
        assert Marked(t, n - h.base);
        assert Marked(t, m - h.base);
      }
    }
  }

  /** A number ahead, in the window or not, keeps the bitmap faithful. */
  lemma AheadFaithful(t: Tracker, maxWindow: nat, h: History, index: Seq24)
    requires Faithful(t, maxWindow, h) && index != t.base
    ensures Faithful(See(t, maxWindow, index).0, maxWindow, Recorded(h, t, maxWindow, index))
  {
  }

  /** Taking the base keeps the filter exact, and faithful, if and only if none of the numbers
      after it is missing. Otherwise the bitmap keeps an entry for the new base itself and later
      answers are off by one. */
  lemma ExactIff(t: Tracker, maxWindow: nat, h: History)
    requires Faithful(t, maxWindow, h)
    ensures var after, now := See(t, maxWindow, t.base).0, Recorded(h, t, maxWindow, t.base);
            && (NoneMissing(h) ==> Faithful(after, maxWindow, now))
            && (Exact(after, maxWindow, now) <==> NoneMissing(h))
  {
    var after, now := See(t, maxWindow, t.base).0, Recorded(h, t, maxWindow, t.base);
    TakeBase(t, maxWindow, h);
    GapFree(t, maxWindow, h);
    if RunLength(t.ahead) == |t.ahead| {
      AllTaken(t, maxWindow, h, after, now);
      FaithfulExact(after, maxWindow, now);
    } else {
      GapShows(t, maxWindow, h, after, now);
    }
  }

  /** What taking the base leaves. */
  lemma TakeBase(t: Tracker, maxWindow: nat, h: History)
    requires Bounded(t, maxWindow, h)
    ensures var k := RunLength(t.ahead);
            && See(t, maxWindow, t.base).0 == Tracker(Of(h.base + 1 + k), t.ahead[k..])
            && Recorded(h, t, maxWindow, t.base) == History(h.base + 1 + k, h.numbers + {h.base})
  {
    NextOf(h.base);
    AdvanceDrops(t.(base := Next(t.base)), h.base + 1);
  }

  lemma GapShows(t: Tracker, maxWindow: nat, h: History, after: Tracker, now: History)
    requires Faithful(t, maxWindow, h) && RunLength(t.ahead) < |t.ahead|
    requires var k := RunLength(t.ahead);
             after == Tracker(Of(h.base + 1 + k), t.ahead[k..]) && now == History(h.base + 1 + k, h.numbers + {h.base})
    ensures !Exact(after, maxWindow, now)
  {
    var k := RunLength(t.ahead);
    var i := LastUnseen(after.ahead);
    assert Marked(t, i + 2 + k) by { assert after.ahead[i + 1] == t.ahead[i + 1 + k]; }
    assert now.base + (i + 1) == h.base + (i + 2 + k);
    assert !HasSeen(after, maxWindow, Plus(after.base, i + 1)) && now.base + (i + 1) in now.numbers;
  }

  lemma AllTaken(t: Tracker, maxWindow: nat, h: History, after: Tracker, now: History)
    requires Faithful(t, maxWindow, h) && RunLength(t.ahead) == |t.ahead|
    requires after == Tracker(Of(h.base + 1 + |t.ahead|), t.ahead[|t.ahead|..])
    requires now == History(h.base + 1 + |t.ahead|, h.numbers + {h.base})
    ensures Faithful(after, maxWindow, now)
  {
    forall n: nat | n > now.base ensures n !in now.numbers { assert !Marked(t, n - h.base); }
    forall n: nat | n <= now.base ensures n in now.numbers <==> n < now.base {
      if n > h.base { assert Marked(t, n - h.base) <==> n - h.base <= |t.ahead|; }
    }
  }

  lemma {:induction false} LastUnseen(rest: seq<bool>) returns (i: nat)
    requires rest != [] && !rest[0] && rest[|rest| - 1]
    ensures i + 1 < |rest| && !rest[i] && rest[i + 1]
  {
    if rest[1] { i := 0; }
    else { i := LastUnseen(rest[1..]); i := i + 1; }
  }

  ghost predicate ExactAfter(maxWindow: nat, run: seq<Seq24>) {
    var (t, h) := After(maxWindow, run); Exact(t, maxWindow, h)
  }

  /** The next number of the run is the base. */
  ghost predicate TakesBase(maxWindow: nat, run: seq<Seq24>, i: nat) {
    i < |run| && run[i] == After(maxWindow, run[..i]).0.base
  }

  ghost predicate NoneMissingAfter(maxWindow: nat, run: seq<Seq24>) { NoneMissing(After(maxWindow, run).1) }

  /** Whenever the run takes the base, none of the later numbers is missing. */
  ghost predicate TakenWithoutGaps(maxWindow: nat, run: seq<Seq24>) {
    forall i: nat | i < |run| :: TakesBase(maxWindow, run, i) ==> NoneMissingAfter(maxWindow, run[..i])
  }

  lemma TakenInit(maxWindow: nat, run: seq<Seq24>)
    requires run != []
    ensures var init := run[..|run| - 1];
            TakenWithoutGaps(maxWindow, run)
            <==> && TakenWithoutGaps(maxWindow, init)
                 && (TakesBase(maxWindow, run, |run| - 1) ==> NoneMissingAfter(maxWindow, init))
  {
    var n := |run| - 1;
    var init := run[..n];
    forall i: nat | i < n ensures init[..i] == run[..i] && (TakesBase(maxWindow, init, i) <==> TakesBase(maxWindow, run, i)) {
      assert init[..i] == run[..i];
    }
  }

  /** Up to the first gap the bitmap is the history. */
  lemma {:induction false} RunFaithful(maxWindow: nat, run: seq<Seq24>)
    requires TakenWithoutGaps(maxWindow, run)
    ensures var (t, h) := After(maxWindow, run); Faithful(t, maxWindow, h)
  {
    if run != [] {
      var init, index := run[..|run| - 1], run[|run| - 1];
      TakenInit(maxWindow, run);
      RunFaithful(maxWindow, init);
      var (t, h) := After(maxWindow, init);
      if index == t.base { ExactIff(t, maxWindow, h); } else { AheadFaithful(t, maxWindow, h, index); }
    }
  }

  ghost predicate AlwaysExact(maxWindow: nat, run: seq<Seq24>) {
    forall i: nat | i <= |run| :: ExactAfter(maxWindow, run[..i])
  }

  /** Over every run from a fresh tracker: the filter is exact on the numbers ahead at all
      moments if and only if every taking of the base finds no later number missing. */
  lemma {:induction false} RunExactIff(maxWindow: nat, run: seq<Seq24>)
    ensures AlwaysExact(maxWindow, run) <==> TakenWithoutGaps(maxWindow, run)
  {
    assert run[..|run|] == run;
    if run == [] {
      assert forall i: nat | i <= 0 :: run[..i] == [];
      FaithfulExact(Tracker(0, []), maxWindow, History(0, {}));
    } else {
      var n := |run| - 1;
      var init := run[..n];
      forall i: nat | i <= n ensures init[..i] == run[..i] {}
      assert AlwaysExact(maxWindow, run) <==> AlwaysExact(maxWindow, init) && ExactAfter(maxWindow, run);
      RunExactIff(maxWindow, init);
      TakenInit(maxWindow, run);
      if TakenWithoutGaps(maxWindow, init) { LastExactIff(maxWindow, run); }
    }
  }

  lemma LastExactIff(maxWindow: nat, run: seq<Seq24>)
    requires run != [] && TakenWithoutGaps(maxWindow, run[..|run| - 1])
    ensures ExactAfter(maxWindow, run)
       <==> (TakesBase(maxWindow, run, |run| - 1) ==> NoneMissingAfter(maxWindow, run[..|run| - 1]))
  {
    var init, index := run[..|run| - 1], run[|run| - 1];
    RunFaithful(maxWindow, init);
    var (t, h) := After(maxWindow, init);
    if index == t.base {
      ExactIff(t, maxWindow, h);
    } else {
      AheadFaithful(t, maxWindow, h, index);
      FaithfulExact(See(t, maxWindow, index).0, maxWindow, Recorded(h, t, maxWindow, index));
    }
  }

  // ----- numbers behind the base -----

  /** In every run a number behind the base, seen or not, is answered unseen and changes nothing,
      as long as the window does not reach round to it. */
  lemma BehindUnseen(maxWindow: nat, run: seq<Seq24>, n: nat)
    requires n < After(maxWindow, run).1.base < n + MODULO - maxWindow
    ensures var t := After(maxWindow, run).0;
            !HasSeen(t, maxWindow, Of(n)) && See(t, maxWindow, Of(n)) == (t, false)
  {
    var (t, h) := After(maxWindow, run);
    RunBounded(maxWindow, run);
    DistanceOf(n, h.base - n);
  }

  /** The filter answers rightly for a number ahead, the base, and a number behind alike. */
  ghost predicate ExactBothWays(t: Tracker, maxWindow: nat, h: History) {
    forall n: nat | h.base + maxWindow < n + MODULO && n <= h.base + maxWindow ::
      HasSeen(t, maxWindow, Of(n)) <==> n in h.numbers
  }

  ghost predicate ExactBothWaysAfter(maxWindow: nat, run: seq<Seq24>) {
    var (t, h) := After(maxWindow, run); ExactBothWays(t, maxWindow, h)
  }

  lemma {:induction false} NothingTaken(maxWindow: nat, run: seq<Seq24>)
    requires maxWindow < MODULO && forall i: nat | i < |run| :: !TakesBase(maxWindow, run, i)
    ensures After(maxWindow, run).1.base == 0
  {
    if run != [] {
      var init := run[..|run| - 1];
      forall i: nat | i < |init| ensures !TakesBase(maxWindow, init, i) {
        assert !TakesBase(maxWindow, run, i) && init[..i] == run[..i];
      }
      NothingTaken(maxWindow, init);
      assert !TakesBase(maxWindow, run, |run| - 1);
    }
  }

  lemma FaithfulBothWays(t: Tracker, maxWindow: nat, h: History)
    requires maxWindow < MODULO && h.base == 0 && Faithful(t, maxWindow, h)
    ensures ExactBothWays(t, maxWindow, h)
  {
    forall n: nat | n <= maxWindow ensures HasSeen(t, maxWindow, Of(n)) <==> n in h.numbers {
      DistanceOf(0, n);
      assert n > 0 ==> (n in h.numbers <==> Marked(t, n - h.base));
    }
  }

  lemma NothingTakenExact(maxWindow: nat, run: seq<Seq24>)
    requires maxWindow < MODULO && forall i: nat | i < |run| :: !TakesBase(maxWindow, run, i)
    ensures var (t, h) := After(maxWindow, run); Faithful(t, maxWindow, h) && ExactBothWays(t, maxWindow, h)
  {
    RunFaithful(maxWindow, run);
    NothingTaken(maxWindow, run);
    var (t, h) := After(maxWindow, run);
    FaithfulBothWays(t, maxWindow, h);
  }

  /** The number just taken is behind the base and answered unseen. */
  lemma TakenForgotten(t: Tracker, maxWindow: nat, h: History)
    requires maxWindow < MODULO - 1 && Faithful(t, maxWindow, h)
    ensures !ExactBothWays(See(t, maxWindow, t.base).0, maxWindow, Recorded(h, t, maxWindow, t.base))
  {
    TakeBase(t, maxWindow, h);
    Forgotten(t, maxWindow, h, See(t, maxWindow, t.base).0, Recorded(h, t, maxWindow, t.base));
  }

  lemma Forgotten(t: Tracker, maxWindow: nat, h: History, after: Tracker, now: History)
    requires maxWindow < MODULO - 1 && Faithful(t, maxWindow, h)
    requires var k := RunLength(t.ahead);
             after == Tracker(Of(h.base + 1 + k), t.ahead[k..]) && now == History(h.base + 1 + k, h.numbers + {h.base})
    ensures !ExactBothWays(after, maxWindow, now)
  {
    var k := RunLength(t.ahead);
    var n := h.base + k;
    DistanceOf(n, 1);
    assert n in now.numbers by { if k > 0 { assert Marked(t, n - h.base); } }
    assert !HasSeen(after, maxWindow, Of(n));
  }

  /** Over every run from a fresh tracker: duplicates are told from new numbers both ahead of
      and behind the base if and only if the base is never taken. */
  lemma {:induction false} BothWaysIff(maxWindow: nat, run: seq<Seq24>)
    requires maxWindow < MODULO - 1
    ensures (forall i: nat | i <= |run| :: ExactBothWaysAfter(maxWindow, run[..i]))
       <==> (forall i: nat | i < |run| :: !TakesBase(maxWindow, run, i))
  {
    if forall i: nat | i < |run| :: !TakesBase(maxWindow, run, i) {
      forall i: nat | i <= |run| ensures ExactBothWaysAfter(maxWindow, run[..i]) {
        var front := run[..i];
        forall j: nat | j < i ensures !TakesBase(maxWindow, front, j) {
          assert !TakesBase(maxWindow, run, j) && front[..j] == run[..j];
        }
        NothingTakenExact(maxWindow, front);
      }
    } else {
      var i := FirstTaken(maxWindow, run);
      var front := run[..i];
      forall j: nat | j < i ensures !TakesBase(maxWindow, front, j) {
        assert !TakesBase(maxWindow, run, j) && front[..j] == run[..j];
      }
      NothingTakenExact(maxWindow, front);
      var (t, h) := After(maxWindow, front);
      TakenForgotten(t, maxWindow, h);
      assert run[..i + 1][..i] == front;
      assert !ExactBothWaysAfter(maxWindow, run[..i + 1]);
    }
  }

  lemma {:induction false} FirstTaken(maxWindow: nat, run: seq<Seq24>, from: nat := 0) returns (i: nat)
    requires from <= |run| && (forall j: nat | j < from :: !TakesBase(maxWindow, run, j))
    requires exists j: nat | j < |run| :: TakesBase(maxWindow, run, j)
    ensures i < |run| && TakesBase(maxWindow, run, i) && forall j: nat | j < i :: !TakesBase(maxWindow, run, j)
    decreases |run| - from
  {
    if from < |run| && TakesBase(maxWindow, run, from) { i := from; }
    else { i := FirstTaken(maxWindow, run, from + 1); }
  }

  /** Frame 0 arrives twice: it is not taken for a duplicate. */
  lemma RepeatedFramePasses(maxWindow: nat)
    requires maxWindow < MODULO - 1
    ensures !HasSeen(See(Tracker(0, []), maxWindow, 0).0, maxWindow, 0)
  {
    assert See(Tracker(0, []), maxWindow, 0).0 == Tracker(1, []);
  }

  /** Frame 2 and then frame 0 arrive: frame 3, never seen, is now taken for a duplicate, and
      frame 2 is not. */
  lemma FreshFrameTakenForDuplicate(maxWindow: nat)
    requires maxWindow >= 2
    ensures var t := See(See(Tracker(0, []), maxWindow, 2).0, maxWindow, 0).0;
            HasSeen(t, maxWindow, 3) && !HasSeen(t, maxWindow, 2)
  {
    var t := See(Tracker(0, []), maxWindow, 2).0;
    assert t == Tracker(0, [false, true]);
    assert See(t, maxWindow, 0).0 == Tracker(1, [false, true]);
  }

  // ----- the object -----

  class ReliableTracker {
    var base: Seq24
    var seenAhead: seq<bool>
    const maxWindow: nat

    ghost function Value(): Tracker
      reads this
    {
      Tracker(base, seenAhead)
    }

    constructor (maxWindow: nat)
      ensures Value() == Tracker(0, []) && this.maxWindow == maxWindow
    {
      base := 0;
      seenAhead := [];
      this.maxWindow := maxWindow;
    }

    method AdvanceBase()
      modifies this
      ensures Value() == Advance(old(Value()))
    {
      while seenAhead != [] && seenAhead[0]
        invariant Advance(Value()) == Advance(old(Value()))
        decreases |seenAhead|
      {
        seenAhead := seenAhead[1..];
        base := Next(base);
      }
    }

    method Mark(index: Seq24) returns (isNew: bool)
      modifies this
      ensures (Value(), isNew) == See(old(Value()), maxWindow, index)
    {
      if index == base {
        base := Next(base);
        AdvanceBase();
        return true;
      }
      var distance := DistanceTo(base, index);
      if distance > maxWindow { return false; }
      seenAhead := Widen(seenAhead, distance);
      if seenAhead[distance - 1] { return false; }
      seenAhead := seenAhead[distance - 1 := true];
      isNew := true;
    }

    method IsSeen(index: Seq24) returns (seen: bool)
      ensures seen == HasSeen(Value(), maxWindow, index)
    {
      if index == base { return false; }
      var distance := DistanceTo(base, index);
      if distance > maxWindow { return false; }
      seen := distance - 1 < |seenAhead| && seenAhead[distance - 1];
    }
  }
}
