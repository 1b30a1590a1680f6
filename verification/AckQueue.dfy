/** The queue of outgoing acknowledgement ranges (src/session/ack_queue.rs). */
module AckQueues {
  import opened Base
  import opened Sequence24
  import opened Ack

  /** The queue after a push: dropped when full, else merged with the last range when it
      touches or overlaps it, else appended, a wrapping range in two pieces. */
  function Push(queue: seq<Range>, maxRanges: nat, r: Range): (q: seq<Range>)
    ensures |q| <= Max(|queue|, maxRanges)
    decreases if r.Wraps() then 1 else 0
  {
    if |queue| >= maxRanges then queue
    else if queue != [] && Meets(queue[|queue| - 1], r) then queue[|queue| - 1 := Merged(queue[|queue| - 1], r)]
    else if r.Wraps() then Push(Push(queue, maxRanges, LeftOf(r)), maxRanges, RightOf(r))
    else queue + [r]
  }

  /** The new range goes on where the last one ends. */
  predicate Touch(last: Range, r: Range) { Next(last.end) == r.start }

  predicate Meets(last: Range, r: Range) { Touch(last, r) || (Ge(last.end, r.start) && Ge(r.end, last.start)) }

  function Merged(last: Range, r: Range): Range {
    if Touch(last, r) then Range(last.start, r.end)
    else Range(Least(last.start, r.start), Greatest(last.end, r.end))
  }

  /** The two pieces of a range that passes the end of the space. */
  function LeftOf(r: Range): Range { Range(r.start, MODULO - 1) }

  function RightOf(r: Range): Range { Range(0, r.end) }

  /** How many more ranges a datagram takes when it already holds `taken` of them in `used` bytes. */
  function Fitting(queue: seq<Range>, mtu: nat, used: nat, taken: nat, maxRanges: nat): (k: nat)
    ensures k <= |queue|
    ensures k > 0 ==> taken + k <= maxRanges
  {
    if queue == [] || taken >= maxRanges then 0
    else
      var size := RecordsSize(queue[0].Records());
      if taken > 0 && used + size > mtu then 0
      else 1 + Fitting(queue[1..], mtu, used + size, taken + 1, maxRanges)
  }

  // ----- what a push does to the set of numbers -----

  lemma SplitLast(queue: seq<Range>, r: Range, x: Seq24)
    requires queue != []
    ensures Covers(queue, x) <==> Covers(queue[..|queue| - 1], x) || queue[|queue| - 1].Contains(x)
    ensures Covers(queue[|queue| - 1 := r], x) <==> Covers(queue[..|queue| - 1], x) || r.Contains(x)
  {
    var n := |queue| - 1;
    assert queue == queue[..n] + [queue[n]];
    assert queue[n := r] == queue[..n] + [r];
    CoversConcat(queue[..n], [queue[n]], x);
    CoversConcat(queue[..n], [r], x);
    assert [queue[n]][0] == queue[n] && [r][0] == r;
  }

  lemma CoversAppend(queue: seq<Range>, r: Range, x: Seq24)
    ensures Covers(queue + [r], x) <==> Covers(queue, x) || r.Contains(x)
  {
    CoversConcat(queue, [r], x);
    assert [r][0] == r;
  }

  /** The last range already goes all the way round. */
  predicate FullCircle(queue: seq<Range>) {
    queue != [] && Next(queue[|queue| - 1].end) == queue[|queue| - 1].start
  }

  /** Pushing one number never names any other: the exact statement behind "no false
      acknowledgement". It needs no bound on how far apart the numbers are. The number is
      added unless the queue is full, and nothing is forgotten unless the last range already
      goes all the way round. */
  lemma PushSingle(queue: seq<Range>, maxRanges: nat, s: Seq24, x: Seq24)
    ensures Covers(Push(queue, maxRanges, Single(s)), x) ==> Covers(queue, x) || x == s
    ensures |queue| < maxRanges ==> Covers(Push(queue, maxRanges, Single(s)), s)
    ensures Covers(queue, x) && !(FullCircle(queue) && Touch(queue[|queue| - 1], Single(s)))
            ==> Covers(Push(queue, maxRanges, Single(s)), x)
  {
    var r := Single(s);
    if |queue| >= maxRanges {
    } else if queue != [] && Meets(queue[|queue| - 1], r) {
      var last := queue[|queue| - 1];
      SplitLast(queue, Merged(last, r), x);
      SplitLast(queue, Merged(last, r), s);
      if !Touch(last, r) { SingleInside(last, s); }
    } else {
      CoversAppend(queue, r, x);
      CoversAppend(queue, r, s);
    }
  }

  /** A number that the circular tests place between the ends is between them. */
  lemma SingleInside(last: Range, s: Seq24)
    requires Ge(last.end, s) && Ge(s, last.start)
    ensures last.Contains(s)
    ensures Range(Least(last.start, s), Greatest(last.end, s)) == last
  {
    CmpByDistance(last.end, s);
    CmpByDistance(s, last.start);
  }

  /** How many numbers the last range names, the only one a push can merge with. */
  function LastLength(queue: seq<Range>): nat { if queue == [] then 0 else queue[|queue| - 1].Length() }

  /** Seen from a point before it, a range is an interval of distances. */
  lemma AsInterval(base: Seq24, r: Range, x: Seq24)
    requires DistanceTo(base, r.start) <= DistanceTo(base, r.end)
    ensures r.Contains(x) <==> DistanceTo(base, r.start) <= DistanceTo(base, x) <= DistanceTo(base, r.end)
    ensures r.Length() == DistanceTo(base, r.end) - DistanceTo(base, r.start) + 1
  {
  }

  /** A range that starts inside another joins it up to the further end. */
  lemma JoinInside(first: Range, second: Range, joined: Range, x: Seq24)
    requires first.Length() + second.Length() <= MODULO && first.Contains(second.start)
    requires joined.start == first.start
    requires DistanceTo(first.start, joined.end) == Max(DistanceTo(first.start, first.end), DistanceTo(first.start, second.end))
    ensures joined.Contains(x) <==> first.Contains(x) || second.Contains(x)
    ensures joined.Length() <= first.Length() + second.Length()
  {
    EndsAt(first, second);
    AsInterval(first.start, first, x);
    AsInterval(first.start, second, x);
    AsInterval(first.start, joined, x);
  }

  lemma EndsAt(first: Range, second: Range)
    requires first.Length() + second.Length() <= MODULO && first.Contains(second.start)
    ensures DistanceTo(first.start, second.end)
         == DistanceTo(first.start, second.start) + DistanceTo(second.start, second.end)
    ensures DistanceTo(second.start, first.end)
         == DistanceTo(first.start, first.end) - DistanceTo(first.start, second.start)
  {
  }

  /** If both overlap tests succeed, one range starts inside the other. */
  lemma OneInside(last: Range, r: Range)
    requires last.Length() + r.Length() <= MODULO && Ge(last.end, r.start) && Ge(r.end, last.start)
    ensures last.Contains(r.start) || r.Contains(last.start)
  {
    CmpByDistance(last.end, r.start);
    CmpByDistance(r.end, last.start);
  }

  /** The further of two ends by the circular test, seen from a start half a lap or less away. */
  lemma FurtherEnd(from: Seq24, inner: Seq24, a: Seq24, b: Seq24)
    requires DistanceTo(from, inner) <= DistanceTo(from, a) && DistanceTo(from, inner) <= DistanceTo(from, b)
    requires DistanceTo(inner, a) < HALF && DistanceTo(inner, b) < HALF
    ensures DistanceTo(from, Greatest(a, b)) == Max(DistanceTo(from, a), DistanceTo(from, b))
  {
    DistanceSplit(from, inner, a);
    DistanceSplit(from, inner, b);
    CmpByDistance(b, a);
    if DistanceTo(from, a) <= DistanceTo(from, b) { DistanceSplit(from, a, b); } else { DistanceSplit(from, b, a); }
  }

  lemma NearerStart(a: Seq24, b: Seq24)
    requires DistanceTo(a, b) < HALF
    ensures Least(a, b) == a && Least(b, a) == a
  {
    CmpByDistance(a, b);
    CmpByDistance(b, a);
  }

  lemma TouchExact(last: Range, r: Range, x: Seq24)
    requires last.Length() + r.Length() <= MODULO && Touch(last, r)
    ensures Merged(last, r).Contains(x) <==> last.Contains(x) || r.Contains(x)
    ensures Merged(last, r).Length() == last.Length() + r.Length()
  {
  }

  /** Two ranges that touch or pass the circular overlap tests merge into their union, as long as
      together they name at most a whole lap. */
  lemma MergeExact(last: Range, r: Range, x: Seq24)
    requires last.Length() + r.Length() <= MODULO && Meets(last, r)
    ensures Merged(last, r).Contains(x) <==> last.Contains(x) || r.Contains(x)
    ensures Merged(last, r).Length() <= last.Length() + r.Length()
  {
    if Touch(last, r) {
      TouchExact(last, r, x);
    } else {
      CmpByDistance(last.end, r.start);
      CmpByDistance(r.end, last.start);
      OneInside(last, r);
      if last.Contains(r.start) {
        EndsAt(last, r);
        NearerStart(last.start, r.start);
        FurtherEnd(last.start, r.start, last.end, r.end);
        JoinInside(last, r, Merged(last, r), x);
      } else {
        EndsAt(r, last);
        NearerStart(r.start, last.start);
        FurtherEnd(r.start, last.start, last.end, r.end);
        JoinInside(r, last, Merged(last, r), x);
      }
    }
  }

  /** Both ranges go all the way round. */
  predicate TwoCircles(last: Range, r: Range) { last.Length() == MODULO == r.Length() }

  /** Past a whole lap two ranges that meet name everything between them. */
  lemma MeetAllRound(last: Range, r: Range, x: Seq24)
    requires last.Length() + r.Length() > MODULO && Meets(last, r)
    ensures last.Contains(x) || r.Contains(x)
  {
    if !Touch(last, r) {
      CmpByDistance(last.end, r.start);
      CmpByDistance(r.end, last.start);
    }
  }

  /** But what they merge into does not. */
  lemma MergedNotFull(last: Range, r: Range)
    requires last.Length() + r.Length() > MODULO && Meets(last, r) && !(Touch(last, r) && TwoCircles(last, r))
    ensures !Merged(last, r).Contains(Next(Merged(last, r).end))
  {
    if !Touch(last, r) {
      CmpByDistance(last.end, r.start);
      CmpByDistance(r.end, last.start);
      CmpByDistance(r.start, last.start);
      CmpByDistance(r.end, last.end);
    }
  }

  /** Ranges that meet merge into exactly their union if and only if together they name at most a
      whole lap, or both go all the way round and touch. */
  lemma MergeIff(last: Range, r: Range)
    requires Meets(last, r)
    ensures (forall x: Seq24 :: Merged(last, r).Contains(x) <==> last.Contains(x) || r.Contains(x))
       <==> last.Length() + r.Length() <= MODULO || (Touch(last, r) && TwoCircles(last, r))
  {
    if last.Length() + r.Length() <= MODULO {
      forall x: Seq24 ensures Merged(last, r).Contains(x) <==> last.Contains(x) || r.Contains(x) { MergeExact(last, r, x); }
    } else if !(Touch(last, r) && TwoCircles(last, r)) {
      MergedNotFull(last, r);
      MeetAllRound(last, r, Next(Merged(last, r).end));
    }
  }

  // ----- what of a range gets in -----

  /** The new range meets the last one and together they name more than a lap. */
  predicate PastLap(last: Range, r: Range) { Meets(last, r) && last.Length() + r.Length() > MODULO }

  /** The parts of a range that find room: all of it, none when the queue is full, and only the
      part before the end of the space when that part takes the last slot. */
  function Entered(queue: seq<Range>, maxRanges: nat, r: Range): seq<Range>
    decreases if r.Wraps() then 1 else 0
  {
    if |queue| >= maxRanges then []
    else if !r.Wraps() || (queue != [] && Meets(queue[|queue| - 1], r)) then [r]
    else Entered(queue, maxRanges, LeftOf(r)) + Entered(Push(queue, maxRanges, LeftOf(r)), maxRanges, RightOf(r))
  }

  /** A range of at most half a lap that does not meet the last one may do so with its left piece;
      that and what the right piece then meets stay within a lap. */
  lemma PiecesWithinLap(last: Range, r: Range)
    requires r.Wraps() && r.Length() <= HALF && !Meets(last, r)
    ensures !PastLap(last, LeftOf(r))
    ensures Meets(last, LeftOf(r)) ==> !PastLap(Merged(last, LeftOf(r)), RightOf(r))
  {
    var left := LeftOf(r);
    CmpByDistance(last.end, r.start);
    CmpByDistance(r.end, last.start);
    CmpByDistance(left.end, last.start);
    if Meets(last, left) {
      CmpByDistance(r.start, last.start);
      CmpByDistance(left.end, last.end);
      RightWithinLap(last, r, Merged(last, left));
    }
  }

  lemma RightWithinLap(last: Range, r: Range, m: Range)
    requires r.Wraps() && r.Length() <= HALF && DistanceTo(last.start, r.end) >= HALF
    requires DistanceTo(r.start, last.end) < HALF && DistanceTo(last.start, MODULO - 1) < HALF
    requires m.start == last.start
    requires m.end == if DistanceTo(last.start, last.end) >= DistanceTo(last.start, MODULO - 1) then last.end else MODULO - 1
    ensures !PastLap(m, RightOf(r))
  {
    CmpByDistance(m.end, 0);
    CmpByDistance(r.end, m.start);
  }

  lemma PushOne(queue: seq<Range>, maxRanges: nat, r: Range, x: Seq24)
    requires queue != [] ==> !PastLap(queue[|queue| - 1], r)
    requires !r.Wraps() || (queue != [] && Meets(queue[|queue| - 1], r))
    ensures Covers(Push(queue, maxRanges, r), x) <==> Covers(queue, x) || Covers(Entered(queue, maxRanges, r), x)
  {
    assert Covers([r], x) <==> r.Contains(x) by { assert [r][0] == r; }
    if |queue| >= maxRanges {
    } else if queue != [] && Meets(queue[|queue| - 1], r) {
      MergeExact(queue[|queue| - 1], r, x);
      SplitLast(queue, Merged(queue[|queue| - 1], r), x);
    } else {
      CoversAppend(queue, r, x);
    }
  }

  /** Pushing a range of at most half a lap adds exactly what of it finds room, unless it meets the
      last range and the two name more than a lap. */
  lemma PushRange(queue: seq<Range>, maxRanges: nat, r: Range, x: Seq24)
    requires r.Length() <= HALF && (queue != [] ==> !PastLap(queue[|queue| - 1], r))
    ensures Covers(Push(queue, maxRanges, r), x) <==> Covers(queue, x) || Covers(Entered(queue, maxRanges, r), x)
  {
    if |queue| >= maxRanges || !r.Wraps() || (queue != [] && Meets(queue[|queue| - 1], r)) {
      if |queue| < maxRanges { PushOne(queue, maxRanges, r, x); }
    } else {
      var left, right := LeftOf(r), RightOf(r);
      var mid := Push(queue, maxRanges, left);
      if queue != [] { PiecesWithinLap(queue[|queue| - 1], r); }
      PushOne(queue, maxRanges, left, x);
      assert !PastLap(mid[|mid| - 1], right) by { PiecesLength(r); }
      PushOne(mid, maxRanges, right, x);
      CoversConcat(Entered(queue, maxRanges, left), Entered(mid, maxRanges, right), x);
    }
  }

  lemma PiecesLength(r: Range)
    requires r.Wraps()
    ensures LeftOf(r).Length() + RightOf(r).Length() == r.Length()
    ensures LeftOf(r).Length() < r.Length() && RightOf(r).Length() < r.Length()
  {
  }

  /** With room all of the range gets in. */
  lemma EnteredWhole(queue: seq<Range>, maxRanges: nat, r: Range, x: Seq24)
    requires |queue| + (if r.Wraps() then 1 else 0) < maxRanges
    ensures Covers(Entered(queue, maxRanges, r), x) <==> r.Contains(x)
  {
    var all := Entered(queue, maxRanges, r);
    if !r.Wraps() || (queue != [] && Meets(queue[|queue| - 1], r)) {
      assert all == [r] && all[0] == r;
    } else {
      var left, right := LeftOf(r), RightOf(r);
      assert all == [left] + [right] && all[0] == left && all[1] == right;
      assert r.Contains(x) <==> left.Contains(x) || right.Contains(x);
    }
  }

  /** What gets in is part of the range. */
  lemma EnteredPart(queue: seq<Range>, maxRanges: nat, r: Range, x: Seq24)
    requires Covers(Entered(queue, maxRanges, r), x)
    ensures r.Contains(x)
  {
    if r.Wraps() && !(queue != [] && Meets(queue[|queue| - 1], r)) {
      var left, right := LeftOf(r), RightOf(r);
      CoversConcat(Entered(queue, maxRanges, left), Entered(Push(queue, maxRanges, left), maxRanges, right), x);
      assert r.Contains(x) <==> left.Contains(x) || right.Contains(x);
    }
  }

  /** Without room numbers are dropped: all of a range exactly when the queue is full, and with one
      slot left the part past the end of the space exactly if the range passes it and neither the
      range nor its left piece meets the last range. */
  lemma PushDrops(queue: seq<Range>, maxRanges: nat, r: Range)
    ensures |queue| >= maxRanges <==> Entered(queue, maxRanges, r) == []
    ensures |queue| >= maxRanges ==> Push(queue, maxRanges, r) == queue
    ensures |queue| + 1 == maxRanges ==>
              var alone := queue == [] || !(Meets(queue[|queue| - 1], r) || Meets(queue[|queue| - 1], LeftOf(r)));
              r.Wraps() ==> && (Entered(queue, maxRanges, r) == [LeftOf(r)] <==> alone)
                            && (alone ==> Push(queue, maxRanges, r) == queue + [LeftOf(r)])
  {
    if |queue| < maxRanges && r.Wraps() && !(queue != [] && Meets(queue[|queue| - 1], r)) {
      assert Entered(queue, maxRanges, LeftOf(r)) == [LeftOf(r)];
    }
  }

  /** A push keeps the ranges before the last one. */
  lemma PushFront(front: seq<Range>, last: Range, maxRanges: nat, r: Range)
    requires |front| + 1 < maxRanges
    ensures Push(front + [last], maxRanges, r) == front + Push([last], maxRanges - |front|, r)
  {
    var queue := front + [last];
    if !Meets(last, r) && r.Wraps() {
      PushFrontStraight(front, [last], maxRanges, LeftOf(r));
      PushFrontStraight(front, Push([last], maxRanges - |front|, LeftOf(r)), maxRanges, RightOf(r));
    } else {
      assert queue[|front|] == last && queue[|front| := Merged(last, r)] == front + [Merged(last, r)];
      assert [last][0 := Merged(last, r)] == [Merged(last, r)];
      assert queue + [r] == front + ([last] + [r]);
    }
  }

  lemma PushFrontStraight(front: seq<Range>, back: seq<Range>, maxRanges: nat, r: Range)
    requires !r.Wraps() && back != [] && |front| <= maxRanges
    ensures Push(front + back, maxRanges, r) == front + Push(back, maxRanges - |front|, r)
  {
    var queue := front + back;
    var last := back[|back| - 1];
    assert queue[|queue| - 1] == last;
    assert queue[|queue| - 1 := Merged(last, r)] == front + back[|back| - 1 := Merged(last, r)];
    assert queue + [r] == front + (back + [r]);
  }

  /** With room, and for a range of at most half a lap: numbers of the last range or the new one are
      lost if and only if the two meet and name more than a lap; the other ranges stay. */
  lemma PushIff(front: seq<Range>, last: Range, maxRanges: nat, r: Range)
    requires |front| + 1 + (if r.Wraps() then 1 else 0) < maxRanges && r.Length() <= HALF
    ensures var q := Push(front + [last], maxRanges, r);
            && front <= q
            && ((forall x: Seq24 :: Covers(q[|front|..], x) <==> last.Contains(x) || r.Contains(x)) <==> !PastLap(last, r))
  {
    var room := maxRanges - |front|;
    var back := Push([last], room, r);
    PushFront(front, last, maxRanges, r);
    assert (front + back)[|front|..] == back;
    if PastLap(last, r) {
      MergedNotFull(last, r);
      var x := Next(Merged(last, r).end);
      MeetAllRound(last, r, x);
      assert back == [Merged(last, r)];
      assert !Covers(back, x);
    } else {
      forall x: Seq24 ensures Covers(back, x) <==> last.Contains(x) || r.Contains(x) {
        PushRange([last], room, r, x);
        EnteredWhole([last], room, r, x);
        assert Covers([last], x) <==> last.Contains(x) by { assert [last][0] == last; }
      }
    }
  }

  /** A loss queue that names all numbers but one, and a range that goes on from there. */
  lemma PushForgets(maxRanges: nat)
    requires maxRanges >= 2
    ensures Covers([Range(0, MODULO - 2)], 100)
    ensures !Covers(Push([Range(0, MODULO - 2)], maxRanges, Range(MODULO - 1, 5)), 100)
  {
    assert [Range(0, MODULO - 2)][0].Contains(100);
    assert Push([Range(0, MODULO - 2)], maxRanges, Range(MODULO - 1, 5)) == [Range(0, 5)];
  }

  /** How far a push lengthens the last range and the queue. */
  lemma PushGrows(queue: seq<Range>, maxRanges: nat, r: Range)
    requires LastLength(queue) + r.Length() <= MODULO
    ensures var q := Push(queue, maxRanges, r); |q| <= |queue| + 1 && LastLength(q) <= LastLength(queue) + r.Length()
  {
    if |queue| < maxRanges {
      if queue != [] && Meets(queue[|queue| - 1], r) {
        MergeExact(queue[|queue| - 1], r, 0);
      } else if r.Wraps() {
        PiecesLength(r);
        GrowsStraight(queue, maxRanges, LeftOf(r));
        GrowsStraight(Push(queue, maxRanges, LeftOf(r)), maxRanges, RightOf(r));
      }
    }
  }

  lemma GrowsStraight(queue: seq<Range>, maxRanges: nat, r: Range)
    requires LastLength(queue) + r.Length() <= MODULO && !r.Wraps()
    ensures var q := Push(queue, maxRanges, r);
            && LastLength(q) <= LastLength(queue) + r.Length() && |q| <= |queue| + 1
            && (|q| == |queue| + 1 ==> q[|queue|] == r)
  {
    if |queue| < maxRanges && queue != [] && Meets(queue[|queue| - 1], r) { MergeExact(queue[|queue| - 1], r, 0); }
  }

  // ----- what a drained datagram holds -----

  /** The ranges taken for one datagram fill at most `mtu` bytes after `base` bytes of
      overhead, unless it is a single range, which is always taken. */
  lemma {:induction false} FittingSize(queue: seq<Range>, mtu: nat, used: nat, taken: nat, maxRanges: nat)
    ensures var k := Fitting(queue, mtu, used, taken, maxRanges);
            var total := used + RecordsSize(AllRecords(queue[..k]));
            k == 0 || total <= mtu || (taken == 0 && k == 1 && total <= used + 14)
  {
    var k := Fitting(queue, mtu, used, taken, maxRanges);
    if k > 0 {
      var size := RecordsSize(queue[0].Records());
      FittingSize(queue[1..], mtu, used + size, taken + 1, maxRanges);
      FirstRecords(queue, k);
    }
  }

  lemma FirstRecords(queue: seq<Range>, k: nat)
    requires 0 < k <= |queue|
    ensures RecordsSize(AllRecords(queue[..k])) == RecordsSize(queue[0].Records()) + RecordsSize(AllRecords(queue[1..][..k - 1]))
    ensures k == 1 ==> RecordsSize(AllRecords(queue[1..][..k - 1])) == 0
  {
    assert queue[..k][0] == queue[0] && queue[..k][1..] == queue[1..][..k - 1];
    RecordsSizeConcat(queue[0].Records(), AllRecords(queue[1..][..k - 1]));
  }

  /** A drained datagram fits the MTU unless it holds a single range, which needs at most 17
      bytes, and its records take at least four bytes each. */
  lemma DrainedFits(queue: seq<Range>, mtu: nat, maxRanges: nat)
    ensures var k := Fitting(queue, mtu, 3, 0, maxRanges);
            k > 0 ==> && 1 + PayloadSize(queue[..k]) <= Max(mtu, 17) && (k > 1 ==> 1 + PayloadSize(queue[..k]) <= mtu)
                      && 3 + 4 * |AllRecords(queue[..k])| <= Max(mtu, 17)
  {
    FittingSize(queue, mtu, 3, 0, maxRanges);
  }

  // ----- the queue object -----

  class AckQueue {
    const maxRanges: nat
    var queue: seq<Range>

    constructor (maxRanges: nat)
      ensures this.maxRanges == maxRanges && queue == []
    {
      this.maxRanges := maxRanges;
      queue := [];
    }

    method Add(r: Range)
      modifies this
      ensures queue == Push(old(queue), maxRanges, r)
      decreases if r.Wraps() then 1 else 0
    {
      if |queue| >= maxRanges { return; }
      if queue != [] {
        var back := |queue| - 1;
        var last := queue[back];
        if Next(last.end) == r.start {
          queue := queue[back := Range(last.start, r.end)];
          return;
        }
        if Ge(last.end, r.start) && Ge(r.end, last.start) {
          queue := queue[back := Range(Least(last.start, r.start), Greatest(last.end, r.end))];
          return;
        }
      }
      if r.Wraps() {
        Add(Range(r.start, MODULO - 1));
        Add(Range(0, r.end));
        return;
      }
      queue := queue + [r];
    }

    /** Takes a prefix that fits a datagram. */
    method PopForMtu(mtu: nat, baseOverhead: nat, limit: nat) returns (out: seq<Range>)
      modifies this
      ensures |out| == Fitting(old(queue), mtu, baseOverhead, 0, limit)
      ensures out + queue == old(queue)
    {
      out := [];
      if limit == 0 { return; }
      var used: nat := baseOverhead;
      ghost var all := queue;
      FitStart(all, mtu, baseOverhead, limit);
      while queue != []
        invariant FitSoFar(all, out, queue, mtu, baseOverhead, used, limit)
        decreases |queue|
      {
        FitNext(all, out, queue, mtu, baseOverhead, used, limit);
        if |out| >= limit { break; }
        var size := RecordsSize(queue[0].Records());
        if out != [] && used + size > mtu { break; }
        used := used + size;
        out := out + [queue[0]];
        queue := queue[1..];
      }
    }
  }

  /** `out` has been taken off the front; what fits besides is what fits after it. */
  ghost predicate FitSoFar(all: seq<Range>, out: seq<Range>, rest: seq<Range>, mtu: nat, base: nat, used: nat, limit: nat) {
    out + rest == all && Fitting(all, mtu, base, 0, limit) == |out| + Fitting(rest, mtu, used, |out|, limit)
  }

  lemma FitStart(all: seq<Range>, mtu: nat, base: nat, limit: nat)
    ensures FitSoFar(all, [], all, mtu, base, base, limit)
  {
    assert [] + all == all;
  }

  lemma FitNext(all: seq<Range>, out: seq<Range>, rest: seq<Range>, mtu: nat, base: nat, used: nat, limit: nat)
    requires FitSoFar(all, out, rest, mtu, base, used, limit) && rest != []
    ensures var size := RecordsSize(rest[0].Records());
            if |out| >= limit || (out != [] && used + size > mtu) then Fitting(all, mtu, base, 0, limit) == |out|
            else FitSoFar(all, out + [rest[0]], rest[1..], mtu, base, used + size, limit)
  {
    assert out + rest == out + [rest[0]] + rest[1..];
  }
}
