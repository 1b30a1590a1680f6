/** 24-bit circular sequence numbers (src/protocol/sequence24.rs).

    A session numbers things with an unbounded counter and keeps only the low
    24 bits. `Of` is that projection; the lemmas relate the circular operations
    to the unbounded counters, which is how later modules reason about them. */
module Sequence24 {
  const MODULO: int := 0x100_0000
  const HALF: int := 0x80_0000

  type Seq24 = n: int | 0 <= n < 0x100_0000

  datatype Ordering = Less | Equal | Greater

  /** The 24-bit number of an unbounded counter value. */
  function Of(n: nat): Seq24 { n % 0x100_0000 }

  function Next(s: Seq24): Seq24 {
    if s == 0xFF_FFFF then 0 else s + 1
  }

  function Prev(s: Seq24): Seq24 {
    if s == 0 then 0xFF_FFFF else s - 1
  }

  /** Forward circular distance from `from` to `newer`. */
  function DistanceTo(from: Seq24, newer: Seq24): (d: nat)
    ensures d < MODULO
    ensures d == 0 <==> from == newer
  {
    if newer >= from then newer - from else 0x100_0000 - from + newer
  }

  /** The number `d` places after `s`. */
  function Plus(s: Seq24, d: nat): (r: Seq24)
    requires d < MODULO
    ensures DistanceTo(s, r) == d
  {
    if s + d < 0x100_0000 then s + d else s + d - 0x100_0000
  }

  /** The circular comparison, branch for branch. */
  function Cmp(a: Seq24, b: Seq24): Ordering {
    var delta: int := a - b;
    if delta == 0 then Equal
    else if (delta > 0 && delta < 0x80_0000) || (delta < 0 && delta < -0x80_0000) then Greater
    else Less
  }

  predicate Lt(a: Seq24, b: Seq24) { Cmp(a, b).Less? }

  predicate Gt(a: Seq24, b: Seq24) { Cmp(a, b).Greater? }

  predicate Ge(a: Seq24, b: Seq24) { !Cmp(a, b).Less? }

  /** `std::cmp::min` and `max`. */
  function Least(a: Seq24, b: Seq24): Seq24 { if Lt(b, a) then b else a }

  function Greatest(a: Seq24, b: Seq24): Seq24 { if Lt(b, a) then a else b }

  // ----- relation to unbounded counters -----

  lemma NextOf(n: nat)
    ensures Next(Of(n)) == Of(n + 1)
    ensures n > 0 ==> Prev(Of(n)) == Of(n - 1)
    ensures Prev(Next(Of(n))) == Of(n)
  {
  }

  lemma PlusOf(n: nat, d: nat)
    requires d < MODULO
    ensures Plus(Of(n), d) == Of(n + d)
  {
  }

  /** Distance recovers the true difference of two counters less than one lap apart. */
  lemma DistanceOf(n: nat, d: nat)
    requires d < MODULO
    ensures DistanceTo(Of(n), Of(n + d)) == d
    ensures d > 0 ==> DistanceTo(Of(n + d), Of(n)) == MODULO - d
  {
  }

  /** Stepping forward by the distance to `b` arrives at `b`. */
  lemma StepByDistance(a: Seq24, b: Seq24)
    ensures Plus(a, DistanceTo(a, b)) == b
  {
  }

  /** Distances add up as long as they do not pass the end again. */
  lemma DistanceSplit(a: Seq24, b: Seq24, c: Seq24)
    requires DistanceTo(a, b) <= DistanceTo(a, c)
    ensures DistanceTo(b, c) == DistanceTo(a, c) - DistanceTo(a, b)
  {
  }

  /** What the comparison decides: less than half a lap ahead is `Greater`,
      everything else that differs, half a lap included, is `Less`. */
  lemma CmpByDistance(a: Seq24, b: Seq24)
    ensures Gt(a, b) <==> 0 < DistanceTo(b, a) < HALF
    ensures Lt(a, b) <==> a != b && DistanceTo(b, a) >= HALF
    ensures Ge(a, b) <==> DistanceTo(b, a) < HALF
  {
  }

  /** Serial-number comparison agrees with the counters less than half a lap apart. */
  lemma CmpOf(n: nat, m: nat)
    requires n <= m < n + HALF
    ensures Cmp(Of(n), Of(m)) == if n == m then Equal else Less
    ensures Cmp(Of(m), Of(n)) == if n == m then Equal else Greater
  {
  }

  /** The comparison is antisymmetric exactly off the half-lap pairs; on those it answers
      `Less` both ways. */
  lemma AntisymmetricIff(a: Seq24, b: Seq24)
    ensures (Lt(a, b) <==> Gt(b, a)) <==> DistanceTo(a, b) != HALF
    ensures DistanceTo(a, b) == HALF ==> Lt(a, b) && Lt(b, a)
  {
  }

  /** Keys are inside a window that starts at `base` and is shorter than half a lap. */
  ghost predicate InWindow(base: Seq24, keys: set<Seq24>) {
    forall k <- keys :: DistanceTo(base, k) < HALF
  }

  /** Inside such a window the comparison is the order of the offsets from the base, hence
      a strict total order: what an ordered map needs of its key comparison. */
  lemma WindowOrder(base: Seq24, keys: set<Seq24>, a: Seq24, b: Seq24)
    requires InWindow(base, keys) && a in keys && b in keys
    ensures Lt(a, b) <==> DistanceTo(base, a) < DistanceTo(base, b)
    ensures Gt(a, b) <==> DistanceTo(base, a) > DistanceTo(base, b)
  {
  }

  /** Without the window bound the comparison is not even transitive. */
  lemma NotTransitive()
    ensures exists a: Seq24, b: Seq24, c: Seq24 :: Lt(a, b) && Lt(b, c) && Lt(c, a)
  {
    var a: Seq24, b: Seq24, c: Seq24 := 0, 0x55_5555, 0xAA_AAAA;
    assert Lt(a, b) && Lt(b, c) && Lt(c, a);
  }

  /** The comparison never answers `Less` both ways. */
  ghost predicate Asymmetric(keys: set<Seq24>) { forall a <- keys, b <- keys :: !(Lt(a, b) && Lt(b, a)) }

  ghost predicate Transitive(keys: set<Seq24>) { forall a <- keys, b <- keys, c <- keys :: Lt(a, b) && Lt(b, c) ==> Lt(a, c) }

  /** Consistently ordered keys have a first one, and all lie less than half a lap ahead of it. */
  lemma {:induction false} FirstKey(keys: set<Seq24>) returns (k: Seq24)
    requires keys != {} && Asymmetric(keys) && Transitive(keys)
    ensures k in keys && (forall j <- keys :: j == k || Lt(k, j)) && InWindow(k, keys)
    decreases |keys|
  {
    k :| k in keys;
    var one, rest := k, keys - {k};
    if rest != {} {
      var m := FirstKey(rest);
      if Lt(m, one) { k := m; }
      CmpByDistance(m, one);
      CmpByDistance(one, m);
      forall j <- keys ensures j == k || Lt(k, j) { assert j == one || j in rest; }
    }
    forall j <- keys ensures DistanceTo(k, j) < HALF {
      CmpByDistance(k, j);
      CmpByDistance(j, k);
    }
  }

  /** The comparison is a strict order on a set of keys, as an ordered map needs, if and only if
      they all lie in some window shorter than half a lap. */
  lemma OrderedIff(keys: set<Seq24>)
    ensures Asymmetric(keys) && Transitive(keys) <==> exists base: Seq24 :: InWindow(base, keys)
  {
    if base: Seq24 :| InWindow(base, keys) {
      forall a <- keys, b <- keys ensures !(Lt(a, b) && Lt(b, a)) { WindowOrder(base, keys, a, b); WindowOrder(base, keys, b, a); }
      forall a <- keys, b <- keys, c <- keys ensures Lt(a, b) && Lt(b, c) ==> Lt(a, c) {
        WindowOrder(base, keys, a, b);
        WindowOrder(base, keys, b, c);
        WindowOrder(base, keys, a, c);
      }
    } else if Asymmetric(keys) && Transitive(keys) && keys != {} {
      var k := FirstKey(keys);
    } else if keys == {} {
      assert InWindow(0, keys);
    }
  }

  /** A nonempty window has a least key. */
  lemma LeastKey(base: Seq24, keys: set<Seq24>) returns (k: Seq24)
    requires keys != {} && InWindow(base, keys)
    ensures k in keys
    ensures forall j <- keys :: DistanceTo(base, k) <= DistanceTo(base, j)
    ensures forall j <- keys :: !Gt(k, j)
    decreases |keys|
  {
    k :| k in keys;
    var rest := keys - {k};
    if rest != {} {
      var m := LeastKey(base, rest);
      if DistanceTo(base, m) < DistanceTo(base, k) { k := m; }
    }
    forall j <- keys ensures !Gt(k, j) { WindowOrder(base, keys, k, j); }
  }
}
