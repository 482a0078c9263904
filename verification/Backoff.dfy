/** The DHCPv4 retransmission schedule, section 4.1 of RFC 2131. */
module Backoff {
  import opened Clock

  datatype Schedule = Schedule(initial: Duration, max: Duration, jitter: Duration, maxRetransmissions: int) {
    /** The schedules the client accepts. */
    predicate Valid() {
      0 <= jitter < initial <= max
    }

    predicate Exhausted(n: int) {
      maxRetransmissions > 0 && n >= maxRetransmissions
    }
  }

  predicate FitsInt64(s: Schedule) {
    && -MAX_INT64 <= s.initial <= MAX_INT64
    && -MAX_INT64 <= s.max <= MAX_INT64
    && -MAX_INT64 <= s.jitter <= MAX_INT64
  }

  /** The doubling stops at the ceiling, or where one more doubling would not fit. */
  predicate Stops(s: Schedule, d: Duration) {
    (s.max > 0 && d >= s.max) || d > MAX_INT64 / 2
  }

  /** The delay after n doublings, before clamping and jitter. */
  function Doubled(s: Schedule, n: nat): (d: Duration)
    ensures 0 <= d
    ensures s.initial <= MAX_INT64 ==> d <= MAX_INT64
  {
    if n == 0 then Max(s.initial, 0)
    else
      var p := Doubled(s, n - 1);
      if Stops(s, p) then p else 2 * p
  }

  function Clamped(s: Schedule, n: nat): Duration {
    var d := Doubled(s, n);
    if s.max > 0 && d > s.max then s.max else d
  }

  /** A uniform spread of half the width on either side, never negative and
      saturating at the largest representable delay. */
  function Jittered(d: Duration, half: Duration, rnd: Entropy): (r: Duration)
    ensures half <= 0 ==> r == Max(d, 0)
    ensures 0 < half <= d && d + half <= MAX_INT64 ==> d - half <= r <= d + half
    ensures r >= 0
    ensures d <= MAX_INT64 ==> r <= MAX_INT64
  {
    if half <= 0 then Max(d, 0)
    else
      var off := rnd % (2 * half + 1) - half;
      if off > 0 && d > MAX_INT64 - off then MAX_INT64
      else Max(d + off, 0)
  }

  /** The delay before retransmission n, counted from 0; a negative count is 0. */
  function Delay(s: Schedule, n: int, rnd: Entropy): Duration {
    Jittered(Clamped(s, Max(n, 0)), s.jitter, rnd)
  }

  /** The loop the program runs, on machine words: every operation stays in range. */
  method ComputeDelay(s: Schedule, count: int64, rnd: uint64) returns (r: int64)
    requires FitsInt64(s)
    ensures r as int == Delay(s, count as int, rnd as int)
  {
    var n := if count < 0 then 0 else count;
    var max := s.max as int64;
    var d: int64 := s.initial as int64;
    if d <= 0 {
      d := 0;
    }
    var i: int64 := 0;
    while i < n
      invariant 0 <= i <= n
      invariant d as int == Doubled(s, i as int)
    {
      if (max > 0 && d >= max) || d > 0x7FFF_FFFF_FFFF_FFFF / 2 {
        DoubledStopped(s, i as int, n as int);
        break;
      }
      d := d * 2;
      i := i + 1;
    }
    if max > 0 && d > max {
      d := max;
    }
    r := ComputeJitter(d, s.jitter as int64, rnd);
  }

  /** The unsigned span of the draw may exceed the signed range, as it may in
      the program, so it is taken in the unsigned word. */
  method ComputeJitter(d: int64, half: int64, rnd: uint64) returns (r: int64)
    requires d >= 0
    ensures r as int == Jittered(d as int, half as int, rnd as int)
  {
    if half <= 0 {
      return d;
    }
    var span := half as uint64 * 2 + 1;
    var draw := rnd % span;
    var off := (draw as int - half as int) as int64;
    if off > 0 && d > 0x7FFF_FFFF_FFFF_FFFF - off {
      return 0x7FFF_FFFF_FFFF_FFFF;
    }
    r := d + off;
    if r < 0 {
      r := 0;
    }
  }

  lemma {:induction false} DoubledStopped(s: Schedule, i: nat, n: nat)
    requires i <= n && Stops(s, Doubled(s, i))
    ensures Doubled(s, n) == Doubled(s, i)
    decreases n
  {
    if i < n {
      DoubledStopped(s, i, n - 1);
    }
  }

  /** The RFC's delay: doubled n times up to the ceiling. */
  function Ideal(s: Schedule, n: nat): Duration {
    Min(s.initial * Pow2(n), s.max)
  }

  /** The ceiling is reached by some doubling that still fits a machine word. */
  ghost predicate ReachesMax(s: Schedule) {
    exists k: nat :: s.max <= s.initial * Pow2(k) <= MAX_INT64
  }

  lemma {:induction false} DoubledBelow(s: Schedule, n: nat)
    requires s.Valid() && s.max <= MAX_INT64
    requires forall k: nat :: k < n ==> !Stops(s, s.initial * Pow2(k))
    ensures Doubled(s, n) == s.initial * Pow2(n)
  {
    if n > 0 {
      DoubledBelow(s, n - 1);
      assert !Stops(s, s.initial * Pow2(n - 1));
    }
  }

  /** Up to the doubling that reaches the ceiling, no word overflows and the
      loop computes the RFC's delay. */
  lemma {:induction false} ClampedIsIdeal(s: Schedule, n: nat, k: nat)
    requires s.Valid() && s.max <= MAX_INT64
    requires s.max <= s.initial * Pow2(k) <= MAX_INT64
    ensures Clamped(s, n) == Ideal(s, n)
    decreases k
  {
    hide Doubled;
    if k > 0 && s.max <= s.initial * Pow2(k - 1) {
      assert s.initial * Pow2(k - 1) <= s.initial * Pow2(k) by { ScaleMonotone(s.initial, k - 1, k); }
      ClampedIsIdeal(s, n, k - 1);
    } else {
      FirstReach(s, n, k);
    }
  }

  /** The same at the first doubling that reaches the ceiling. */
  lemma FirstReach(s: Schedule, n: nat, k: nat)
    requires s.Valid() && s.max <= s.initial * Pow2(k) <= MAX_INT64
    requires k == 0 || s.initial * Pow2(k - 1) < s.max
    ensures Clamped(s, n) == Ideal(s, n)
  {
    hide Doubled;
    forall j: nat | j < k ensures !Stops(s, s.initial * Pow2(j)) {
      ScaleMonotone(s.initial, j, k - 1);
      DoublingStep(s.initial, k - 1);
    }
    DoubledBelow(s, Min(n, k));
    if n > k {
      DoubledStopped(s, k, n);
      ScaleMonotone(s.initial, k, n);
    }
  }

  lemma ScaleMonotone(a: nat, i: nat, j: nat)
    requires i <= j
    ensures a * Pow2(i) <= a * Pow2(j)
  {
    Pow2Monotone(i, j);
  }

  /** The first doubling that stops the loop. */
  lemma FirstStop(s: Schedule) returns (k: nat)
    requires s.Valid() && s.max <= MAX_INT64
    ensures Stops(s, s.initial * Pow2(k))
    ensures forall j: nat :: j < k ==> !Stops(s, s.initial * Pow2(j))
    ensures s.initial * Pow2(k) <= MAX_INT64
  {
    k := 0;
    var d := s.initial;
    while !Stops(s, d)
      invariant 0 < d <= MAX_INT64 && d == s.initial * Pow2(k)
      invariant forall j: nat :: j < k ==> !Stops(s, s.initial * Pow2(j))
      decreases MAX_INT64 - d
    {
      DoublingStep(s.initial, k);
      k, d := k + 1, 2 * d;
    }
  }

  lemma DoublingStep(a: int, k: nat)
    ensures a * Pow2(k + 1) == 2 * (a * Pow2(k))
  {
  }

  /** Stopped by the width of the word, the loop never makes the next doubling. */
  lemma FallsShort(s: Schedule, k: nat)
    requires s.Valid() && s.initial * Pow2(k) < s.max <= MAX_INT64
    requires Stops(s, s.initial * Pow2(k)) && forall j: nat :: j < k ==> !Stops(s, s.initial * Pow2(j))
    ensures Clamped(s, k + 1) < Ideal(s, k + 1)
  {
    hide Doubled;
    DoubledBelow(s, k);
    DoubledStopped(s, k, k + 1);
    DoublingStep(s.initial, k);
  }

  /** The schedule gives the RFC's delay at every attempt exactly when its
      ceiling is one of the doublings' reach inside 64 bits. */
  lemma DelayIsIdealIff(s: Schedule)
    requires s.Valid() && s.max <= MAX_INT64
    ensures (forall n: nat :: Clamped(s, n) == Ideal(s, n)) <==> ReachesMax(s)
  {
    hide Clamped, Ideal;
    if ReachesMax(s) {
      var k: nat :| s.max <= s.initial * Pow2(k) <= MAX_INT64;
      forall n: nat ensures Clamped(s, n) == Ideal(s, n) {
        ClampedIsIdeal(s, n, k);
      }
    } else {
      var k := FirstStop(s);
      FallsShort(s, k);
    }
  }

  /** A ceiling of at most half the range is always in reach. */
  lemma HalfRangeReaches(s: Schedule)
    requires s.Valid() && s.max <= MAX_INT64 / 2
    ensures ReachesMax(s)
  {
    var k := FirstStop(s);
    assert s.max <= s.initial * Pow2(k) <= MAX_INT64;
  }

  /** An accepted schedule never gives a zero delay, and keeps every delay
      within its jitter of the RFC's. */
  lemma DelayBounds(s: Schedule, n: nat, rnd: Entropy)
    requires s.Valid() && s.max <= MAX_INT64 / 2
    ensures 0 < Delay(s, n, rnd)
    ensures Ideal(s, n) - s.jitter <= Delay(s, n, rnd) <= Ideal(s, n) + s.jitter
  {
    HalfRangeReaches(s);
    DelayIsIdealIff(s);
    assert Clamped(s, n) == Ideal(s, n);
    assert s.initial <= s.initial * Pow2(n) by { ScaleMonotone(s.initial, 0, n); }
  }

  /** Where the ceiling is out of reach the delays stop short of it: a factor
      of almost two under the RFC's. */
  lemma UnreachableCeilingFallsShort()
    ensures
      var s := Schedule(3 * Pow2(61), MAX_INT64, 0, 0);
      s.Valid() && FitsInt64(s) && Delay(s, 1, 0) < Ideal(s, 1)
  {
    Pow2Value61();
    var s := Schedule(3 * Pow2(61), MAX_INT64, 0, 0);
    assert Stops(s, Doubled(s, 0));
    assert Doubled(s, 1) == Doubled(s, 0);
    assert Pow2(1) == 2;
  }

  lemma Pow2Value61()
    ensures Pow2(61) == 0x2000_0000_0000_0000
  {
    Pow2Sum(30, 31);
    Pow2Sum(15, 15);
    Pow2Sum(15, 16);
    assert Pow2(5) == 32;
    assert Pow2(10) == 32 * 32 by { Pow2Sum(5, 5); }
    assert Pow2(15) == 32768 by { Pow2Sum(10, 5); }
  }

  lemma {:induction false} Pow2Sum(a: nat, b: nat)
    ensures Pow2(a + b) == Pow2(a) * Pow2(b)
  {
    if a > 0 {
      Pow2Sum(a - 1, b);
    }
  }
}
