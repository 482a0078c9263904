/** The token bucket of section 14.1 of RFC 9915, one per interface. */
module RateLimit {
  import opened Clock

  datatype Limit = Limit(messages: int, interval: Duration)

  /** The defaults for a zero field; a negative count switches the bucket off. */
  function Resolve(r: Limit): (Limit, bool) {
    if r.messages < 0 then (r, false)
    else
      (Limit(if r.messages == 0 then 20 else r.messages,
             if r.interval <= 0 then 20 * SECOND else r.interval), true)
  }

  datatype State = State(limit: Limit, on: bool, level: Duration, last: Instant, started: bool, refused: nat) {
    function Full(): Duration { Wrap64(limit.messages * limit.interval) }

    /** The level just before the call at now decides. */
    function Filled(now: Instant): Duration {
      if !started then Full()
      else if now - last > 0 then
        Min(Wrap64(level + Wrap64((now - last) * limit.messages)), Full())
      else level
    }

    function Allows(now: Instant): bool { !on || Filled(now) >= limit.interval }

    function Take(now: Instant): State {
      if !on then this
      else
        var filled := this.(level := Filled(now), last := now, started := true);
        if Allows(now) then filled.(level := filled.level - limit.interval)
        else filled.(refused := refused + 1)
    }
  }

  function New(r: Limit): State {
    var (limit, on) := Resolve(r);
    State(limit, on, 0, 0, false, 0)
  }

  /** The bucket as the program holds it, spending and refilling in place. */
  class Bucket {
    var limit: Limit
    var on: bool
    var level: Duration
    var last: Instant
    var started: bool
    var refused: nat

    function View(): State reads this { State(limit, on, level, last, started, refused) }

    constructor (r: Limit)
      ensures View() == New(r)
    {
      var (l, o) := Resolve(r);
      limit, on, level, last, started, refused := l, o, 0, 0, false, 0;
    }

    method Take(now: Instant) returns (ok: bool)
      modifies this
      ensures View() == old(View()).Take(now)
      ensures ok == old(View()).Allows(now)
    {
      if !on {
        return true;
      }
      var full := Wrap64(limit.messages * limit.interval);
      if !started {
        level, last, started := full, now, true;
      } else {
        var d := now - last;
        if d > 0 {
          level := Wrap64(level + Wrap64(d * limit.messages));
          if level > full {
            level := full;
          }
        }
        last := now;
      }
      if level < limit.interval {
        refused := refused + 1;
        return false;
      }
      level := level - limit.interval;
      return true;
    }
  }

  // ---------------------------------------------------------------- runs --

  function Run(b: State, times: seq<Instant>): State {
    if times == [] then b else Run(b, times[..|times| - 1]).Take(times[|times| - 1])
  }

  /** The verdict of the call at index i. */
  function Verdict(b: State, times: seq<Instant>, i: nat): bool
    requires i < |times|
  {
    Run(b, times[..i]).Allows(times[i])
  }

  function Accepted(b: State, times: seq<Instant>, from: nat, to: nat): nat
    requires from <= to <= |times|
  {
    if from == to then 0
    else Accepted(b, times, from, to - 1) + if Verdict(b, times, to - 1) then 1 else 0
  }

  predicate Nondecreasing(times: seq<Instant>) {
    forall i, j :: 0 <= i <= j < |times| ==> times[i] <= times[j]
  }

  function Capacity(b: State): Duration { b.limit.messages * b.limit.interval }

  /** A bucket that is on and has not been asked yet. */
  predicate Unused(b: State) { b.on && !b.started && 1 <= b.limit.messages && 1 <= b.limit.interval }

  /** And whose capacity a machine word holds. */
  predicate Sized(b: State) { Unused(b) && Capacity(b) <= MAX_INT64 }

  /** The most that a call leaves behind, accepted or refused. */
  function Room(b: State): Duration { Max(Capacity(b) - b.limit.interval, b.limit.interval - 1) }

  predicate Level(b: State, s: State) { s.on && s.started && s.limit == b.limit && 0 <= s.level <= Room(b) }

  lemma RunPrefix(b: State, times: seq<Instant>, i: nat)
    requires i < |times|
    ensures Run(b, times[..i + 1]) == Run(b, times[..i]).Take(times[i])
  {
    assert times[..i + 1][..i] == times[..i];
  }

  lemma MulOrder(a: int, x: int, y: int)
    requires 0 <= a && x <= y
    ensures a * x <= a * y
  {
  }

  /** What one call does, with the products named. */
  lemma TakeFresh(b: State, now: Instant)
    requires Sized(b)
    ensures
      var s := b.Take(now);
      b.Allows(now) && Level(b, s) && s.last == now && s.level == Capacity(b) - b.limit.interval
  {
    MulOrder(b.limit.interval, 1, b.limit.messages);
  }

  lemma TakeStarted(b: State, s: State, now: Instant, gain: Duration)
    requires Sized(b) && Level(b, s) && s.last <= now && gain == b.limit.messages * (now - s.last)
    requires s.level + gain <= MAX_INT64
    ensures
      var f := Min(s.level + gain, Capacity(b));
      var t := s.Take(now);
      && gain >= 0 && s.Filled(now) == f && Level(b, t) && t.last == now
      && s.Allows(now) == (f >= b.limit.interval)
      && t.level == (if s.Allows(now) then f - b.limit.interval else f)
  {
    MulOrder(b.limit.messages, 0, now - s.last);
    MulOrder(b.limit.interval, 1, b.limit.messages);
    assert (now - s.last) * s.limit.messages == gain;
    assert s.Full() == Capacity(b);
  }

  // -------------------------------------------------------------- the bound --

  /** A word that wraps comes out below what it stands for. */
  lemma WrapLowers(level: Duration, gain: Duration)
    requires -0x8000_0000_0000_0000 <= level && 0 <= gain
    ensures Wrap64(level + Wrap64(gain)) <= level + gain
  {
  }

  /** So a call never finds more than what was left and what time refilled. */
  lemma TakeAtMost(b: State, s: State, now: Instant, gain: Duration)
    requires Unused(b) && s.on && s.started && s.limit == b.limit && -0x8000_0000_0000_0000 <= s.level <= MAX_INT64
    requires s.last <= now && gain == b.limit.messages * (now - s.last)
    ensures
      var t := s.Take(now);
      && t.on && t.started && t.limit == b.limit && -0x8000_0000_0000_0000 <= t.level <= MAX_INT64 && t.last == now
      && t.level + (if s.Allows(now) then b.limit.interval else 0) <= s.level + gain
  {
    MulOrder(b.limit.messages, 0, now - s.last);
    assert (now - s.last) * s.limit.messages == gain;
    WrapLowers(s.level, gain);
  }

  predicate Ran(b: State, s: State, now: Instant) {
    s.on && s.started && s.limit == b.limit && -0x8000_0000_0000_0000 <= s.level <= MAX_INT64 && s.last == now
  }

  lemma {:induction false} Runs(b: State, times: seq<Instant>, n: nat)
    requires Unused(b) && Nondecreasing(times) && n < |times|
    ensures Ran(b, Run(b, times[..n + 1]), times[n])
  {
    RunPrefix(b, times, n);
    if n == 0 {
      FirstAtMost(b, times[0]);
    } else {
      Runs(b, times, n - 1);
      TakeAtMost(b, Run(b, times[..n]), times[n], b.limit.messages * (times[n] - times[n - 1]));
    }
  }

  lemma FirstAtMost(b: State, now: Instant)
    requires Unused(b)
    ensures Ran(b, b.Take(now), now)
    ensures b.Take(now).level + (if b.Allows(now) then b.limit.interval else 0) <= Capacity(b)
  {
    MulOrder(b.limit.interval, 1, b.limit.messages);
  }

  /** The capacity bounds every level, whatever the wrapping. */
  lemma FilledAtMost(b: State, s: State, now: Instant)
    requires Unused(b) && s.on && s.started && s.limit == b.limit && s.level <= Capacity(b)
    ensures s.Take(now).level + (if s.Allows(now) then b.limit.interval else 0) <= Capacity(b)
  {
    MulOrder(b.limit.interval, 1, b.limit.messages);
  }

  lemma {:induction false} CapBounds(b: State, times: seq<Instant>, n: nat)
    requires Unused(b) && Nondecreasing(times) && n < |times|
    ensures Run(b, times[..n + 1]).level + (if Verdict(b, times, n) then b.limit.interval else 0) <= Capacity(b)
  {
    RunPrefix(b, times, n);
    if n == 0 {
      FirstAtMost(b, times[0]);
      assert times[..0] == [];
    } else {
      CapBounds(b, times, n - 1);
      Runs(b, times, n - 1);
      FilledAtMost(b, Run(b, times[..n]), times[n]);
    }
  }

  /** An accepted call leaves what it did not spend. */
  lemma LeftOver(b: State, times: seq<Instant>, n: nat)
    requires Unused(b) && Nondecreasing(times) && n < |times| && Verdict(b, times, n)
    ensures Run(b, times[..n + 1]).level >= 0
  {
    RunPrefix(b, times, n);
    if n > 0 {
      Runs(b, times, n - 1);
    }
  }

  /** What the bucket holds and what it has spent since call i never exceed
      its capacity and the refill. */
  lemma {:induction false} WindowLevel(b: State, times: seq<Instant>, i: nat, j: nat)
    requires Unused(b) && Nondecreasing(times) && i <= j < |times|
    ensures Run(b, times[..j + 1]).level + Accepted(b, times, i, j + 1) * b.limit.interval
            <= Capacity(b) + b.limit.messages * (times[j] - times[i])
    decreases j
  {
    hide State.Take, State.Filled, State.Full, Wrap64;
    RunPrefix(b, times, j);
    var s, t := Run(b, times[..j]), Run(b, times[..j + 1]);
    CapBounds(b, times, j);
    if i == j {
      Spend(b, 0, 0, 0, Capacity(b), t.level, Verdict(b, times, j));
    } else {
      Runs(b, times, j - 1);
      TakeAtMost(b, s, times[j], b.limit.messages * (times[j] - times[j - 1]));
      WindowLevel(b, times, i, j - 1);
      Spend(b, Accepted(b, times, i, j), times[j - 1] - times[i], times[j] - times[j - 1],
            s.level, t.level, Verdict(b, times, j));
    }
  }

  /** One call's bookkeeping: elapsed time refills, an accepted message spends. */
  lemma Spend(b: State, a: nat, e: Duration, d: Duration, before: Duration, after: Duration, ok: bool)
    requires before + a * b.limit.interval <= Capacity(b) + b.limit.messages * e
    requires after <= before + b.limit.messages * d - (if ok then b.limit.interval else 0)
    ensures after + (a + (if ok then 1 else 0)) * b.limit.interval <= Capacity(b) + b.limit.messages * (e + d)
  {
    assert (a + 1) * b.limit.interval == a * b.limit.interval + b.limit.interval;
    assert b.limit.messages * (e + d) == b.limit.messages * e + b.limit.messages * d;
  }

  /** The bound: over any window of calls of any run, the messages let through
      cost no more than one full bucket and what the window refilled. */
  lemma {:induction false} WindowBound(b: State, times: seq<Instant>, i: nat, j: nat)
    requires Unused(b) && Nondecreasing(times) && i <= j < |times|
    ensures Accepted(b, times, i, j + 1) * b.limit.interval
            <= b.limit.messages * (b.limit.interval + times[j] - times[i])
    decreases j
  {
    hide Run, Verdict;
    var m, t := b.limit.messages, times[j] - times[i];
    assert m * (b.limit.interval + t) == Capacity(b) + m * t;
    if Verdict(b, times, j) {
      LeftOver(b, times, j);
      WindowLevel(b, times, i, j);
    } else if i < j {
      WindowBound(b, times, i, j - 1);
      MulOrder(m, b.limit.interval + times[j - 1] - times[i], b.limit.interval + t);
    } else {
      MulOrder(m, 0, b.limit.interval);
    }
  }

  // ------------------------------------------------------ what is let through --

  lemma WrapComposes(a: int, g: int)
    ensures Wrap64(a + Wrap64(g)) == Wrap64(a + g)
  {
    WrapResidue(g);
    WrapResidue(a + g);
    WrapResidue(a + Wrap64(g));
    SameResidue(a, Wrap64(g), g);
  }

  lemma WrapResidue(x: int)
    ensures Wrap64(x) % TWO_64 == x % TWO_64
  {
  }

  lemma SameResidue(a: int, x: int, y: int)
    requires x % TWO_64 == y % TWO_64
    ensures (a + x) % TWO_64 == (a + y) % TWO_64
  {
    var k := (x - y) / TWO_64;
    assert x == y + k * TWO_64;
    ShiftResidue(a + y, k);
  }

  lemma ShiftResidue(x: int, k: int)
    ensures (x + k * TWO_64) % TWO_64 == x % TWO_64
  {
  }

  /** The first call is let through exactly when the capacity, as a word holds
      it, is no less than an interval. */
  lemma FirstAllowedIff(b: State, now: Instant)
    requires Unused(b)
    ensures b.Allows(now) <==> b.limit.interval <= Capacity(b) % TWO_64 <= MAX_INT64
  {
    WrapReaches(Capacity(b), b.limit.interval);
  }

  /** And any later one exactly when the level with the refill, as a word holds
      them, is. */
  lemma AllowedIff(b: State, s: State, now: Instant)
    requires Sized(b) && Level(b, s) && s.last < now
    ensures s.Allows(now) <==> b.limit.interval <= (s.level + b.limit.messages * (now - s.last)) % TWO_64 <= MAX_INT64
  {
    hide Wrap64;
    var gain := b.limit.messages * (now - s.last);
    assert (now - s.last) * s.limit.messages == gain;
    WrapComposes(s.level, gain);
    MulOrder(b.limit.interval, 1, b.limit.messages);
    assert s.Full() == Capacity(b);
    WrapReaches(s.level + gain, b.limit.interval);
  }

  lemma WrapReaches(x: int, least: int)
    requires least >= 1
    ensures Wrap64(x) >= least <==> least <= x % TWO_64 <= MAX_INT64
  {
  }

  function Holding(s: State, level: Duration): State { s.(level := level) }

  /** A call spaced by its share of the interval is let through whatever earlier
      calls left exactly when the refill of the gap, as a word holds it, is an
      interval at least and has room for all that may be left. */
  lemma SpacedAllowedIff(b: State, s: State, now: Instant)
    requires Sized(b) && Level(b, s) && s.last < now
    ensures
      var r := (b.limit.messages * (now - s.last)) % TWO_64;
      (forall level :: 0 <= level <= Room(b) ==> Holding(s, level).Allows(now))
      <==> b.limit.interval <= r && r + Room(b) <= MAX_INT64
  {
    hide State.Allows, Lands;
    var gain := b.limit.messages * (now - s.last);
    var r, k := gain % TWO_64, gain / TWO_64;
    MulOrder(b.limit.interval, 1, b.limit.messages);
    forall level | 0 <= level <= Room(b)
      ensures Holding(s, level).Allows(now) <==> Lands(b.limit.interval, level, r)
    {
      AllowedIff(b, Holding(s, level), now);
      LandsAfter(b.limit.interval, level, r, k);
    }
    AllLandIff(b.limit.interval, Room(b), r);
  }

  predicate Lands(least: int, level: int, r: int) { least <= (level + r) % TWO_64 <= MAX_INT64 }

  lemma LandsAfter(least: int, level: int, r: int, k: int)
    ensures Lands(least, level, r) <==> least <= (level + (r + k * TWO_64)) % TWO_64 <= MAX_INT64
  {
    ShiftResidue(level + r, k);
  }

  lemma AllLandIff(least: int, room: int, r: int)
    requires 1 <= least <= room + 1 && room <= MAX_INT64 && 0 <= r < TWO_64
    ensures (forall level :: 0 <= level <= room ==> Lands(least, level, r)) <==> least <= r && r + room <= MAX_INT64
  {
    assert Lands(least, 0, r) <==> least <= r <= MAX_INT64;
    if least <= r && r + room > MAX_INT64 {
      assert !Lands(least, if r + room >= TWO_64 then TWO_64 - r else room, r);
    }
  }

  /** The refill of every gap, and all that may be left, fit a machine word. */
  predicate Gaps(b: State, times: seq<Instant>) {
    forall n :: 0 < n < |times| ==> b.limit.messages * (times[n] - times[n - 1]) + Room(b) <= MAX_INT64
  }

  lemma {:induction false} LevelHolds(b: State, times: seq<Instant>, n: nat)
    requires Sized(b) && Nondecreasing(times) && Gaps(b, times) && n < |times|
    ensures Level(b, Run(b, times[..n + 1])) && Run(b, times[..n + 1]).last == times[n]
  {
    RunPrefix(b, times, n);
    if n == 0 {
      TakeFresh(b, times[0]);
    } else {
      LevelHolds(b, times, n - 1);
      TakeStarted(b, Run(b, times[..n]), times[n], b.limit.messages * (times[n] - times[n - 1]));
    }
  }

  /** A client that leaves its share of the interval between messages is never
      refused, as long as no single gap is out of range. */
  lemma SpacedNeverRefused(b: State, times: seq<Instant>, n: nat)
    requires Sized(b) && Nondecreasing(times) && Gaps(b, times) && n < |times|
    requires n > 0 ==> b.limit.messages * (times[n] - times[n - 1]) >= b.limit.interval
    ensures Verdict(b, times, n)
  {
    if n == 0 {
      TakeFresh(b, times[0]);
      assert times[..0] == [];
    } else {
      LevelHolds(b, times, n - 1);
      TakeStarted(b, Run(b, times[..n]), times[n], b.limit.messages * (times[n] - times[n - 1]));
      TakeFresh(b, times[0]);
    }
  }

  // ------------------------------------------------------------- refused calls --

  /** The calls that were let through. */
  function Kept(b: State, times: seq<Instant>): (r: seq<Instant>)
    ensures |r| <= |times|
  {
    if times == [] then []
    else
      var n := |times| - 1;
      if Verdict(b, times, n) then Kept(b, times[..n]) + [times[n]] else Kept(b, times[..n])
  }

  /** Whether a gap since the last call let through is in range. */
  predicate InReach(b: State, last: Instant, now: Instant) {
    b.limit.messages * (now - last) + Capacity(b) - b.limit.interval <= MAX_INT64
  }

  /** No call comes so long after the last one let through that the refill
      since then, with what that one left, is out of range. */
  predicate Attended(b: State, times: seq<Instant>) {
    forall n :: 0 <= n < |times| ==> Follows(b, Kept(b, times[..n]), times[n])
  }

  predicate Follows(b: State, kept: seq<Instant>, now: Instant) { kept != [] ==> InReach(b, kept[|kept| - 1], now) }

  /** Two buckets no later call can tell apart: s was last asked at s.last, t
      no later, and t's refill up to then makes them equal. */
  predicate Agree(b: State, s: State, t: State) {
    && Level(b, s) && Level(b, t) && t.last <= s.last && t.level <= Capacity(b) - b.limit.interval
    && s.level == Min(t.level + b.limit.messages * (s.last - t.last), Capacity(b))
  }

  lemma AttendedPrefix(b: State, times: seq<Instant>, n: nat)
    requires Attended(b, times) && Nondecreasing(times) && n <= |times|
    ensures Attended(b, times[..n]) && Nondecreasing(times[..n])
  {
    hide Kept;
    forall i | 0 <= i < n ensures times[..n][..i] == times[..i] {
    }
  }

  lemma AttendedAt(b: State, times: seq<Instant>, n: nat)
    requires Attended(b, times) && n < |times|
    ensures Follows(b, Kept(b, times[..n]), times[n])
  {
  }

  /** Refilling twice is refilling once: the cap composes. */
  lemma AgreeDecides(b: State, s: State, t: State, now: Instant)
    requires Sized(b) && Agree(b, s, t) && s.last <= now
    requires InReach(b, t.last, now)
    ensures s.Filled(now) == t.Filled(now) && s.Allows(now) == t.Allows(now)
    ensures Agree(b, s.Take(now), if s.Allows(now) then t.Take(now) else t)
    ensures s.Take(now).last == now && (s.Allows(now) ==> t.Take(now).last == now)
  {
    var m := b.limit.messages;
    var g, h := m * (now - s.last), m * (now - t.last);
    assert h == m * (s.last - t.last) + g;
    MulOrder(m, 0, s.last - t.last);
    TakeStarted(b, s, now, g);
    TakeStarted(b, t, now, h);
    assert m * (now - now) == 0;
  }

  /** Dropping every refused call from a run leaves a bucket no later call can
      tell from the original. */
  lemma {:induction false} RefusalsLeaveNoTrace(b: State, times: seq<Instant>)
    requires Sized(b) && Nondecreasing(times) && Attended(b, times) && |times| > 0
    ensures
      var s, k := Run(b, times), Kept(b, times);
      k != [] && Agree(b, s, Run(b, k)) && s.last == times[|times| - 1] && Run(b, k).last == k[|k| - 1]
    decreases |times|
  {
    hide State.Allows, State.Take, Room, InReach, Attended;
    var n := |times| - 1;
    var rest := times[..n];
    if n == 0 {
      TakeFresh(b, times[0]);
      assert rest == [] && Verdict(b, times, 0);
      assert Kept(b, times) == times;
      assert b.limit.messages * 0 == 0;
    } else {
      AttendedPrefix(b, times, n);
      RefusalsLeaveNoTrace(b, rest);
      var k := Kept(b, rest);
      assert Follows(b, k, times[n]) by { AttendedAt(b, times, n); }
      AgreeDecides(b, Run(b, rest), Run(b, k), times[n]);
      assert (k + [times[n]])[..|k|] == k;
    }
  }

  lemma StartsEmpty(b: State)
    ensures Run(b, []) == b && Kept(b, []) == []
  {
  }

  /** So every verdict is the one the run without the refusals would give. */
  lemma NextVerdictUnchanged(b: State, times: seq<Instant>, now: Instant)
    requires Sized(b) && Nondecreasing(times + [now]) && Attended(b, times + [now])
    ensures Run(b, times).Allows(now) == Run(b, Kept(b, times)).Allows(now)
  {
    hide State.Allows, State.Take, Room, Run, Kept, InReach, Attended;
    assert Run(b, []) == b && Kept(b, []) == [] by { StartsEmpty(b); }
    if times != [] {
      var all, n := times + [now], |times|;
      AttendedPrefix(b, all, n);
      assert all[..n] == times;
      assert all[n - 1] <= all[n];
      RefusalsLeaveNoTrace(b, times);
      var k := Kept(b, times);
      assert Follows(b, k, all[n]) by { AttendedAt(b, all, n); }
      AgreeDecides(b, Run(b, times), Run(b, k), now);
    }
  }

  /** A gap out of range: after some eighteen idle years the default bucket
      goes negative and refuses a message the limit allows. */
  lemma LongIdleRefused()
    ensures
      var b := New(Limit(0, 0));
      var idle := 0x0800_0000_0000_0000;
      b.Take(0).Filled(idle) < 0 && !b.Take(0).Allows(idle)
  {
  }
}
