/** The DHCPv6 retransmission machinery, sections 7.6 and 15 of RFC 9915. */
module Backoff6 {
  import opened Clock

  /** IRT, MRT, MRC and MRD of one message exchange. */
  datatype Retransmit = Retransmit(irt: Duration, mrt: Duration, mrc: int, mrd: Duration) {
    /** The failure condition of an exchange that has transmitted count times. */
    predicate Exhausted(count: int, elapsed: Duration) {
      (mrc > 0 && count >= mrc) || (mrd > 0 && elapsed >= mrd)
    }

    function First(rnd: Entropy): Duration {
      NonNegative(Wrap64(irt + ScaleRand(irt, RandFactor(rnd))))
    }

    function Next(prev: Duration, rnd: Entropy): Duration {
      var n := RandFactor(rnd);
      var rt := Wrap64(Wrap64(2 * prev) + ScaleRand(prev, n));
      if mrt > 0 && rt > mrt then NonNegative(Wrap64(mrt + ScaleRand(mrt, n)))
      else NonNegative(rt)
    }

    /** No value on the way to a delay leaves the machine word, so that nothing wraps. */
    predicate FirstFits(rnd: Entropy) { IsInt64(irt) && IsInt64(irt + ScaleRand(irt, RandFactor(rnd))) }

    predicate NextFits(prev: Duration, rnd: Entropy) {
      var n := RandFactor(rnd);
      && IsInt64(2 * prev) && IsInt64(2 * prev + ScaleRand(prev, n))
      && (mrt > 0 && 2 * prev + ScaleRand(prev, n) > mrt ==> IsInt64(mrt + ScaleRand(mrt, n)))
    }
  }

  const RAND_SCALE := 1_000_000
  const RAND_DENOM := 10_000_000

  /** RAND as a numerator over RAND_DENOM: uniform over a tenth either side. */
  function RandFactor(rnd: Entropy): (n: int)
    ensures -RAND_SCALE <= n <= RAND_SCALE
  {
    rnd % (2 * RAND_SCALE + 1) - RAND_SCALE
  }

  function NonNegative(d: Duration): Duration { Max(d, 0) }

  /** A 128-bit product as two machine words. */
  function Mul64(a: nat, b: nat): (r: (nat, nat))
    ensures r.0 * TWO_64 + r.1 == a * b && r.1 < TWO_64
  {
    (a * b / TWO_64, a * b % TWO_64)
  }

  /** The quotient of a 128-bit value, defined where it fits one word. */
  function Div64(hi: nat, lo: nat, y: nat): (q: nat)
    requires hi < y
  {
    (hi * TWO_64 + lo) / y
  }

  /** The magnitude of a machine word, the least one included. */
  function ScaleRand(d: Duration, n: int): Duration {
    if d == 0 || n == 0 then 0
    else
      var neg := (d < 0) != (n < 0);
      var p := Mul64(Abs(d), Abs(n));
      if p.0 >= RAND_DENOM then
        var q: int := Abs(d) / 10;
        if neg then -q else q
      else
        var q: int := Div64(p.0, p.1, RAND_DENOM);
        if neg then -q else q
  }

  predicate IsInt64(d: int) { -MAX_INT64 - 1 <= d <= MAX_INT64 }

  /** For every machine word and every factor the draw can give, the wide
      product never reaches the divisor's guard and the result is the exact
      quotient truncated toward zero, at most a tenth of the input. */
  lemma ScaleRandExact(d: Duration, n: int)
    requires IsInt64(d) && -RAND_SCALE <= n <= RAND_SCALE
    ensures Mul64(Abs(d), Abs(n)).0 < RAND_DENOM
    ensures ScaleRand(d, n) == Quot(d * n, RAND_DENOM)
    ensures Abs(ScaleRand(d, n)) <= Abs(d) / 10
  {
    var ad, an := Abs(d), Abs(n);
    ProductBound(ad, an);
    assert ad * an / RAND_DENOM <= ad / 10;
    if d < 0 && n < 0 {
      assert d * n == ad * an;
    } else if d < 0 {
      assert d * n == -(ad * an);
    } else if n < 0 {
      assert d * n == -(ad * an);
    }
  }

  lemma ProductBound(a: nat, b: nat)
    requires a <= MAX_INT64 + 1 && b <= RAND_SCALE
    ensures a * b <= a * RAND_SCALE
    ensures a * b / RAND_DENOM <= a / 10
    ensures a * b / TWO_64 < RAND_DENOM
  {
    MulMonotone(b, RAND_SCALE, a);
    assert a * b <= (MAX_INT64 + 1) * RAND_SCALE;
    assert a * b / RAND_DENOM <= a * RAND_SCALE / RAND_DENOM;
    assert a * RAND_SCALE / RAND_DENOM == a / 10;
  }

  lemma MulMonotone(x: nat, y: nat, a: nat)
    requires x <= y
    ensures a * x <= a * y
  {
  }

  /** Every delay of the exchange stays between these. */
  function Low(r: Retransmit): Duration {
    var i := r.irt - r.irt / 10;
    if r.mrt > 0 then Min(i, r.mrt - r.mrt / 10) else i
  }

  function High(r: Retransmit): Duration {
    Max(r.irt + r.irt / 10, r.mrt + r.mrt / 10)
  }

  predicate Bounded(r: Retransmit) {
    0 < r.irt && 0 < r.mrt && 3 * High(r) <= MAX_INT64
  }

  /** The delays along an exchange, one entropy value a transmission. */
  function Chain(r: Retransmit, rnds: seq<Entropy>): Duration
    requires |rnds| > 0
  {
    if |rnds| == 1 then r.First(rnds[0])
    else r.Next(Chain(r, rnds[..|rnds| - 1]), rnds[|rnds| - 1])
  }

  /** No delay leaves the band, however many times the message is sent, and no
      computation on the way leaves the machine word. */
  lemma {:induction false} ChainBounded(r: Retransmit, rnds: seq<Entropy>)
    requires Bounded(r) && |rnds| > 0
    ensures 0 < Low(r) <= Chain(r, rnds) <= High(r)
    ensures
      var k := |rnds| - 1;
      if k == 0 then r.FirstFits(rnds[0]) else r.NextFits(Chain(r, rnds[..k]), rnds[k])
  {
    hide Retransmit.First, Retransmit.Next, Retransmit.FirstFits, Retransmit.NextFits, Low, High;
    var k := |rnds| - 1;
    if k == 0 {
      FirstBounded(r, rnds[0]);
    } else {
      ChainBounded(r, rnds[..k]);
      NextBounded(r, Chain(r, rnds[..k]), rnds[k]);
    }
  }

  lemma FirstBounded(r: Retransmit, rnd: Entropy)
    requires Bounded(r)
    ensures 0 < Low(r) <= r.First(rnd) <= High(r) && r.FirstFits(rnd)
  {
    ScaleRandExact(r.irt, RandFactor(rnd));
  }

  lemma NextBounded(r: Retransmit, prev: Duration, rnd: Entropy)
    requires Bounded(r) && 0 < Low(r) <= prev <= High(r)
    ensures Low(r) <= r.Next(prev, rnd) <= High(r) && r.NextFits(prev, rnd)
  {
    ScaleRandExact(prev, RandFactor(rnd));
    ScaleRandExact(r.mrt, RandFactor(rnd));
  }

  /** Below the ceiling a delay grows by at least nine tenths of itself, so an
      exchange nobody answers slows down. */
  lemma NextGrows(r: Retransmit, prev: Duration, rnd: Entropy)
    requires Bounded(r) && 0 < prev <= High(r)
    ensures
      var next := r.Next(prev, rnd);
      || 2 * prev - prev / 10 <= next <= r.mrt
      || r.mrt - r.mrt / 10 <= next <= r.mrt + r.mrt / 10
  {
    ScaleRandExact(prev, RandFactor(rnd));
    ScaleRandExact(r.mrt, RandFactor(rnd));
  }

  /** The transmission table, less the caller's own settings. */
  datatype Table = Table(
    solMaxDelay: Duration, solTimeout: Duration, solMaxRT: Duration,
    reqTimeout: Duration, reqMaxRT: Duration, reqMaxRC: int,
    cnfMaxDelay: Duration, cnfTimeout: Duration, cnfMaxRT: Duration, cnfMaxRD: Duration,
    renTimeout: Duration, renMaxRT: Duration, rebTimeout: Duration, rebMaxRT: Duration,
    infMaxDelay: Duration, infTimeout: Duration, infMaxRT: Duration,
    relTimeout: Duration, relMaxRC: int, decTimeout: Duration, decMaxRC: int,
    irtDefault: Duration, irtMinimum: Duration)
  {
    /** The parameters a client is refused without. */
    predicate Valid() {
      && solTimeout > 0 && solMaxRT > 0 && reqTimeout > 0 && reqMaxRT > 0
      && cnfTimeout > 0 && cnfMaxRT > 0 && renTimeout > 0 && renMaxRT > 0
      && rebTimeout > 0 && rebMaxRT > 0 && infTimeout > 0 && infMaxRT > 0
      && relTimeout > 0 && decTimeout > 0
    }

    function Solicit(): Retransmit { Retransmit(solTimeout, solMaxRT, 0, 0) }

    function Request(): Retransmit { Retransmit(reqTimeout, reqMaxRT, reqMaxRC, 0) }

    function Confirm(): Retransmit { Retransmit(cnfTimeout, cnfMaxRT, 0, cnfMaxRD) }

    function Renew(): Retransmit { Retransmit(renTimeout, renMaxRT, 0, 0) }

    function Rebind(): Retransmit { Retransmit(rebTimeout, rebMaxRT, 0, 0) }

    function InfoRequest(): Retransmit { Retransmit(infTimeout, infMaxRT, 0, 0) }

    function Release(): Retransmit { Retransmit(relTimeout, 0, relMaxRC, 0) }

    function Decline(): Retransmit { Retransmit(decTimeout, 0, decMaxRC, 0) }

    /** A server's SOL_MAX_RT: taken whole inside 60 to 86400 seconds, ignored outside. */
    function ApplySolMaxRT(secs: Seconds32): Table {
      if MaxRTInRange(secs) then this.(solMaxRT := secs * SECOND) else this
    }

    function ApplyInfMaxRT(secs: Seconds32): Table {
      if MaxRTInRange(secs) then this.(infMaxRT := secs * SECOND) else this
    }
  }

  predicate MaxRTInRange(secs: Seconds32) { 60 <= secs <= 86400 }

  /** A ceiling as a server sends it. */
  datatype Ceiling = SolMaxRT(secs: Seconds32) | InfMaxRT(secs: Seconds32)

  /** No sequence of server-supplied ceilings can make the table unusable:
      after any number of them it is still accepted, each ceiling is its initial
      value or one the range permits, and nothing else of the table moves. */
  lemma {:induction false} AppliedTableValid(t: Table, cs: seq<Ceiling>)
    requires t.Valid()
    ensures
      var u := ApplyAll(t, cs);
      && u.Valid()
      && (u.solMaxRT == t.solMaxRT || 60 * SECOND <= u.solMaxRT <= 86400 * SECOND)
      && (u.infMaxRT == t.infMaxRT || 60 * SECOND <= u.infMaxRT <= 86400 * SECOND)
      && u == t.(solMaxRT := u.solMaxRT, infMaxRT := u.infMaxRT)
  {
    if cs != [] {
      AppliedTableValid(t, cs[..|cs| - 1]);
    }
  }

  function ApplyAll(t: Table, cs: seq<Ceiling>): Table {
    if cs == [] then t
    else
      var u := ApplyAll(t, cs[..|cs| - 1]);
      match cs[|cs| - 1]
      case SolMaxRT(secs) => u.ApplySolMaxRT(secs)
      case InfMaxRT(secs) => u.ApplyInfMaxRT(secs)
  }
}
