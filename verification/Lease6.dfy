/** The DHCPv6 lease: the addresses of one IA_NA and one IA_TA, their lifetimes
    and the deadlines they set, sections 18.2 and 21.4 of RFC 9915. */
module Lease6 {
  import opened Clock
  import opened Lease

  type Duid = seq<nat>

  /** A non-temporary or temporary address; lifetimes count from the lease's start. */
  datatype Addr6 = Addr6(addr: Addr, preferred: Duration, valid: Duration)

  /** What one server has authenticated with: its key, and the replay value it
      used last, if any. */
  datatype Authority = Authority(key: Option<int>, replay: nat, seen: bool)

  datatype Lease6 = Lease6(iaid: nat, addrs: seq<Addr6>, temps: seq<Addr6>, server: Duid, t1: Duration, t2: Duration,
                           start: Instant, config: int, authority: Option<Authority>)
  {
    function Bindings(): seq<Addr6> { addrs + temps }

    /** One of its addresses, stable or temporary. */
    predicate Lists(a: Addr) { Has(addrs, a) || Has(temps, a) }

    function NextEnd(): Option<Instant> { EarliestEnd(start, Bindings()) }

    function WithoutEnded(now: Instant): Lease6 {
      this.(addrs := Unended(start, addrs, now), temps := Unended(start, temps, now))
    }

    function Deadlines(): Timing {
      var valid := LongestValid(addrs);
      var expire := if valid == INFINITE then None else Some(start + valid);
      if addrs == [] || (valid != INFINITE && valid <= 0) then Timing(None, None, expire)
      else
        var (renew, rebind) := RenewTimes(t1, t2, RenewPreferred(addrs), valid);
        Timing(if renew > 0 then Some(start + renew) else None,
               if rebind > 0 then Some(start + rebind) else None,
               expire)
    }

    /** The same bindings ending at the same moments, from the same server. */
    predicate Equal(o: Lease6) {
      && iaid == o.iaid
      && SameBindings(start, addrs, o.start, o.addrs, true) && SameBindings(start, temps, o.start, o.temps, false)
      && server == o.server && t1 == o.t1 && t2 == o.t2 && config == o.config
    }
  }

  const NO_LEASE := Lease6(0, [], [], [], 0, 0, 0, 0, None)

  function Expiry(start: Instant, d: Duration): Option<Instant> {
    if d == INFINITE then None else Some(start + d)
  }

  function Addrs(bs: seq<Addr6>): (s: seq<Addr>)
    ensures |s| == |bs| && forall i :: 0 <= i < |bs| ==> s[i] == bs[i].addr
  {
    if bs == [] then [] else Addrs(bs[..|bs| - 1]) + [bs[|bs| - 1].addr]
  }

  predicate Has(bs: seq<Addr6>, a: Addr) { exists i :: 0 <= i < |bs| && bs[i].addr == a }

  // ------------------------------------------------------------ lifetimes --

  function Earlier(a: Option<Instant>, b: Option<Instant>): Option<Instant> {
    if a.None? then b else if b.Some? && b.value < a.value then b else a
  }

  function EarliestEnd(start: Instant, bs: seq<Addr6>): Option<Instant> {
    if bs == [] then None else Earlier(EarliestEnd(start, bs[..|bs| - 1]), Expiry(start, bs[|bs| - 1].valid))
  }

  function LongestValid(bs: seq<Addr6>): Duration {
    if bs == [] then 0
    else
      var n := |bs| - 1;
      var d := LongestValid(bs[..n]);
      if d == INFINITE || bs[n].valid == INFINITE then INFINITE else Max(d, bs[n].valid)
  }

  /** The shortest preferred lifetime that is finite and positive, if any. */
  function ShortestLive(bs: seq<Addr6>): Option<Duration> {
    if bs == [] then None
    else
      var n := |bs| - 1;
      var d := ShortestLive(bs[..n]);
      var p := bs[n].preferred;
      if p != INFINITE && p > 0 && (d.None? || p < d.value) then Some(p) else d
  }

  predicate PrefersForever(bs: seq<Addr6>) { exists i :: 0 <= i < |bs| && bs[i].preferred == INFINITE }

  function RenewPreferred(bs: seq<Addr6>): Duration {
    var d := ShortestLive(bs);
    if d.Some? then d.value else if PrefersForever(bs) then INFINITE else 0
  }

  predicate Ended(start: Instant, b: Addr6, now: Instant) {
    Expiry(start, b.valid).Some? && Expiry(start, b.valid).value <= now
  }

  function Unended(start: Instant, bs: seq<Addr6>, now: Instant): (r: seq<Addr6>)
    ensures |r| <= |bs|
  {
    if bs == [] then []
    else
      var n := |bs| - 1;
      Unended(start, bs[..n], now) + if Ended(start, bs[n], now) then [] else [bs[n]]
  }

  function ChosenTime(base: Duration, den: int, num: int): Duration
    requires den > 0
  {
    if base == INFINITE then INFINITE else Quot(base, den) * num
  }

  predicate Unusable(t: Duration) { t == 0 || (t < 0 && t != INFINITE) }

  function RenewTimes(t1: Duration, t2: Duration, preferred: Duration, valid: Duration): (Duration, Duration) {
    var base := if preferred != INFINITE && preferred <= 0 then valid else preferred;
    var renew := if Unusable(t1) then ChosenTime(base, 2, 1) else t1;
    var rebind := if Unusable(t2) then ChosenTime(base, 5, 4) else t2;
    var rebind := if rebind != INFINITE && valid != INFINITE && rebind >= valid then
                    (if base == INFINITE then valid else Quot(base, 5) * 4)
                  else rebind;
    var renew := if renew != INFINITE && rebind != INFINITE && renew >= rebind then Quot(rebind, 2) else renew;
    (renew, rebind)
  }

  /** The loops over the addresses, one pass each. */
  method ComputeNextEnd(l: Lease6) returns (at: Option<Instant>)
    ensures at == l.NextEnd()
  {
    at := None;
    var bs := l.Bindings();
    var i := 0;
    while i < |bs|
      invariant 0 <= i <= |bs|
      invariant at == EarliestEnd(l.start, bs[..i])
    {
      var e := Expiry(l.start, bs[i].valid);
      if e.Some? && (at.None? || e.value < at.value) {
        at := e;
      }
      assert bs[..i + 1][..i] == bs[..i];
      i := i + 1;
    }
    assert bs[..i] == bs;
  }

  method ComputeWithoutEnded(l: Lease6, now: Instant) returns (r: Lease6, n: nat)
    ensures r == l.WithoutEnded(now)
    ensures n == |l.Bindings()| - |r.Bindings()|
  {
    var addrs := Keep(l.start, l.addrs, now);
    var temps := Keep(l.start, l.temps, now);
    r := l.(addrs := addrs, temps := temps);
    n := |l.addrs| - |addrs| + (|l.temps| - |temps|);
  }

  method Keep(start: Instant, bs: seq<Addr6>, now: Instant) returns (r: seq<Addr6>)
    ensures r == Unended(start, bs, now)
  {
    r := [];
    var i := 0;
    while i < |bs|
      invariant 0 <= i <= |bs|
      invariant r == Unended(start, bs[..i], now)
    {
      assert bs[..i + 1][..i] == bs[..i];
      if !Ended(start, bs[i], now) {
        r := r + [bs[i]];
      }
      i := i + 1;
    }
    assert bs[..i] == bs;
  }

  method ComputeLongestValid(bs: seq<Addr6>) returns (d: Duration)
    ensures d == LongestValid(bs)
  {
    d := 0;
    var i := 0;
    while i < |bs|
      invariant 0 <= i <= |bs|
      invariant d == LongestValid(bs[..i]) && d != INFINITE
    {
      assert bs[..i + 1][..i] == bs[..i];
      if bs[i].valid == INFINITE {
        ForeverStays(bs, i + 1);
        return INFINITE;
      }
      if bs[i].valid > d {
        d := bs[i].valid;
      }
      LongestNonNegative(bs[..i]);
      i := i + 1;
    }
    assert bs[..i] == bs;
  }

  lemma {:induction false} LongestNonNegative(bs: seq<Addr6>)
    ensures LongestValid(bs) == INFINITE || LongestValid(bs) >= 0
  {
    if bs != [] {
      LongestNonNegative(bs[..|bs| - 1]);
    }
  }

  lemma {:induction false} ForeverStays(bs: seq<Addr6>, k: nat)
    requires k <= |bs| && LongestValid(bs[..k]) == INFINITE
    ensures LongestValid(bs) == INFINITE
  {
    if k == |bs| {
      assert bs[..k] == bs;
    } else {
      assert bs[..|bs| - 1][..k] == bs[..k];
      ForeverStays(bs[..|bs| - 1], k);
    }
  }

  method ComputeRenewPreferred(bs: seq<Addr6>) returns (d: Duration)
    ensures d == RenewPreferred(bs)
  {
    d := 0;
    var live, forever := false, false;
    var i := 0;
    while i < |bs|
      invariant 0 <= i <= |bs|
      invariant ShortestLive(bs[..i]) == if live then Some(d) else None
      invariant forever == PrefersForever(bs[..i])
    {
      assert bs[..i + 1][..i] == bs[..i];
      var p := bs[i].preferred;
      PrefersOneMore(bs, i);
      if p == INFINITE {
        forever := true;
      } else if p > 0 && (!live || p < d) {
        d, live := p, true;
      }
      i := i + 1;
    }
    assert bs[..i] == bs;
    if !live {
      d := if forever then INFINITE else 0;
    }
  }

  lemma PrefersOneMore(bs: seq<Addr6>, i: nat)
    requires i < |bs|
    ensures PrefersForever(bs[..i + 1]) <==> PrefersForever(bs[..i]) || bs[i].preferred == INFINITE
  {
    if PrefersForever(bs[..i]) {
      var k :| 0 <= k < i && bs[..i][k].preferred == INFINITE;
      assert bs[..i + 1][k].preferred == INFINITE;
    }
    if bs[i].preferred == INFINITE {
      assert bs[..i + 1][i].preferred == INFINITE;
    }
    if PrefersForever(bs[..i + 1]) && bs[i].preferred != INFINITE {
      var k :| 0 <= k < i + 1 && bs[..i + 1][k].preferred == INFINITE;
      assert bs[..i][k].preferred == INFINITE;
    }
  }

  /** The next end is the end of some binding, and no binding ends before it;
      there is none exactly when no binding ends. */
  lemma {:induction false} NextEndIsEarliest(start: Instant, bs: seq<Addr6>)
    ensures forall i :: 0 <= i < |bs| && bs[i].valid != INFINITE ==>
              EarliestEnd(start, bs).Some? && EarliestEnd(start, bs).value <= start + bs[i].valid
    ensures EarliestEnd(start, bs).Some? ==>
              exists i :: 0 <= i < |bs| && Expiry(start, bs[i].valid) == EarliestEnd(start, bs)
  {
    if bs != [] {
      var n := |bs| - 1;
      NextEndIsEarliest(start, bs[..n]);
      forall i | 0 <= i < |bs| && bs[i].valid != INFINITE
        ensures EarliestEnd(start, bs).Some? && EarliestEnd(start, bs).value <= start + bs[i].valid
      {
        assert i < n ==> bs[..n][i] == bs[i];
      }
      if EarliestEnd(start, bs).Some? {
        if EarliestEnd(start, bs) == Expiry(start, bs[n].valid) {
          assert Expiry(start, bs[n].valid) == EarliestEnd(start, bs);
        } else {
          var i :| 0 <= i < n && Expiry(start, bs[..n][i].valid) == EarliestEnd(start, bs[..n]);
          assert Expiry(start, bs[i].valid) == EarliestEnd(start, bs);
        }
      }
    }
  }

  /** Exactly the bindings that have not ended are kept, in their order. */
  lemma {:induction false} UnendedKeeps(start: Instant, bs: seq<Addr6>, now: Instant)
    ensures forall b :: b in Unended(start, bs, now) <==> b in bs && !Ended(start, b, now)
    ensures Unended(start, bs, now) == bs <==> forall b :: b in bs ==> !Ended(start, b, now)
  {
    if bs != [] {
      var n := |bs| - 1;
      UnendedKeeps(start, bs[..n], now);
      assert bs == bs[..n] + [bs[n]];
      assert |Unended(start, bs[..n], now)| <= n;
    }
  }

  /** The longest lifetime is some address's, and no address outlasts it. */
  lemma {:induction false} LongestIsMaximum(bs: seq<Addr6>)
    requires bs != [] && forall b :: b in bs ==> b.valid == INFINITE || b.valid > 0
    ensures exists b :: b in bs && b.valid == LongestValid(bs)
    ensures LongestValid(bs) != INFINITE ==> forall b :: b in bs ==> b.valid != INFINITE && b.valid <= LongestValid(bs)
  {
    var n := |bs| - 1;
    assert bs == bs[..n] + [bs[n]];
    if n > 0 {
      LongestIsMaximum(bs[..n]);
    }
    assert bs[n] in bs;
  }

  // ------------------------------------------------------------- ordering --

  /** No address is preferred after it stops being valid: what the decoder lets through. */
  predicate Coherent(bs: seq<Addr6>) {
    forall b :: b in bs ==>
      && (b.valid == INFINITE || b.valid > 0)
      && (b.preferred == INFINITE ==> b.valid == INFINITE)
      && (b.preferred != INFINITE && b.valid != INFINITE ==> b.preferred <= b.valid)
  }

  lemma {:induction false} ShortestWithin(bs: seq<Addr6>)
    requires Coherent(bs)
    ensures ShortestLive(bs).Some? ==>
              0 < ShortestLive(bs).value && (LongestValid(bs) == INFINITE || ShortestLive(bs).value <= LongestValid(bs))
    ensures LongestValid(bs) != INFINITE ==> !PrefersForever(bs)
  {
    if bs != [] {
      var n := |bs| - 1;
      assert bs == bs[..n] + [bs[n]];
      ShortestWithin(bs[..n]);
      assert bs[n] in bs;
      if PrefersForever(bs) {
        var i :| 0 <= i < |bs| && bs[i].preferred == INFINITE;
        if i < n {
          assert bs[..n][i].preferred == INFINITE;
        }
      }
    }
  }

  /** The lifetime T1 and T2 are fractions of where the server leaves them open. */
  function Base(l: Lease6): Duration {
    var p := RenewPreferred(l.addrs);
    if p != INFINITE && p <= 0 then LongestValid(l.addrs) else p
  }

  /** When a lease that ends has each deadline, whatever T1 and T2 say: it
      rebinds unless the server forbids it or leaves too short a lifetime to cut,
      and then before its last address ends; it renews unless the server forbids
      it or that is too short, and before the end unless T2 is forever and T1 no
      earlier than the end. */
  lemma RenewsInTime(l: Lease6)
    requires l.addrs != [] && Coherent(l.addrs) && LongestValid(l.addrs) != INFINITE
    ensures
      var d, v, b := l.Deadlines(), LongestValid(l.addrs), Base(l);
      && d.expire == Some(l.start + v)
      && (d.rebind.Some? <==> l.t2 != INFINITE && (0 < l.t2 < v || b >= 5))
      && (d.rebind.Some? ==> l.start < d.rebind.value < d.expire.value)
      && (d.renew.Some? <==>
          && l.t1 != INFINITE && (l.t1 > 0 || b >= 2)
          && (l.t2 == INFINITE || (d.rebind.Some? && d.rebind.value >= l.start + 2)))
      && (d.renew.Some? ==> l.start < d.renew.value && (d.rebind.Some? ==> d.renew.value < d.rebind.value))
      && (d.renew.Some? ==> (d.renew.value < d.expire.value <==> l.t2 != INFINITE || l.t1 < v))
  {
    ShortestWithin(l.addrs);
    LongestIsMaximum(l.addrs);
    var b := Base(l);
    assert 0 < b <= LongestValid(l.addrs);
    assert Quot(b, 5) * 4 < b && (Quot(b, 5) * 4 > 0 <==> b >= 5) && Quot(b, 2) < b && (Quot(b, 2) > 0 <==> b >= 2);
  }

  /** What the wire carries: whole seconds, or forever. */
  ghost predicate OnWire(d: Duration) { exists s: Seconds32 :: d == SecondsToDuration(s) }

  ghost predicate AllOnWire(bs: seq<Addr6>) { forall b :: b in bs ==> OnWire(b.preferred) && OnWire(b.valid) }

  lemma OnWireLasts(d: Duration)
    requires OnWire(d)
    ensures d == INFINITE || d == 0 || d >= SECOND
  {
  }

  lemma {:induction false} LifetimesLast(bs: seq<Addr6>)
    requires AllOnWire(bs)
    ensures ShortestLive(bs).Some? ==> ShortestLive(bs).value >= SECOND
    ensures LongestValid(bs) == INFINITE || LongestValid(bs) == 0 || LongestValid(bs) >= SECOND
  {
    hide OnWire;
    if bs != [] {
      var n := |bs| - 1;
      assert bs == bs[..n] + [bs[n]];
      LifetimesLast(bs[..n]);
      OnWireLasts(bs[n].preferred);
      OnWireLasts(bs[n].valid);
    }
  }

  /** So a lease off the wire that ends has the whole chain in order exactly
      when the server sets neither T1 nor T2 to forever, and without T2 it
      renews in time exactly when T1 is before the end. */
  lemma WireLeaseOrdered(l: Lease6)
    requires l.addrs != [] && Coherent(l.addrs) && LongestValid(l.addrs) != INFINITE
    requires AllOnWire(l.addrs) && OnWire(l.t1) && OnWire(l.t2)
    ensures StrictChain(l.start, l.Deadlines()) <==> l.t1 != INFINITE && l.t2 != INFINITE
    ensures
      var d := l.Deadlines();
      l.t2 == INFINITE ==>
        (d.renew.Some? && d.renew.value < d.expire.value <==> l.t1 != INFINITE && l.t1 < LongestValid(l.addrs))
  {
    hide OnWire, Lease6.Deadlines;
    RenewsInTime(l);
    LifetimesLast(l.addrs);
    OnWireLasts(l.t1);
    OnWireLasts(l.t2);
    ShortestWithin(l.addrs);
    LongestIsMaximum(l.addrs);
    RebindsLate(l);
  }

  /** A rebind time cut from seconds leaves room for a renewal before it. */
  lemma RebindsLate(l: Lease6)
    requires l.addrs != [] && Coherent(l.addrs) && LongestValid(l.addrs) != INFINITE
    requires Base(l) >= SECOND && (l.t2 > 0 ==> l.t2 >= SECOND)
    ensures l.Deadlines().rebind.Some? ==> l.Deadlines().rebind.value >= l.start + 2
  {
    ShortestWithin(l.addrs);
    LongestIsMaximum(l.addrs);
    assert 0 < Base(l) <= LongestValid(l.addrs);
  }

  /** With both left to the client, the chain is strict and complete exactly
      when the lifetime it is cut from holds five nanoseconds. */
  lemma ClientChosenOrdered(l: Lease6)
    requires l.addrs != [] && Coherent(l.addrs) && LongestValid(l.addrs) != INFINITE && l.t1 == 0 && l.t2 == 0
    ensures StrictChain(l.start, l.Deadlines()) <==> Base(l) >= 5
  {
    ShortestWithin(l.addrs);
    LongestIsMaximum(l.addrs);
  }

  /** Outside what the decoder lets through the order is lost: an address
      preferred forever and valid for a while rebinds as it ends. */
  lemma ForeverPreferredRebindsLate(start: Instant, valid: Duration)
    requires valid > 0
    ensures
      var l := NO_LEASE.(addrs := [Addr6(1, INFINITE, valid)], start := start, t2 := valid);
      l.Deadlines().rebind == l.Deadlines().expire
  {
    var bs := [Addr6(1, INFINITE, valid)];
    assert bs[..0] == [];
    assert bs[0].preferred == INFINITE;
    assert LongestValid(bs) == valid;
    assert ShortestLive(bs) == None;
  }

  // -------------------------------------------------------------- renewal --

  /** The lifetimes that keep a binding's own ends, counted from a new start. */
  function CarryLifetimes(b: Addr6, oldStart: Instant, newStart: Instant, now: Instant): Option<Addr6> {
    var end, preferredEnd := Expiry(oldStart, b.valid), Expiry(oldStart, b.preferred);
    if end.Some? && end.value <= now then None
    else Some(b.(valid := if end.Some? then end.value - newStart else b.valid,
                 preferred := if preferredEnd.Some? then Max(preferredEnd.value - newStart, 0) else b.preferred))
  }

  function IndexOf(bs: seq<Addr6>, a: Addr): (k: Option<nat>)
    ensures k.Some? ==> k.value < |bs| && bs[k.value].addr == a && forall j :: 0 <= j < k.value ==> bs[j].addr != a
    ensures k.None? <==> !Has(bs, a)
  {
    if bs == [] then None
    else
      var n := |bs| - 1;
      var k := IndexOf(bs[..n], a);
      assert k.None? ==> forall j :: 0 <= j < n ==> bs[..n][j] == bs[j];
      if k.Some? then k else if bs[n].addr == a then Some(n) else None
  }

  /** What becomes of one held address: granted again, withdrawn, or carried. */
  function Renewed(h: Addr6, heldStart: Instant, got: seq<Addr6>, zeroed: seq<Addr>, newStart: Instant,
                   now: Instant): seq<Addr6> {
    var i := IndexOf(got, h.addr);
    if i.Some? then [got[i.value]]
    else if h.addr in zeroed then []
    else
      var c := CarryLifetimes(h, heldStart, newStart, now);
      if c.Some? then [c.value] else []
  }

  function FromHeld(held: seq<Addr6>, heldStart: Instant, got: seq<Addr6>, zeroed: seq<Addr>, newStart: Instant,
                    now: Instant): seq<Addr6>
  {
    if held == [] then []
    else
      var n := |held| - 1;
      FromHeld(held[..n], heldStart, got, zeroed, newStart, now)
          + Renewed(held[n], heldStart, got, zeroed, newStart, now)
  }

  /** The granted addresses not held before. */
  function Added(got: seq<Addr6>, held: seq<Addr6>): seq<Addr6> {
    if got == [] then []
    else
      var n := |got| - 1;
      Added(got[..n], held) + if Has(held, got[n].addr) then [] else [got[n]]
  }

  function RenewedAddrs(held: seq<Addr6>, heldStart: Instant, got: seq<Addr6>, zeroed: seq<Addr>, newStart: Instant,
                        now: Instant): seq<Addr6>
  {
    FromHeld(held, heldStart, got, zeroed, newStart, now) + Added(got, held)
  }

  function CarriedTemps(temps: seq<Addr6>, oldStart: Instant, newStart: Instant, now: Instant): seq<Addr6> {
    FromHeld(temps, oldStart, [], [], newStart, now)
  }

  method MergeRenewal(held: seq<Addr6>, heldStart: Instant, got: seq<Addr6>, zeroed: seq<Addr>, newStart: Instant,
                      now: Instant)
    returns (r: seq<Addr6>)
    ensures r == RenewedAddrs(held, heldStart, got, zeroed, newStart, now)
  {
    r := [];
    var i := 0;
    while i < |held|
      invariant 0 <= i <= |held|
      invariant r == FromHeld(held[..i], heldStart, got, zeroed, newStart, now)
    {
      var h := held[i];
      assert held[..i + 1][..i] == held[..i];
      i := i + 1;
      var k := IndexOf(got, h.addr);
      if k.Some? {
        r := r + [got[k.value]];
        continue;
      }
      if h.addr in zeroed {
        continue;
      }
      var c := CarryLifetimes(h, heldStart, newStart, now);
      if c.Some? {
        r := r + [c.value];
      }
    }
    assert held[..i] == held;
    var j := 0;
    ghost var kept := r;
    while j < |got|
      invariant 0 <= j <= |got|
      invariant r == kept + Added(got[..j], held)
    {
      assert got[..j + 1][..j] == got[..j];
      if IndexOf(held, got[j].addr).None? {
        r := r + [got[j]];
      }
      j := j + 1;
    }
    assert got[..j] == got;
  }

  predicate Distinct(bs: seq<Addr6>) { forall i, j :: 0 <= i < j < |bs| ==> bs[i].addr != bs[j].addr }

  /** A binding carried over ends when it always would have, and says so only
      while it has not. */
  lemma CarryKeepsEnds(b: Addr6, oldStart: Instant, newStart: Instant, now: Instant)
    requires newStart <= now && (b.valid == INFINITE || oldStart + b.valid - newStart != INFINITE)
    ensures CarryLifetimes(b, oldStart, newStart, now).None? <==> Ended(oldStart, b, now)
    ensures
      var c := CarryLifetimes(b, oldStart, newStart, now);
      c.Some? ==>
        && c.value.addr == b.addr && Expiry(newStart, c.value.valid) == Expiry(oldStart, b.valid)
        && (b.preferred == INFINITE <==> c.value.preferred == INFINITE)
        && (b.preferred != INFINITE ==> newStart + c.value.preferred == Max(oldStart + b.preferred, newStart))
  {
  }

  /** What the merge holds for one held address. */
  predicate Carried(x: Addr6, held: seq<Addr6>, heldStart: Instant, got: seq<Addr6>, zeroed: seq<Addr>,
                    newStart: Instant, now: Instant)
  {
    exists k :: 0 <= k < |held| && !Has(got, held[k].addr) && held[k].addr !in zeroed
                && CarryLifetimes(held[k], heldStart, newStart, now) == Some(x)
  }

  lemma {:induction false} FromHeldContents(held: seq<Addr6>, heldStart: Instant, got: seq<Addr6>, zeroed: seq<Addr>,
                                            newStart: Instant, now: Instant, x: Addr6)
    requires Distinct(got)
    ensures x in FromHeld(held, heldStart, got, zeroed, newStart, now)
            <==> (x in got && Has(held, x.addr)) || Carried(x, held, heldStart, got, zeroed, newStart, now)
  {
    if held != [] {
      var n := |held| - 1;
      var rest := held[..n];
      FromHeldContents(rest, heldStart, got, zeroed, newStart, now, x);
      assert held == rest + [held[n]];
      HasMore(rest, held[n], x.addr);
      CarriedMore(rest, held[n], heldStart, got, zeroed, newStart, now, x);
      var i := IndexOf(got, held[n].addr);
      if i.Some? && x in got && x.addr == held[n].addr {
        var j :| 0 <= j < |got| && got[j] == x;
        assert i.value == j;
      }
    }
  }

  lemma HasMore(bs: seq<Addr6>, b: Addr6, a: Addr)
    ensures Has(bs + [b], a) <==> Has(bs, a) || b.addr == a
  {
    if Has(bs, a) {
      var i :| 0 <= i < |bs| && bs[i].addr == a;
      assert (bs + [b])[i].addr == a;
    }
    if b.addr == a {
      assert (bs + [b])[|bs|].addr == a;
    }
    if Has(bs + [b], a) && b.addr != a {
      var i :| 0 <= i < |bs| + 1 && (bs + [b])[i].addr == a;
      assert bs[i].addr == a;
    }
  }

  lemma CarriedMore(held: seq<Addr6>, h: Addr6, heldStart: Instant, got: seq<Addr6>, zeroed: seq<Addr>,
                    newStart: Instant, now: Instant, x: Addr6)
    ensures Carried(x, held + [h], heldStart, got, zeroed, newStart, now)
            <==> Carried(x, held, heldStart, got, zeroed, newStart, now)
                 || (!Has(got, h.addr) && h.addr !in zeroed && CarryLifetimes(h, heldStart, newStart, now) == Some(x))
  {
    var more := held + [h];
    if Carried(x, held, heldStart, got, zeroed, newStart, now) {
      var k :| 0 <= k < |held| && !Has(got, held[k].addr) && held[k].addr !in zeroed
               && CarryLifetimes(held[k], heldStart, newStart, now) == Some(x);
      assert more[k] == held[k];
    }
    if !Has(got, h.addr) && h.addr !in zeroed && CarryLifetimes(h, heldStart, newStart, now) == Some(x) {
      assert more[|held|] == h;
    }
  }

  lemma {:induction false} AddedContents(got: seq<Addr6>, held: seq<Addr6>, x: Addr6)
    ensures x in Added(got, held) <==> x in got && !Has(held, x.addr)
  {
    if got != [] {
      var n := |got| - 1;
      AddedContents(got[..n], held, x);
      assert got == got[..n] + [got[n]];
    }
  }

  /** The merge holds every address the Reply granted, with its new lifetimes;
      every held one it neither named nor withdrew nor outlasted, ending when
      it would have; and nothing else. */
  lemma RenewalMergeContents(held: seq<Addr6>, heldStart: Instant, got: seq<Addr6>, zeroed: seq<Addr>,
                             newStart: Instant, now: Instant, x: Addr6)
    requires Distinct(got)
    ensures x in RenewedAddrs(held, heldStart, got, zeroed, newStart, now)
            <==> x in got || Carried(x, held, heldStart, got, zeroed, newStart, now)
  {
    FromHeldContents(held, heldStart, got, zeroed, newStart, now, x);
    AddedContents(got, held, x);
  }

  /** Where an address stands in the held list, and past its end if it does not. */
  function Place(held: seq<Addr6>, a: Addr): (k: nat)
    ensures Has(held, a) <==> k < |held|
  {
    if IndexOf(held, a).Some? then IndexOf(held, a).value else |held|
  }

  /** Every address in the held order, once. */
  predicate InOrder(r: seq<Addr6>, held: seq<Addr6>) {
    forall i, j :: 0 <= i < j < |r| && Has(held, r[j].addr) ==> Place(held, r[i].addr) < Place(held, r[j].addr)
  }

  lemma {:induction false} FromHeldDistinct(held: seq<Addr6>, heldStart: Instant, got: seq<Addr6>, zeroed: seq<Addr>,
                                            newStart: Instant, now: Instant)
    requires Distinct(held)
    ensures
      var r := FromHeld(held, heldStart, got, zeroed, newStart, now);
      Distinct(r) && InOrder(r, held) && forall i :: 0 <= i < |r| ==> Has(held, r[i].addr)
  {
    if held != [] {
      var n := |held| - 1;
      var rest := held[..n];
      FromHeldDistinct(rest, heldStart, got, zeroed, newStart, now);
      var r := FromHeld(rest, heldStart, got, zeroed, newStart, now);
      assert held == rest + [held[n]];
      var all := FromHeld(held, heldStart, got, zeroed, newStart, now);
      forall i | 0 <= i < |all|
        ensures Has(held, all[i].addr)
        ensures if i < |r| then Place(held, all[i].addr) == Place(rest, all[i].addr) < n
                else Place(held, all[i].addr) == n
      {
        if i < |r| {
          HasMore(rest, held[n], r[i].addr);
        } else {
          assert held[n].addr == all[i].addr;
          LastPlace(held);
        }
      }
    }
  }

  lemma LastPlace(held: seq<Addr6>)
    requires held != [] && Distinct(held)
    ensures Place(held, held[|held| - 1].addr) == |held| - 1
  {
    var n := |held| - 1;
    if Has(held[..n], held[n].addr) {
      NotLast(held, held[n].addr);
    }
    assert Has(held, held[n].addr);
  }

  lemma NotLast(held: seq<Addr6>, a: Addr)
    requires held != [] && Distinct(held) && Has(held[..|held| - 1], a)
    ensures a != held[|held| - 1].addr
  {
    var n := |held| - 1;
    var i :| 0 <= i < n && held[..n][i].addr == a;
    assert held[i].addr == a;
  }

  lemma {:induction false} AddedDistinct(got: seq<Addr6>, held: seq<Addr6>)
    requires Distinct(got)
    ensures
      var r := Added(got, held);
      Distinct(r) && forall i :: 0 <= i < |r| ==> Has(got, r[i].addr) && !Has(held, r[i].addr)
  {
    if got != [] {
      var n := |got| - 1;
      var rest := got[..n];
      AddedDistinct(rest, held);
      assert got == rest + [got[n]];
      var r, all := Added(rest, held), Added(got, held);
      forall i | 0 <= i < |all| ensures Has(got, all[i].addr) && (i < |r| ==> all[i].addr != got[n].addr) {
        if i < |r| {
          HasMore(rest, got[n], r[i].addr);
          NotLast(got, r[i].addr);
        } else {
          assert got[n].addr == all[i].addr;
        }
      }
    }
  }

  /** It names no address twice, and the held ones come first, in the order
      they were held. */
  lemma RenewalMergeDistinct(held: seq<Addr6>, heldStart: Instant, got: seq<Addr6>, zeroed: seq<Addr>,
                             newStart: Instant, now: Instant)
    requires Distinct(held) && Distinct(got)
    ensures
      var r := RenewedAddrs(held, heldStart, got, zeroed, newStart, now);
      Distinct(r) && InOrder(r, held)
  {
    hide FromHeld, Added, IndexOf;
    FromHeldDistinct(held, heldStart, got, zeroed, newStart, now);
    AddedDistinct(got, held);
    var a, b := FromHeld(held, heldStart, got, zeroed, newStart, now), Added(got, held);
    var r := RenewedAddrs(held, heldStart, got, zeroed, newStart, now);
    forall i | 0 <= i < |r| ensures Has(held, r[i].addr) <==> i < |a| {
      assert r[i] == if i < |a| then a[i] else b[i - |a|];
    }
  }

  // ------------------------------------------------------------- equality --

  predicate SameEnd(s1: Instant, d1: Duration, s2: Instant, d2: Duration) { Expiry(s1, d1) == Expiry(s2, d2) }

  /** Preferred lifetimes that have both run out are alike, whenever they did. */
  predicate SamePreferred(s1: Instant, d1: Duration, s2: Instant, d2: Duration) {
    var e1, e2 := Expiry(s1, d1), Expiry(s2, d2);
    e1.Some? == e2.Some? && ((e1.Some? && e1.value <= Max(s1, s2) && e2.value <= Max(s1, s2)) || e1 == e2)
  }

  /** The same addresses ending at the same moments; stable ones also where the
      server repeats their lifetimes. */
  predicate SameBindings(s1: Instant, xs: seq<Addr6>, s2: Instant, ys: seq<Addr6>, stable: bool) {
    && |xs| == |ys|
    && forall i :: 0 <= i < |xs| ==>
      && xs[i].addr == ys[i].addr
      && ((stable && xs[i] == ys[i])
          || (SameEnd(s1, xs[i].valid, s2, ys[i].valid)
              && SamePreferred(s1, xs[i].preferred, s2, ys[i].preferred)))
  }
}
