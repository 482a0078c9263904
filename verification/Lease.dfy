/** The DHCPv4 lease and its deadlines, section 4.4.5 of RFC 2131. */
module Lease {
  import opened Clock

  datatype Option<+T> = None | Some(value: T)

  /** An IPv4 address; 0 is the unspecified one. */
  type Addr = nat

  type Nonce = int

  /** What an ACK gives the client, and the replay floor a nonce starts with.
      Routes, servers and names are one opaque configuration. */
  datatype Lease = Lease(addr: Addr, bits: nat, serverID: Option<Addr>, start: Instant,
                         leaseTime: Duration, t1: Duration, t2: Duration, config: int,
                         nonce: Option<Nonce>, replay: nat)
  {
    predicate Infinite() { leaseTime == INFINITE }

    function Expire(): Instant { start + leaseTime }

    /** The same address, server and configuration; times may differ. */
    predicate Equal(o: Lease) {
      addr == o.addr && bits == o.bits && serverID == o.serverID && config == o.config
    }

    function Deadlines(): Timing {
      var expire := if Infinite() then None else Some(start + leaseTime);
      if !Infinite() && leaseTime <= 0 then Timing(None, None, expire)
      else
        var rebind := Rebind();
        var renew := Renew(rebind);
        Timing(if renew > 0 then Some(start + renew) else None,
               if rebind > 0 then Some(start + rebind) else None,
               expire)
    }

    /** T2 where it is usable, seven eighths of the lease where it is not. */
    function Rebind(): Duration {
      var r := if t2 <= 0 && !Infinite() then Quot(leaseTime, 8) * 7 else t2;
      if !Infinite() && r >= leaseTime then Quot(leaseTime, 8) * 7 else r
    }

    /** T1 where it is usable, half the lease or half of T2 where it is not. */
    function Renew(rebind: Duration): Duration {
      var r := if t1 <= 0 && !Infinite() then Quot(leaseTime, 2) else t1;
      if rebind > 0 && r >= rebind then Quot(rebind, 2) else r
    }
  }

  datatype Timing = Timing(renew: Option<Instant>, rebind: Option<Instant>, expire: Option<Instant>)

  /** The three moments in order, none missing. */
  predicate StrictChain(start: Instant, d: Timing) {
    && d.renew.Some? && d.rebind.Some? && d.expire.Some?
    && start < d.renew.value < d.rebind.value < d.expire.value
  }

  /** A finite lease renews, rebinds and expires in that order for any T1
      whatever, exactly when it can be cut in eighths and T2 is not the one
      nanosecond that cannot be halved, or T2 itself fits under it. */
  lemma DeadlinesOrdered(l: Lease)
    requires !l.Infinite()
    ensures StrictChain(l.start, l.Deadlines())
            <==> (l.leaseTime >= 8 && l.t2 != 1) || 2 <= l.t2 < l.leaseTime
  {
    if l.leaseTime > 0 {
      var n := l.leaseTime;
      assert n / 8 * 7 < n && n / 2 < n;
      assert n >= 8 ==> n / 8 >= 1;
    }
  }

  /** Every lease a server can express, in whole seconds. */
  lemma ServerLeaseOrdered(l: Lease, secs: Seconds32, t1: Option<Seconds32>, t2: Option<Seconds32>)
    requires 0 < secs < 0xFFFF_FFFF
    requires l.leaseTime == SecondsToDuration(secs)
    requires l.t1 == (if t1.Some? then SecondsToDuration(t1.value) else 0)
    requires l.t2 == (if t2.Some? then SecondsToDuration(t2.value) else 0)
    ensures StrictChain(l.start, l.Deadlines())
    ensures l.leaseTime <= MAX_INT64
  {
    DeadlinesOrdered(l);
  }

  /** An infinite lease never expires, and what it arms is in order. */
  lemma InfiniteNeverExpires(l: Lease)
    requires l.Infinite() && (l.t2 <= 0 || l.t2 >= 2)
    ensures l.Deadlines().expire.None?
    ensures
      var d := l.Deadlines();
      d.renew.Some? && d.rebind.Some? ==> l.start < d.renew.value < d.rebind.value
  {
  }
}
