/** The coupling of the client with its conflict sub-machine: which ARP packets
    end a lease or a check, and what exactly the end is. */
module Dhcp4Conflict {
  import opened Clock
  import opened Lease
  import opened Dhcp4
  import opened Dhcp4Invariant
  import opened Dhcp4Gate
  import Acd

  /** The address in use, or being checked. */
  function Own(m: Client): Addr { m.HeldOrProbing().addr }

  /** While detection is on, another's claim to the address always counts, and
      another's probe for it while the client is still probing itself. */
  predicate Disputes(m: Client, pkt: Acd.Packet) {
    && m.acd.Some? && (m.state.Probing? || HoldsLease(m.state))
    && Contests(pkt, Own(m), m.params.LinkHW())
    && (pkt.senderIP == Own(m) || m.acd.value.phase.Probing? || m.acd.value.phase.Settling?)
  }

  /** The client gives the address up: told once, idle but for the restart wait. */
  ghost predicate GivenUp(m: Client, e: Env, now: Instant, r: Ctx) {
    && r.m.state == Init && r.m.lease.None? && r.m.probing.None? && Exactly(r.env(), TimerRestart)
    && r.env().told == e.told + [if m.lease.Some? then LeaseLost(ReasonConflict) else Failed(ReasonConflict)]
    && r.env().sends == e.sends + (if Nameable(m.HeldOrProbing()) then 1 else 0)
    && r.env().armed.restart.value >= now + m.params.RestartDelay()
    && m.acd.Some? && r.m.acd.Some? && r.m.acd.value.conflicts == m.acd.value.conflicts + 1
    && (m.acd.value.conflicts + 1 >= m.params.acd.maxConflicts ==>
          r.env().armed.restart.value >= m.acd.value.attemptAt + m.params.acd.rateLimitInterval)
  }

  /** The sub-machine's rule, on the client that keeps the invariant, is the dispute rule. */
  lemma ConflictIsDispute(m: Client, e: Env, pkt: Acd.Packet)
    requires Inv(m, e) && m.acd.Some? && (m.state.Probing? || HoldsLease(m.state))
    ensures m.acd.value.addr == Some(Own(m))
    ensures m.acd.value.Conflicts(pkt) <==> Disputes(m, pkt)
  {
  }

  lemma OnArpDecides(c: Ctx, rnd: Entropy, pkt: Acd.Packet)
    requires Inv(c.m, c.env()) && (c.m.state.Probing? || HoldsLease(c.m.state))
    ensures
      var r := OnArp(c, rnd, Some(pkt));
      if Disputes(c.m, pkt) then GivenUp(c.m, c.env(), c.env().now, r) else r == c
  {
    hide Executed, DeclineAndRestart, ApplyAll;
    if c.m.acd.Some? {
      ConflictIsDispute(c.m, c.env(), pkt);
      var (a, outs) := c.m.acd.value.Arp(pkt);
      var d := c.(m := c.m.(acd := Some(a)));
      if Disputes(c.m, pkt) {
        ApplyOne(d, rnd, Acd.Conflict);
        DeclineAndRestartInv(d, rnd);
      } else {
        ApplyNone(d, rnd);
      }
    }
  }

  /** An ARP packet ends the client's lease or check exactly when it disputes
      the address, and then in one way; every other packet changes nothing. */
  lemma ArpDecides(m: Client, e: Env, now: Instant, rnd: Entropy, pkt: Acd.Packet)
    requires Inv(m, e) && e.now <= now
    ensures
      var r := Advance(m, e, now, rnd, ARPReceived(Some(pkt)));
      if Disputes(m, pkt) then GivenUp(m, e, now, r) else r.m == m && r.env() == e.(now := now)
  {
    hide Executed, OnArp, Disputes, GivenUp;
    var c := Begin(m, Deliver(e, now, ARPReceived(Some(pkt))));
    if m.state.Probing? || HoldsLease(m.state) {
      OnArpDecides(c, rnd, pkt);
      GivenUpSince(m, e, now, OnArp(c, rnd, Some(pkt)));
    } else {
      assert !Disputes(m, pkt) by { NoneToDispute(m, pkt); }
    }
  }

  lemma NoneToDispute(m: Client, pkt: Acd.Packet)
    requires !m.state.Probing? && !HoldsLease(m.state)
    ensures !Disputes(m, pkt)
  {
  }

  lemma GivenUpSince(m: Client, e: Env, now: Instant, r: Ctx)
    ensures GivenUp(m, e.(now := now), now, r) ==> GivenUp(m, e, now, r)
  {
  }
}
