/** FORCERENEW, RFC 3203 authenticated as section 6 of RFC 6704 has it: every
    frame is accounted for once, and no frame is accepted twice. */
module Dhcp4Forcerenew {
  import opened Clock
  import opened Lease
  import opened Dhcp4
  import opened Dhcp4Invariant
  import opened Dhcp4Runs
  import Acd

  /** The frames this client has decided on. */
  function Decided(m: Client): nat { m.counts.renewed + m.counts.alreadyRenewing + |m.counts.refused| }

  /** The frame passes every check. */
  predicate Accepts(m: Client, ev: Event) {
    IsForcerenew(ev) && ForcerenewFault(m, ev.msg.value, ev.raw, ev.dst).None?
  }

  /** Each FORCERENEW raises exactly one of the counters, the one its first
      failing check names or the one for the state it found, and no other event
      raises any. */
  lemma EachFrameCountedOnce(m: Client, e: Env, now: Instant, rnd: Entropy, ev: Event)
    ensures
      var r, n := Advance(m, e, now, rnd, ev).m, m.counts;
      if !IsForcerenew(ev) then r.counts == n.(ackRefused := r.counts.ackRefused)
      else if !Accepts(m, ev) then
        r.counts == n.(refused := n.refused + multiset{ForcerenewFault(m, ev.msg.value, ev.raw, ev.dst).value})
      else if m.state == Bound then r.counts == n.(renewed := n.renewed + 1)
      else r.counts == n.(alreadyRenewing := n.alreadyRenewing + 1)
    ensures Decided(Advance(m, e, now, rnd, ev).m) == Decided(m) + if IsForcerenew(ev) then 1 else 0
  {
    hide Executed, StepStopped, StepInit, StepSelecting, StepRequesting, StepRebooting, StepProbing, StepBound,
         StepRenewal, EnterRenewing, ForcerenewFault;
    FaultStates(m, ev);
  }

  lemma FaultStates(m: Client, ev: Event)
    ensures Accepts(m, ev) ==> HoldsLease(m.state) && m.key.Some? && ev.msg.value.auth.DigestAuth?
                               && ev.msg.value.auth.replay > m.key.value.floor
                               && ev.raw.Some? && m.key.value.nonce in ev.raw.value.verifiesUnder
                               && ev.dst == Some(m.Held().addr) && ev.msg.value.chaddr == m.params.chaddr
  {
  }

  predicate SameNonce(m: Client, r: Client) {
    m.key.Some? && r.key.Some? && m.key.value.nonce == r.key.value.nonce
  }

  /** Accepting a frame moves the floor to its replay value, above the old one. */
  lemma AcceptRaisesFloor(m: Client, e: Env, now: Instant, rnd: Entropy, ev: Event)
    requires Accepts(m, ev)
    ensures
      var r := Advance(m, e, now, rnd, ev).m;
      && SameNonce(m, r) && m.key.value.floor < ev.msg.value.auth.replay == r.key.value.floor
  {
    hide Executed, ForcerenewFault;
    FaultStates(m, ev);
  }

  /** Nothing the sub-machine's timer does touches the key of a held lease. */
  lemma AcdTimerKeepsKey(c: Ctx, rnd: Entropy)
    requires AcdDue(c) && c.m.probing.None?
    ensures KeepsKey(c, AcdTimer(c, rnd))
  {
    hide Executed, AcdTimer, Announced;
    match c.m.acd.value.phase {
      case Probing => ProbeStep(c, rnd);
      case Settling => SettleStep(c, rnd);
      case Announcing => AnnounceStep(c, rnd);
    }
  }

  lemma OnArpKeepsKey(c: Ctx, rnd: Entropy, pkt: Option<Acd.Packet>)
    ensures KeepsKey(c, OnArp(c, rnd, pkt))
  {
    hide Executed, DeclineAndRestart;
    if c.m.acd.Some? && pkt.Some? {
      var (a, outs) := c.m.acd.value.Arp(pkt.value);
      var d := c.(m := c.m.(acd := Some(a)));
      if outs == [] {
        ApplyNone(d, rnd);
      } else {
        ApplyOne(d, rnd, Acd.Conflict);
      }
    }
  }

  /** A renewal under the same nonce keeps the higher of the two floors. */
  lemma RenewalKeepsFloor(c: Ctx, rnd: Entropy, l: Lease)
    requires c.m.lease.Some?
    ensures
      var r := EnterBoundRenewed(c, rnd, l);
      SameNonce(c.m, r.m) ==> r.m.key.value.floor >= c.m.key.value.floor
  {
    hide Executed, ArmDeadlines, StartAcd, Lease.Deadlines;
  }

  predicate FloorKept(m: Client, r: Client) { SameNonce(m, r) ==> r.key.value.floor >= m.key.value.floor }

  lemma BoundKeepsFloor(c: Ctx, e: Env, rnd: Entropy, ev: Event)
    requires Delivered(c, e, ev) && c.m.state == Bound
    ensures FloorKept(c.m, StepBound(c, rnd, ev).m)
  {
    hide Executed, AcdTimer, OnArp, DropLease, RestartPaced, BeginAcquisition, ToInitIdle, DeclineAndRestart, Halt,
         ReleaseLease, EnterRenewing, EnterRebinding, NoteActionFailed, TakeHostname;
    if ev == TimerFired(TimerACD) {
      AcdTimerKeepsKey(c, rnd);
    } else if ev.ARPReceived? {
      OnArpKeepsKey(c, rnd, ev.pkt);
    }
  }

  lemma RenewalStepKeepsFloor(c: Ctx, e: Env, rnd: Entropy, ev: Event)
    requires Delivered(c, e, ev) && (c.m.state == Renewing || c.m.state == Rebinding)
    ensures FloorKept(c.m, StepRenewal(c, rnd, ev).m)
  {
    hide Executed, AcdTimer, OnArp, DropLease, RestartPaced, BeginAcquisition, ToInitIdle, DeclineAndRestart, Halt,
         ReleaseLease, SendRenewal, EnterRebinding, NoteActionFailed, TakeHostname, EnterBoundRenewed;
    if ev == TimerFired(TimerACD) {
      AcdTimerKeepsKey(c, rnd);
    } else if ev.ARPReceived? {
      OnArpKeepsKey(c, rnd, ev.pkt);
    } else if ev.Received? && ev.msg.Some? && LeaseFromAck(ev.msg.value, c.m.requestSentAt).Some? {
      RenewalKeepsFloor(c, rnd, LeaseFromAck(ev.msg.value, c.m.requestSentAt).value);
    }
  }

  /** While one nonce is held, across renewals, early renewals and conflicts
      alike, no step lowers its floor. */
  lemma FloorNeverDrops(m: Client, e: Env, now: Instant, rnd: Entropy, ev: Event)
    requires Inv(m, e) && Admissible(e, now, ev)
    ensures FloorKept(m, Advance(m, e, now, rnd, ev).m)
  {
    hide Executed, TakeForcerenew, ForcerenewFault, StepStopped, StepInit, StepSelecting, StepRequesting,
         StepRebooting, StepProbing, StepBound, StepRenewal;
    var c := Begin(m, Deliver(e, now, ev));
    if IsForcerenew(ev) {
      if Accepts(m, ev) {
        AcceptRaisesFloor(m, e, now, rnd, ev);
      } else {
        RefusalKeepsKey(c, rnd, ev.msg.value, ev.raw, ev.dst);
      }
    } else if m.state == Bound {
      BoundKeepsFloor(c, e, rnd, ev);
    } else if m.state == Renewing || m.state == Rebinding {
      RenewalStepKeepsFloor(c, e, rnd, ev);
    }
  }

  lemma RefusalKeepsKey(c: Ctx, rnd: Entropy, msg: Message, raw: Option<Frame>, dst: Option<Addr>)
    requires ForcerenewFault(c.m, msg, raw, dst).Some?
    ensures TakeForcerenew(c, rnd, msg, raw, dst).m.key == c.m.key
  {
  }

  /** The nonce is the same at every moment of the run. */
  predicate HoldsNonce(w: World, ins: seq<Input>, nonce: Nonce) {
    forall k :: 0 <= k <= |ins| ==> NonceIs(Play(w, ins[..k]), nonce)
  }

  predicate NonceIs(w: World, nonce: Nonce) { w.m.key.Some? && w.m.key.value.nonce == nonce }

  lemma {:induction false} FloorOverRun(w: World, ins: seq<Input>, nonce: Nonce)
    requires Inv(w.m, w.e) && Legal(w, ins) && HoldsNonce(w, ins, nonce)
    ensures NonceIs(w, nonce) && NonceIs(Play(w, ins), nonce)
    ensures w.m.key.value.floor <= Play(w, ins).m.key.value.floor
  {
    hide Inv, StepBody, Admissible;
    assert ins[..0] == [] && ins[..|ins|] == ins;
    assert NonceIs(Play(w, ins[..0]), nonce) && NonceIs(Play(w, ins[..|ins|]), nonce);
    if ins != [] {
      var k := |ins| - 1;
      LegalPrefix(w, ins, k);
      forall j | 0 <= j <= k ensures NonceIs(Play(w, ins[..k][..j]), nonce) {
        assert ins[..k][..j] == ins[..j];
      }
      FloorOverRun(w, ins[..k], nonce);
      PlayKeepsInv(w, ins[..k]);
      var v := Play(w, ins[..k]);
      FloorNeverDrops(v.m, v.e, ins[k].now, ins[k].rnd, ins[k].ev);
    }
  }

  /** The replay detection value a frame carries. */
  function ReplayOf(ev: Event): nat {
    if ev.Received? && ev.msg.Some? && ev.msg.value.auth.DigestAuth? then ev.msg.value.auth.replay else 0
  }

  /** No frame is ever accepted twice, nor an older one after a newer: between
      any two acceptances, with the nonce held throughout, the replay value
      strictly increases. */
  lemma AcceptedReplaysIncrease(w: World, first: Input, ins: seq<Input>, last: Input, nonce: Nonce)
    requires Inv(w.m, w.e) && Admissible(w.e, first.now, first.ev) && Legal(Next(w, first), ins)
    requires NonceIs(w, nonce) && HoldsNonce(Next(w, first), ins, nonce)
    requires Accepts(w.m, first.ev) && Accepts(Play(Next(w, first), ins).m, last.ev)
    ensures ReplayOf(first.ev) < ReplayOf(last.ev)
  {
    hide Inv, StepBody, Admissible, Accepts;
    AcceptRaisesFloor(w.m, w.e, first.now, first.rnd, first.ev);
    AcceptedIsDigest(w.m, first.ev);
    StepInv(w, first);
    FloorOverRun(Next(w, first), ins, nonce);
    AcceptedIsDigest(Play(Next(w, first), ins).m, last.ev);
  }

  lemma AcceptedIsDigest(m: Client, ev: Event)
    requires Accepts(m, ev)
    ensures m.key.Some? && ev.Received? && ev.msg.Some? && ReplayOf(ev) == ev.msg.value.auth.replay > m.key.value.floor
  {
    FaultStates(m, ev);
  }

  lemma StepInv(w: World, i: Input)
    requires Inv(w.m, w.e) && Admissible(w.e, i.now, i.ev)
    ensures Inv(Next(w, i).m, Next(w, i).e)
  {
    hide Executed, StepBody, StepKind, Pace, Inv;
    StepKeepsInv(w.m, w.e, i.now, i.rnd, i.ev);
  }
}
