/** What the client puts on the wire: Table 5 of RFC 2131, for every message of
    every run. */
module Dhcp4Messages {
  import opened Clock
  import opened Lease
  import opened Dhcp4
  import opened Dhcp4Invariant
  import opened Dhcp4Runs
  import Acd
  import Backoff

  /** The states that wait for a server's answer. */
  predicate Awaits(s: State) { s.Selecting? || s.Requesting? || s.Rebooting? || s.Renewing? || s.Rebinding? }

  predicate Selectable(offer: Message) { offer.yiaddr != 0 && offer.serverID.Some? && offer.serverID.value != 0 }

  /** What a state that will send a DHCPREQUEST has to put in it. */
  predicate Prepared(m: Client) {
    && (m.state.Requesting? ==> m.offer.Some? && Selectable(m.offer.value))
    && (m.state.Rebooting? ==> m.rebootAddr.Some? && m.rebootAddr.value != 0)
  }

  /** A message the step from m to r may send: the fields its kind must fill,
      and no others, for the state the client then waits in. The transaction is
      the one its answer will be matched against, and what a lease will be
      timed from is the moment it left. */
  predicate Proper(m: Client, r: Client, now: Instant, x: Mail) {
    var own := m.HeldOrProbing();
    match x.msg.kind
    case Discover =>
      && r.state == Selecting && x.dest == Broadcast && x.msg.xid == r.xid && x.msg.ciaddr == 0 && x.msg.serverID.None?
      && x.msg.requested == if r.params.requestedIP != 0 then Some(r.params.requestedIP) else None
    case Request => x.msg.xid == r.xid && r.requestSentAt == now && ProperRequest(r, x)
    case Decline =>
      && r.state == Init && r.lease.None? && r.probing.None? && x.dest == Broadcast && x.msg.ciaddr == 0
      && own.addr != 0 && x.msg.requested == Some(own.addr) && NamesServer(own) && x.msg.serverID == own.serverID
    case Release =>
      && r.state == Stopped && r.lease.None? && x.msg.requested.None?
      && own.addr != 0 && x.msg.ciaddr == own.addr && NamesServer(own) && x.msg.serverID == own.serverID
      && x.dest == Unicast(own.serverID.value)
    case _ => false
  }

  predicate ProperRequest(r: Client, x: Mail) {
    match r.state
    case Requesting =>
      && x.dest == Broadcast && x.msg.ciaddr == 0 && r.offer.Some? && Selectable(r.offer.value)
      && x.msg.requested == Some(r.offer.value.yiaddr) && x.msg.serverID == r.offer.value.serverID
    case Rebooting =>
      && x.dest == Broadcast && x.msg.ciaddr == 0 && x.msg.serverID.None?
      && r.rebootAddr.Some? && r.rebootAddr.value != 0 && x.msg.requested == r.rebootAddr
    case Renewing =>
      && r.lease.Some? && x.msg.ciaddr == r.lease.value.addr && x.msg.requested.None? && x.msg.serverID.None?
      && NamesServer(r.lease.value) && x.dest == Unicast(r.lease.value.serverID.value)
    case Rebinding =>
      && r.lease.Some? && x.msg.ciaddr == r.lease.value.addr && x.msg.requested.None? && x.msg.serverID.None?
      && x.dest == Broadcast
    case _ => false
  }

  /** When the message will be sent again: by its schedule before a lease is
      held, and halfway to the next deadline after. */
  predicate Timed(r: Client, now: Instant, at: Option<Instant>) {
    match r.state
    case Selecting => Spaced(r.params.discover, r.retransmits, now, at)
    case Requesting => Spaced(r.params.request, r.retransmits, now, at)
    case Rebooting => Spaced(r.params.request, r.retransmits, now, at)
    case Renewing =>
      var d := r.Held().Deadlines();
      Halved(if d.rebind.Some? then d.rebind else d.expire, now, at)
    case Rebinding => Halved(r.Held().Deadlines().expire, now, at)
    case _ => true
  }

  /** A delay within its jitter of the RFC's, for a ceiling that a machine word can reach. */
  predicate Spaced(s: Backoff.Schedule, n: nat, now: Instant, at: Option<Instant>) {
    && at.Some?
    && (s.Valid() && s.max <= MAX_INT64 / 2 ==>
          0 < at.value - now && Backoff.Ideal(s, n) - s.jitter <= at.value - now <= Backoff.Ideal(s, n) + s.jitter)
  }

  /** Half of the time left, down to a minute. */
  predicate Halved(until: Option<Instant>, now: Instant, at: Option<Instant>) {
    && at.Some?
    && var d := at.value - now;
       if until.None? || until.value - now < 2 * MINUTE then d == MINUTE else 2 * d <= until.value - now <= 2 * d + 1
  }

  /** One message more, a proper one, that will be sent again in time. */
  ghost predicate Wrote(m: Client, c: Ctx, r: Ctx) {
    var was, mail := |c.env().mail|, r.env().mail;
    && |mail| == was + 1 && mail[..was] == c.env().mail && Proper(m, r.m, c.now(), mail[was])
    && Prepared(r.m) && Timed(r.m, c.now(), r.env().armed.retransmit)
  }

  /** No message, and no answer awaited that was not awaited before. */
  ghost predicate Silent(m: Client, c: Ctx, r: Ctx) {
    && r.env().mail == c.env().mail && Prepared(r.m)
    && (Awaits(r.m.state) ==> r.m.state == m.state && r.m.xid == m.xid)
  }

  ghost predicate Spoke(m: Client, c: Ctx, r: Ctx) { Wrote(m, c, r) || Silent(m, c, r) }

  // ------------------------------------------------------- the transitions --

  lemma DelaySpaced(s: Backoff.Schedule, n: nat, now: Instant, rnd: Entropy)
    ensures Spaced(s, n, now, Some(now + Backoff.Delay(s, n, rnd)))
  {
    hide Backoff.Delay, Backoff.Ideal;
    if s.Valid() && s.max <= MAX_INT64 / 2 {
      Backoff.DelayBounds(s, n, rnd);
    }
  }

  lemma SendDiscoverWrites(m: Client, c: Ctx, rnd: Entropy)
    ensures Wrote(m, c, SendDiscover(c, rnd))
  {
    hide Executed, Backoff.Delay, Backoff.Ideal;
    DelaySpaced(c.m.params.discover, c.m.retransmits, c.now(), rnd);
  }

  lemma SendRequestWrites(m: Client, c: Ctx, rnd: Entropy)
    requires c.m.offer.Some? && Selectable(c.m.offer.value)
    ensures Wrote(m, c, SendRequest(c, rnd))
  {
    hide Executed, Backoff.Delay, ToInitIdle, Backoff.Ideal;
    DelaySpaced(c.m.params.request, c.m.retransmits, c.now(), rnd);
  }

  lemma SendRebootWrites(m: Client, c: Ctx, rnd: Entropy)
    requires c.m.rebootAddr.Some? && c.m.rebootAddr.value != 0
    ensures Wrote(m, c, SendReboot(c, rnd))
  {
    hide Executed, Backoff.Delay, Backoff.Ideal;
    DelaySpaced(c.m.params.request, c.m.retransmits, c.now(), rnd);
  }

  lemma SendRenewalWrites(m: Client, c: Ctx)
    requires c.m.lease.Some? && (c.m.state.Rebinding? || (c.m.state.Renewing? && NamesServer(c.m.lease.value)))
    ensures Wrote(m, c, SendRenewal(c))
  {
    hide Executed, Lease.Deadlines;
  }

  /** Begun without a desynchronising wait, an acquisition always sends. */
  lemma BeginAcquisitionSpeaks(m: Client, c: Ctx, rnd: Entropy, withDesync: bool)
    ensures Spoke(m, c, BeginAcquisition(c, rnd, withDesync))
    ensures !withDesync ==> Wrote(m, c, BeginAcquisition(c, rnd, withDesync))
  {
    hide Executed, SendDiscover, SendReboot, CancelAll, Params.Desync;
    var p := c.m.params;
    var n := c.m.(retransmits := 0, sendFailures := 0, offer := None, rebootAddr := None,
                  xid := p.Split(rnd, 0) % 0x1_0000_0000, state := Init);
    var (d, rebooting) := TakeResume(CancelAll(c.(m := n)));
    if rebooting {
      SendRebootWrites(m, d, p.Split(rnd, 3));
    } else {
      SendDiscoverWrites(m, d, p.Split(rnd, 3));
    }
  }

  /** A transition that sends nothing and comes to rest. */
  ghost predicate Rests(c: Ctx, r: Ctx) { r.env().mail == c.env().mail && !Awaits(r.m.state) && Prepared(r.m) }

  lemma ToInitIdleRests(c: Ctx)
    ensures Rests(c, ToInitIdle(c)) && ToInitIdle(c).m.state == Init && ToInitIdle(c).m.lease == c.m.lease
            && ToInitIdle(c).m.probing.None?
  {
    hide Executed;
  }

  lemma DropLeaseQuiet(c: Ctx, why: Reason)
    ensures
      var r := DropLease(c, why);
      && r.env().mail == c.env().mail && r.m.state == c.m.state && r.m.xid == c.m.xid && r.m.lease.None?
      && r.m.offer == c.m.offer && r.m.rebootAddr == c.m.rebootAddr
  {
    hide Executed;
  }

  lemma HaltRests(c: Ctx, why: Reason)
    ensures Rests(c, Halt(c, why)) && Halt(c, why).m.state == Stopped && Halt(c, why).m.lease.None?
  {
    hide Executed, DropLease;
    DropLeaseQuiet(c, why);
  }

  lemma RestartPacedSpeaks(m: Client, c: Ctx, rnd: Entropy, withDesync: bool)
    ensures Spoke(m, c, RestartPaced(c, rnd, withDesync))
  {
    hide Executed, BeginAcquisition, ToInitIdle, Backoff.Delay;
    var d := c.(m := c.m.(restarts := c.m.restarts + 1));
    if c.m.restarts == 0 {
      BeginAcquisitionSpeaks(m, d, rnd, withDesync);
    } else {
      ToInitIdleRests(d);
    }
  }

  /** A conflict declines the address given up, where its server is known. */
  lemma DeclineAndRestartSpeaks(m: Client, c: Ctx, rnd: Entropy)
    requires c.m.lease == m.lease && c.m.probing == m.probing
    ensures if Nameable(m.HeldOrProbing()) then Wrote(m, c, DeclineAndRestart(c, rnd))
            else Silent(m, c, DeclineAndRestart(c, rnd))
    ensures DeclineAndRestart(c, rnd).m.state == Init
  {
    hide Executed, DropLease, ToInitIdle;
    var d := SendDecline(c, rnd);
    DropLeaseQuiet(d, ReasonConflict);
    ToInitIdleRests(DropLease(d, ReasonConflict));
  }

  lemma ReleaseLeaseSpeaks(m: Client, c: Ctx, rnd: Entropy)
    requires c.m.lease == m.lease && c.m.probing == m.probing
    ensures if Nameable(m.HeldOrProbing()) then Wrote(m, c, ReleaseLease(c, rnd))
            else Silent(m, c, ReleaseLease(c, rnd))
  {
    hide Executed, Halt;
    HaltRests(SendRelease(c, rnd), ReasonReleased);
  }

  lemma EnterRenewingSpeaks(m: Client, c: Ctx, rnd: Entropy)
    requires c.m.lease.Some? && c.m.state == Bound
    ensures Spoke(m, c, EnterRenewing(c, rnd))
  {
    hide Executed, SendRenewal;
    if NamesServer(c.m.Held()) {
      SendRenewalWrites(m, c.(m := BeginRenewal(c.m, rnd).(state := Renewing)));
    }
  }

  lemma EnterRebindingWrites(m: Client, c: Ctx, rnd: Entropy, opening: bool)
    requires c.m.lease.Some?
    ensures Wrote(m, c, EnterRebinding(c, rnd, opening))
  {
    hide Executed, SendRenewal;
    var n := if opening then BeginRenewal(c.m, rnd) else c.m;
    SendRenewalWrites(m, c.(m := n.(state := Rebinding)));
  }

  lemma AnnounceHostnameSpeaks(m: Client, c: Ctx, rnd: Entropy)
    requires Prepared(c.m) && (HoldsLease(c.m.state) ==> c.m.lease.Some?)
    requires c.m.state.Renewing? ==> NamesServer(c.m.lease.value)
    requires Awaits(c.m.state) ==> c.m.state == m.state && c.m.xid == m.xid
    ensures Spoke(m, c, AnnounceHostname(c, rnd))
  {
    hide Executed, SendRenewal, EnterRenewing;
    if c.m.state.Bound? {
      EnterRenewingSpeaks(m, c, rnd);
    } else if c.m.state.Renewing? || c.m.state.Rebinding? {
      SendRenewalWrites(m, c);
    }
  }

  lemma EnterBoundNewSpeaks(m: Client, c: Ctx, rnd: Entropy, l: Lease)
    requires Sound(c.m, c.env())
    ensures Spoke(m, c, EnterBoundNew(c, rnd, l))
  {
    hide Executed, Bind, AnnounceHostname;
    BindInv(c, l, false);
    var b := Bind(c, l, false);
    AnnounceHostnameSpeaks(m, Emit(b, LeaseAcquired(b.m.Held(), b.m.RequestedAddr())), rnd);
  }

  lemma EnterBoundRenewedRests(c: Ctx, rnd: Entropy, l: Lease)
    requires Sound(c.m, c.env())
    ensures Rests(c, EnterBoundRenewed(c, rnd, l))
  {
    hide Executed, Bind, StartAcd, Lease.Equal;
    BindInv(c, l, true);
    var b := Emit(Bind(c, l, true), LeaseRenewed(Bind(c, l, true).m.Held()));
    StartAcdQuiet(b, rnd, b.m.Held().addr);
  }

  lemma StartAcdQuiet(c: Ctx, rnd: Entropy, addr: Addr)
    ensures
      var r := StartAcd(c, rnd, addr);
      r.env().mail == c.env().mail && r.m == c.m.(acd := r.m.acd, nextAction := r.m.nextAction)
  {
    hide Executed, Uniform;
  }

  lemma AfterAckSpeaks(m: Client, c: Ctx, rnd: Entropy, l: Lease)
    requires Free(c) && Only(c.env(), TimerRetransmit)
    ensures Spoke(m, c, AfterAck(c, rnd, l))
  {
    hide Executed, StartAcd, EnterBoundNew;
    match c.m.params.conflict {
      case ConflictWait =>
        var d := Cancel(c, TimerRetransmit);
        StartAcdQuiet(d.(m := d.m.(probing := Some(l), state := Probing, offer := None, retransmits := 0,
                                   sendFailures := 0)), rnd, l.addr);
      case ConflictAsync =>
        StartAcdInv(c, rnd, l.addr);
        StartAcdQuiet(c, rnd, l.addr);
        EnterBoundNewSpeaks(m, StartAcd(c, rnd, l.addr), rnd, l);
      case ConflictOff =>
        EnterBoundNewSpeaks(m, c, rnd, l);
    }
  }

  lemma AcdTimerSpeaks(m: Client, c: Ctx, rnd: Entropy)
    requires AcdDue(c) && Prepared(c.m) && m.state == c.m.state && m.xid == c.m.xid
    ensures Spoke(m, c, AcdTimer(c, rnd))
  {
    hide Executed, AcdTimer, EnterBoundNew, Sound, Watching, StateRule, Carries;
    match c.m.acd.value.phase {
      case Probing => ProbeStep(c, rnd);
      case Settling => SettleSpeaks(m, c, rnd);
      case Announcing => AnnounceStep(c, rnd);
    }
  }

  lemma SettleSpeaks(m: Client, c: Ctx, rnd: Entropy)
    requires AcdDue(c) && c.m.acd.value.phase.Settling? && Prepared(c.m) && m.state == c.m.state && m.xid == c.m.xid
    ensures Spoke(m, c, AcdTimer(c, rnd))
  {
    hide Executed, AcdTimer, EnterBoundNew, Announced, Carries;
    SettleStep(c, rnd);
    AnnouncedHolds(c, rnd);
    var d := Announced(c, rnd);
    if c.m.probing.Some? {
      EnterBoundNewSpeaks(m, d.(m := d.m.(probing := None)), rnd, c.m.probing.value);
    }
  }

  lemma OnArpSpeaks(m: Client, c: Ctx, rnd: Entropy, pkt: Option<Acd.Packet>)
    requires m == c.m && Prepared(c.m)
    ensures Spoke(m, c, OnArp(c, rnd, pkt))
  {
    hide Executed, DeclineAndRestart, ApplyAll;
    if c.m.acd.Some? && pkt.Some? {
      var (a, outs) := c.m.acd.value.Arp(pkt.value);
      var d := c.(m := c.m.(acd := Some(a)));
      if outs == [] {
        ApplyNone(d, rnd);
      } else {
        ApplyOne(d, rnd, Acd.Conflict);
        DeclineAndRestartSpeaks(m, d, rnd);
      }
    }
  }

  lemma NoteActionFailedSilent(m: Client, c: Ctx, rnd: Entropy, id: nat)
    requires m == c.m && Prepared(c.m)
    ensures Silent(m, c, NoteActionFailed(c, rnd, id))
  {
    hide Executed, DropLease, ToInitIdle, RenewalDelay, Backoff.Delay;
    var d := Emit(c.(m := c.m.(sendFailures := c.m.sendFailures + 1)), Failed(ReasonTransport));
    DropLeaseQuiet(d, ReasonTransport);
    ToInitIdleRests(DropLease(d, ReasonTransport));
  }

  lemma TakeHostnameSpeaks(m: Client, c: Ctx, rnd: Entropy, name: string)
    requires m == c.m && Inv(c.m, c.env()) && Prepared(c.m)
    ensures Spoke(m, c, TakeHostname(c, rnd, name))
  {
    hide Executed, AnnounceHostname, Watching, ExpiryArmed, Sound;
    if c.m.SendsHostname() && ValidHostname(name) {
      AnnounceHostnameSpeaks(m, c.(m := c.m.(hostname := name)), rnd);
    }
  }

  /** A lease that ends: what follows it at once. */
  lemma EndLeaseSpeaks(m: Client, c: Ctx, rnd: Entropy, why: Reason)
    ensures
      var d := DropLease(c, why);
      Spoke(m, c, RestartPaced(d, rnd, false)) && Spoke(m, c, BeginAcquisition(d, rnd, false))
          && Silent(m, c, ToInitIdle(d))
  {
    hide Executed, DropLease, RestartPaced, BeginAcquisition, ToInitIdle;
    var d := DropLease(c, why);
    DropLeaseQuiet(c, why);
    RestartPacedSpeaks(m, d, rnd, false);
    BeginAcquisitionSpeaks(m, d, rnd, false);
    ToInitIdleRests(d);
  }

  lemma NakSpeaks(m: Client, c: Ctx, rnd: Entropy)
    ensures Spoke(m, c, TakeNak(c, rnd))
    ensures Spoke(m, c, RestartPaced(Emit(DropLease(c, ReasonNak), Failed(ReasonNak)), rnd, false))
  {
    hide Executed, DropLease, RestartPaced;
    DropLeaseQuiet(c, ReasonNak);
    RestartPacedSpeaks(m, Emit(DropLease(c, ReasonNak), Failed(ReasonNak)), rnd, false);
    RestartPacedSpeaks(m, Emit(Cancel(c, TimerRetransmit), Failed(ReasonNak)), c.m.params.Split(rnd, 1), false);
  }

  lemma GiveUpWrites(m: Client, c: Ctx, rnd: Entropy)
    ensures Wrote(m, c, GiveUp(c, rnd))
  {
    hide Executed, BeginAcquisition;
    BeginAcquisitionSpeaks(m, Emit(c, Failed(ReasonNoServer)), c.m.params.Split(rnd, 1), false);
  }

  lemma TakeForcerenewSpeaks(m: Client, c: Ctx, rnd: Entropy, msg: Message, raw: Option<Frame>, dst: Option<Addr>)
    requires m == c.m && Inv(c.m, c.env()) && Prepared(c.m)
    ensures Spoke(m, c, TakeForcerenew(c, rnd, msg, raw, dst))
  {
    hide Executed, EnterRenewing, Watching, ExpiryArmed, Sound, IsUnicast;
    if ForcerenewFault(c.m, msg, raw, dst).None? && c.m.state == Bound {
      var n := c.m.counts;
      EnterRenewingSpeaks(m, c.(m := c.m.(key := Some(c.m.key.value.(floor := msg.auth.replay)),
                                          counts := n.(renewed := n.renewed + 1))), rnd);
    }
  }

  // ------------------------------------------------------------ each state --

  lemma StillInv(c: Ctx, e: Env, ev: Event)
    requires Delivered(c, e, ev) && !ev.TimerFired?
    ensures Inv(c.m, c.env())
  {
    hide Executed;
  }

  lemma StoppedSpeaks(c: Ctx, e: Env, rnd: Entropy, ev: Event)
    requires Delivered(c, e, ev) && Prepared(c.m) && c.m.state == Stopped
    ensures Spoke(c.m, c, StepStopped(c, rnd, ev))
  {
    hide Executed, BeginAcquisition, TakeHostname;
    match ev {
      case Start => BeginAcquisitionSpeaks(c.m, c, rnd, true);
      case SetHostname(name) => TakeHostnameSpeaks(c.m, c, rnd, name);
      case _ =>
    }
  }

  lemma InitSpeaks(c: Ctx, e: Env, rnd: Entropy, ev: Event)
    requires Delivered(c, e, ev) && Prepared(c.m) && c.m.state == Init
    ensures Spoke(c.m, c, StepInit(c, rnd, ev))
  {
    hide Executed, BeginAcquisition, TakeHostname, Halt, SendDiscover, NoteActionFailed, Sound, Proper;
    match ev {
      case Start => BeginAcquisitionSpeaks(c.m, c, rnd, true);
      case LinkUp => BeginAcquisitionSpeaks(c.m, c, rnd, true);
      case TimerFired(_) =>
        SendDiscoverWrites(c.m, c, rnd);
        BeginAcquisitionSpeaks(c.m, c, rnd, false);
      case Stop => HaltRests(c, ReasonStopped);
      case Release => HaltRests(c, ReasonReleased);
      case ActionFailed(id) => NoteActionFailedSilent(c.m, c, rnd, id);
      case SetHostname(name) =>
        StillInv(c, e, ev);
        TakeHostnameSpeaks(c.m, c, rnd, name);
      case _ =>
    }
  }

  /** The events every state that has left INIT treats alike. */
  lemma OthersSpeak(c: Ctx, e: Env, rnd: Entropy, ev: Event)
    requires Delivered(c, e, ev) && Prepared(c.m)
    ensures ev.Stop? ==> Spoke(c.m, c, Halt(c, ReasonStopped))
    ensures ev.Release? ==> Spoke(c.m, c, Halt(c, ReasonReleased)) && Spoke(c.m, c, ReleaseLease(c, rnd))
    ensures ev.LinkDown? ==> Spoke(c.m, c, ToInitIdle(c)) && Spoke(c.m, c, ToInitIdle(DropLease(c, ReasonLinkDown)))
    ensures ev.AddressLost? ==> Spoke(c.m, c, BeginAcquisition(DropLease(c, ReasonAddressLost), rnd, false))
    ensures ev.ConflictDetected? ==> Spoke(c.m, c, DeclineAndRestart(c, rnd))
    ensures ev.ARPReceived? ==> Spoke(c.m, c, OnArp(c, rnd, ev.pkt))
    ensures ev.ActionFailed? ==> Spoke(c.m, c, NoteActionFailed(c, rnd, ev.action))
    ensures ev.SetHostname? ==> Spoke(c.m, c, TakeHostname(c, rnd, ev.name))
    ensures Spoke(c.m, c, c)
  {
    hide Executed, TakeHostname, Halt, ToInitIdle, NoteActionFailed, Inv, Proper, ReleaseLease, DeclineAndRestart,
         OnArp, DropLease, BeginAcquisition, Delivered;
    match ev {
      case Stop => HaltRests(c, ReasonStopped);
      case Release =>
        HaltRests(c, ReasonReleased);
        ReleaseLeaseSpeaks(c.m, c, rnd);
      case LinkDown =>
        ToInitIdleRests(c);
        EndLeaseSpeaks(c.m, c, rnd, ReasonLinkDown);
      case AddressLost => EndLeaseSpeaks(c.m, c, rnd, ReasonAddressLost);
      case ConflictDetected => DeclineAndRestartSpeaks(c.m, c, rnd);
      case ARPReceived(pkt) => OnArpSpeaks(c.m, c, rnd, pkt);
      case ActionFailed(id) => NoteActionFailedSilent(c.m, c, rnd, id);
      case SetHostname(name) =>
        StillInv(c, e, ev);
        TakeHostnameSpeaks(c.m, c, rnd, name);
      case _ =>
    }
  }

  lemma SelectingSpeaks(c: Ctx, e: Env, rnd: Entropy, ev: Event)
    requires Delivered(c, e, ev) && Prepared(c.m) && c.m.state == Selecting
    ensures Spoke(c.m, c, StepSelecting(c, rnd, ev))
    ensures ev == TimerFired(TimerRetransmit) ==> Wrote(c.m, c, StepSelecting(c, rnd, ev))
  {
    hide Executed, TakeHostname, Halt, ToInitIdle, NoteActionFailed, Inv, Wrote, Silent, SendRequest, SendDiscover,
         GiveUp, OnArp, DeclineAndRestart, ReleaseLease, BeginAcquisition, DropLease, Delivered;
    OthersSpeak(c, e, rnd, ev);
    if ev.Received? && ev.msg.Some? && Selectable(ev.msg.value) {
      SendRequestWrites(c.m, c.(m := c.m.(offer := ev.msg, retransmits := 0)), rnd);
      WroteFrom(c.m, c, c.(m := c.m.(offer := ev.msg, retransmits := 0)), StepSelecting(c, rnd, ev));
    } else if ev == TimerFired(TimerRetransmit) {
      var d := c.(m := c.m.(retransmits := c.m.retransmits + 1));
      GiveUpWrites(c.m, c, rnd);
      SendDiscoverWrites(c.m, d, rnd);
      WroteFrom(c.m, c, d, StepSelecting(c, rnd, ev));
    }
  }

  lemma WroteFrom(m: Client, c: Ctx, d: Ctx, r: Ctx)
    requires d.out == c.out && d.start == c.start
    ensures Wrote(m, d, r) ==> Wrote(m, c, r)
  {
  }

  lemma RequestingSpeaks(c: Ctx, e: Env, rnd: Entropy, ev: Event)
    requires Delivered(c, e, ev) && Prepared(c.m) && c.m.state == Requesting
    ensures Spoke(c.m, c, StepRequesting(c, rnd, ev))
    ensures ev == TimerFired(TimerRetransmit) ==> Wrote(c.m, c, StepRequesting(c, rnd, ev))
  {
    hide Executed, TakeHostname, Halt, ToInitIdle, NoteActionFailed, Inv, Wrote, Silent, SendRequest, TakeNak, GiveUp,
         OnArp, DeclineAndRestart, ReleaseLease, BeginAcquisition, DropLease, Delivered, RestartPaced, AfterAck;
    OthersSpeak(c, e, rnd, ev);
    if ev.Received? {
      NakSpeaks(c.m, c, rnd);
      RefusedSpeaks(c, rnd);
      AckSpeaks(c, e, rnd, ev);
    } else if ev == TimerFired(TimerRetransmit) {
      var d := c.(m := c.m.(retransmits := c.m.retransmits + 1));
      OfferSelectable(c, e, ev);
      GiveUpWrites(c.m, c, rnd);
      SendRequestWrites(c.m, d, rnd);
      WroteFrom(c.m, c, d, StepRequesting(c, rnd, ev));
    }
  }

  lemma OfferSelectable(c: Ctx, e: Env, ev: Event)
    requires Delivered(c, e, ev) && Prepared(c.m)
    ensures c.m.state == Requesting ==> c.m.offer.Some? && Selectable(c.m.offer.value)
    ensures c.m.state == Rebooting ==> c.m.rebootAddr.Some? && c.m.rebootAddr.value != 0
    ensures HoldsLease(c.m.state) ==> c.m.lease.Some?
    ensures c.m.state == Renewing ==> NamesServer(c.m.lease.value)
  {
  }

  /** An ACK without the nonce its OFFER promised. */
  lemma RefusedSpeaks(c: Ctx, rnd: Entropy)
    ensures
      var n := c.m.counts;
      var d := c.(m := c.m.(counts := n.(ackRefused := n.ackRefused + 1)));
      Spoke(c.m, c, RestartPaced(d, c.m.params.Split(rnd, 1), true))
  {
    hide Executed, RestartPaced;
    var n := c.m.counts;
    RestartPacedSpeaks(c.m, c.(m := c.m.(counts := n.(ackRefused := n.ackRefused + 1))), c.m.params.Split(rnd, 1),
                       true);
  }

  lemma AckSpeaks(c: Ctx, e: Env, rnd: Entropy, ev: Event)
    requires Delivered(c, e, ev) && (c.m.state == Requesting || c.m.state == Rebooting) && ev.Received?
    ensures
      ev.msg.Some? ==>
        var l := LeaseFromAck(ev.msg.value, c.m.requestSentAt);
        l.Some? ==> Spoke(c.m, c, AfterAck(c, rnd, l.value))
  {
    hide Executed, AfterAck;
    if ev.msg.Some? && LeaseFromAck(ev.msg.value, c.m.requestSentAt).Some? {
      AfterAckSpeaks(c.m, c, rnd, LeaseFromAck(ev.msg.value, c.m.requestSentAt).value);
    }
  }

  lemma RebootingSpeaks(c: Ctx, e: Env, rnd: Entropy, ev: Event)
    requires Delivered(c, e, ev) && Prepared(c.m) && c.m.state == Rebooting
    ensures Spoke(c.m, c, StepRebooting(c, rnd, ev))
    ensures ev == TimerFired(TimerRetransmit) ==> Wrote(c.m, c, StepRebooting(c, rnd, ev))
  {
    hide Executed, TakeHostname, Halt, ToInitIdle, NoteActionFailed, Inv, Wrote, Silent, SendReboot, TakeNak, GiveUp,
         OnArp, DeclineAndRestart, ReleaseLease, BeginAcquisition, DropLease, Delivered, RestartPaced, AfterAck;
    OthersSpeak(c, e, rnd, ev);
    if ev.Received? {
      NakSpeaks(c.m, c, rnd);
      AckSpeaks(c, e, rnd, ev);
    } else if ev == TimerFired(TimerRetransmit) {
      var d := c.(m := c.m.(retransmits := c.m.retransmits + 1));
      OfferSelectable(c, e, ev);
      GiveUpWrites(c.m, c, rnd);
      SendRebootWrites(c.m, d, rnd);
      WroteFrom(c.m, c, d, StepRebooting(c, rnd, ev));
    }
  }

  lemma CheckDue(c: Ctx, e: Env, ev: Event)
    requires Delivered(c, e, ev) && ev == TimerFired(TimerACD) && (c.m.state.Probing? || HoldsLease(c.m.state))
    ensures AcdDue(c)
  {
    hide Executed;
  }

  lemma ProbingSpeaks(c: Ctx, e: Env, rnd: Entropy, ev: Event)
    requires Delivered(c, e, ev) && Prepared(c.m) && c.m.state == Probing
    ensures Spoke(c.m, c, StepProbing(c, rnd, ev))
  {
    hide Executed, TakeHostname, Halt, ToInitIdle, NoteActionFailed, Inv, Wrote, Silent, OnArp, DeclineAndRestart,
         ReleaseLease, BeginAcquisition, DropLease, Delivered, AcdTimer, AcdDue;
    OthersSpeak(c, e, rnd, ev);
    if ev == TimerFired(TimerACD) {
      CheckDue(c, e, ev);
      AcdTimerSpeaks(c.m, c, rnd);
    }
  }

  lemma BoundSpeaks(c: Ctx, e: Env, rnd: Entropy, ev: Event)
    requires Delivered(c, e, ev) && Prepared(c.m) && c.m.state == Bound
    ensures Spoke(c.m, c, StepBound(c, rnd, ev))
  {
    hide Executed, TakeHostname, Halt, ToInitIdle, NoteActionFailed, Inv, Wrote, Silent, OnArp, DeclineAndRestart,
         ReleaseLease, BeginAcquisition, DropLease, Delivered, AcdTimer, AcdDue, RestartPaced, EnterRenewing,
         EnterRebinding;
    OthersSpeak(c, e, rnd, ev);
    OfferSelectable(c, e, ev);
    match ev {
      case TimerFired(t) =>
        match t {
          case TimerExpire => EndLeaseSpeaks(c.m, c, rnd, ReasonExpired);
          case TimerRenew => EnterRenewingSpeaks(c.m, c, rnd);
          case TimerRebind => EnterRebindingWrites(c.m, c, rnd, true);
          case TimerACD =>
            CheckDue(c, e, ev);
            AcdTimerSpeaks(c.m, c, rnd);
          case _ =>
        }
      case _ =>
    }
  }

  lemma RenewalSpeaks(c: Ctx, e: Env, rnd: Entropy, ev: Event)
    requires Delivered(c, e, ev) && Prepared(c.m) && (c.m.state == Renewing || c.m.state == Rebinding)
    ensures Spoke(c.m, c, StepRenewal(c, rnd, ev))
    ensures ev == TimerFired(TimerRetransmit) ==> Wrote(c.m, c, StepRenewal(c, rnd, ev))
  {
    hide Executed, TakeHostname, Halt, ToInitIdle, NoteActionFailed, Inv, Wrote, Silent, OnArp, DeclineAndRestart,
         ReleaseLease, BeginAcquisition, DropLease, Delivered, AcdTimer, AcdDue, RestartPaced, EnterRebinding,
         SendRenewal, EnterBoundRenewed;
    OthersSpeak(c, e, rnd, ev);
    OfferSelectable(c, e, ev);
    match ev {
      case Received(msg, _, _) =>
        NakSpeaks(c.m, c, c.m.params.Split(rnd, 1));
        RenewedSpeaks(c, e, rnd, ev);
      case TimerFired(t) =>
        match t {
          case TimerExpire => EndLeaseSpeaks(c.m, c, rnd, ReasonExpired);
          case TimerRetransmit => SendRenewalWrites(c.m, c);
          case TimerRebind => EnterRebindingWrites(c.m, c, rnd, false);
          case TimerACD =>
            CheckDue(c, e, ev);
            AcdTimerSpeaks(c.m, c, rnd);
          case _ =>
        }
      case _ =>
    }
  }

  lemma RenewedSpeaks(c: Ctx, e: Env, rnd: Entropy, ev: Event)
    requires Delivered(c, e, ev) && ev.Received?
    ensures
      ev.msg.Some? ==>
        var l := LeaseFromAck(ev.msg.value, c.m.requestSentAt);
        l.Some? ==> Spoke(c.m, c, EnterBoundRenewed(c, rnd, l.value))
  {
    hide Executed, EnterBoundRenewed;
    if ev.msg.Some? && LeaseFromAck(ev.msg.value, c.m.requestSentAt).Some? {
      EnterBoundRenewedRests(c, rnd, LeaseFromAck(ev.msg.value, c.m.requestSentAt).value);
    }
  }

  // ------------------------------------------------------------- every step --

  /** Every step sends at most one message, and that one is proper; a client
      that begins to wait for an answer has asked for it; and each time its
      retransmission timer fires it asks again. */
  lemma StepSpeaks(m: Client, e: Env, now: Instant, rnd: Entropy, ev: Event)
    requires Inv(m, e) && Admissible(e, now, ev) && Prepared(m)
    ensures
      var c := Begin(m, Deliver(e, now, ev));
      && Spoke(m, c, Advance(m, e, now, rnd, ev))
      && (ev == TimerFired(TimerRetransmit) ==> Wrote(m, c, Advance(m, e, now, rnd, ev)))
  {
    hide Executed, Inv, Wrote, Silent, Spoke, StepStopped, StepInit, StepSelecting, StepRequesting, StepRebooting,
         StepProbing, StepBound, StepRenewal, TakeForcerenew;
    var c := Begin(m, Deliver(e, now, ev));
    if IsForcerenew(ev) {
      StillInv(c, e, ev);
      TakeForcerenewSpeaks(m, c, rnd, ev.msg.value, ev.raw, ev.dst);
    } else {
      if ev == TimerFired(TimerRetransmit) {
        RetransmitAwaits(m, e);
      }
      match m.state {
        case Stopped => StoppedSpeaks(c, e, rnd, ev);
        case Init => InitSpeaks(c, e, rnd, ev);
        case Selecting => SelectingSpeaks(c, e, rnd, ev);
        case Requesting => RequestingSpeaks(c, e, rnd, ev);
        case Rebooting => RebootingSpeaks(c, e, rnd, ev);
        case Probing => ProbingSpeaks(c, e, rnd, ev);
        case Bound => BoundSpeaks(c, e, rnd, ev);
        case Renewing => RenewalSpeaks(c, e, rnd, ev);
        case Rebinding => RenewalSpeaks(c, e, rnd, ev);
      }
    }
  }

  lemma RetransmitAwaits(m: Client, e: Env)
    requires Inv(m, e) && e.armed.At(TimerRetransmit).Some?
    ensures Awaits(m.state)
  {
  }

  lemma {:induction false} PlayPrepared(w: World, ins: seq<Input>)
    requires Inv(w.m, w.e) && Prepared(w.m) && Legal(w, ins)
    ensures Prepared(Play(w, ins).m)
  {
    hide Inv, Admissible, StepBody, Prepared;
    if ins != [] {
      var k := |ins| - 1;
      LegalPrefix(w, ins, k);
      PlayKeepsInv(w, ins[..k]);
      PlayPrepared(w, ins[..k]);
      var v := Play(w, ins[..k]);
      StepSpeaks(v.m, v.e, ins[k].now, ins[k].rnd, ins[k].ev);
    }
  }

  /** The step that sent the message at index n of everything sent. */
  ghost predicate SentBy(w: World, ins: seq<Input>, n: nat, k: nat) {
    && k < |ins| && n < |Play(w, ins).e.mail|
    && var v, u := Play(w, ins[..k]), Play(w, ins[..k + 1]);
       && |v.e.mail| == n && |u.e.mail| == n + 1 && Proper(v.m, u.m, ins[k].now, Play(w, ins).e.mail[n])
       && Timed(u.m, ins[k].now, u.e.armed.retransmit)
  }

  /** Every message of every run was sent by some step, proper for it, and
      set to be sent again in time. */
  lemma {:induction false} EveryMessageProper(p: Params, start: Instant, ins: seq<Input>, n: nat) returns (k: nat)
    requires p.Valid() && Legal(Initial(p, start), ins) && n < |Play(Initial(p, start), ins).e.mail|
    ensures SentBy(Initial(p, start), ins, n, k)
  {
    hide Inv, Admissible, StepBody, Proper, Prepared, Timed;
    var w, last := Initial(p, start), |ins| - 1;
    NewInv(p, start);
    assert Prepared(w.m) by { NewPrepared(p); }
    LegalPrefix(w, ins, last);
    PlayKeepsInv(w, ins[..last]);
    PlayPrepared(w, ins[..last]);
    var v, i := Play(w, ins[..last]), ins[last];
    StepSpeaks(v.m, v.e, i.now, i.rnd, i.ev);
    NextFrame(v, i);
    assert ins[..last + 1] == ins;
    if n == |v.e.mail| {
      k := last;
    } else {
      k := EveryMessageProper(p, start, ins[..last], n);
      assert ins[..last][..k] == ins[..k] && ins[..last][..k + 1] == ins[..k + 1];
    }
  }

  lemma NewPrepared(p: Params)
    ensures Prepared(New(p))
  {
  }
}
