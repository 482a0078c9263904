/** The DHCPv4 client as the program holds it: one object updated in place, its
    conflict detector beside it, and the list of actions of the step under way.
    Each method is the transition of the same name. */
module Machine4 {
  import opened Clock
  import opened Lease
  import opened Dhcp4
  import Acd
  import Backoff
  import Invariant = Dhcp4Invariant

  class Machine {
    const params: Params
    const detector: Acd.Detector?
    var state: State
    var nextAction: nat
    var xid: nat
    var retransmits: nat
    var sendFailures: nat
    var restarts: nat
    var offer: Option<Message>
    var requestSentAt: Instant
    var counts: Counters
    var key: Option<Key>
    var lease: Option<Lease>
    var resume: Option<Resume>
    var rebootAddr: Option<Addr>
    var probing: Option<Lease>
    var hostname: string
    var nameOnWire: string
    var arpAction: Option<nat>
    var out: seq<Stamped>
    ghost var start: Env

    function Client(): Dhcp4.Client
      reads this, detector
    {
      Dhcp4.Client(params, state, nextAction, xid, retransmits, sendFailures, restarts, offer, requestSentAt, counts,
                   key, lease, resume, rebootAddr, if detector == null then None else Some(detector.View()),
                   probing, hostname, nameOnWire, arpAction)
    }

    ghost function View(): Ctx
      reads this, detector
    {
      Ctx(Client(), out, start)
    }

    ghost predicate At(now: Instant)
      reads this
    {
      start.now == now
    }

    constructor (p: Params)
      requires p.Valid()
      ensures Client() == New(p) && out == [] && (detector == null || fresh(detector))
    {
      params, state, nextAction, xid, retransmits, sendFailures, restarts := p, Stopped, 0, 0, 0, 0, 0;
      offer, requestSentAt, counts, key, lease := None, 0, Counters(0, 0, 0, multiset{}), None, None;
      resume, rebootAddr, probing, hostname, nameOnWire, arpAction := p.resume, None, None, p.hostname, "", None;
      out := [];
      if p.conflict.ConflictOff? {
        detector := null;
      } else {
        detector := new Acd.Detector(p.acd, p.LinkHW());
      }
    }

    /** One event in, a list of actions out: the environment is not consulted,
        only told apart from others by the moment. */
    method Step(now: Instant, rnd: Entropy, ev: Event, ghost e: Env) returns (acts: seq<Stamped>)
      requires e.now == now
      modifies this, detector
      ensures
        var c := StepBody(Begin(old(Client()), e), rnd, ev);
        Client() == c.m && acts == c.out
    {
      out, start := [], e;
      if ev.Received? && ev.msg.Some? && ev.msg.value.kind == Some(ForceRenew) {
        TakeForcerenew(now, rnd, ev.msg.value, ev.raw, ev.dst);
      } else {
        StepState(now, rnd, ev);
      }
      return out;
    }

    method StepState(now: Instant, rnd: Entropy, ev: Event)
      requires At(now) && !IsForcerenew(ev)
      modifies this, detector
      ensures View() == StepBody(old(View()), rnd, ev)
      ensures start == old(start)
    {
      hide Dhcp4.StepStopped, Dhcp4.StepInit, Dhcp4.StepSelecting, Dhcp4.StepRequesting, Dhcp4.StepRebooting,
           Dhcp4.StepProbing, Dhcp4.StepBound, Dhcp4.StepRenewal, Executed, Execute, Emit, Params.Split, Keeps,
           Carries;
      match state {
        case Probing => StepProbing(now, rnd, ev);
        case Bound => StepBound(now, rnd, ev);
        case Renewing => StepRenewal(now, rnd, ev);
        case Rebinding => StepRenewal(now, rnd, ev);
        case _ => StepAcquiring(now, rnd, ev);
      }
    }

    method StepAcquiring(now: Instant, rnd: Entropy, ev: Event)
      requires At(now) && !IsForcerenew(ev)
      requires !state.Probing? && !state.Bound? && !state.Renewing? && !state.Rebinding?
      modifies this, detector
      ensures View() == StepBody(old(View()), rnd, ev)
      ensures start == old(start)
    {
      hide Dhcp4.StepStopped, Dhcp4.StepInit, Dhcp4.StepSelecting, Dhcp4.StepRequesting, Dhcp4.StepRebooting,
           Dhcp4.StepProbing, Dhcp4.StepBound, Dhcp4.StepRenewal, Executed, Execute, Emit, Params.Split, Keeps,
           Carries;
      match state {
        case Stopped => StepStopped(now, rnd, ev);
        case Init => StepInit(now, rnd, ev);
        case Selecting => StepSelecting(now, rnd, ev);
        case Requesting => StepRequesting(now, rnd, ev);
        case Rebooting => StepRebooting(now, rnd, ev);
      }
    }

    // ----------------------------------------------------------- actions --

    method Stamp(a: Action) returns (id: nat)
      modifies this
      ensures View() == Emit(old(View()), a) && id == old(nextAction)
      ensures start == old(start)
    {
      id := nextAction;
      out := out + [Stamped(id, a)];
      nextAction := id + 1;
    }

    method Tell(a: Action)
      modifies this
      ensures View() == Emit(old(View()), a)
      ensures start == old(start)
    {
      var _ := Stamp(a);
    }

    method Set(t: TimerID, d: Duration)
      modifies this
      ensures View() == Dhcp4.Set(old(View()), t, d)
      ensures start == old(start)
    {
      Tell(SetTimer(t, d));
    }

    method Cancel(t: TimerID)
      modifies this
      ensures View() == Dhcp4.Cancel(old(View()), t)
      ensures start == old(start)
    {
      Tell(CancelTimer(t));
    }

    method CancelAll()
      modifies this
      ensures View() == Dhcp4.CancelAll(old(View()))
      ensures start == old(start)
    {
      hide Executed, Execute, Emit, Params.Split, Keeps, Carries, Dhcp4.Set, Dhcp4.Cancel;
      var n := 0;
      while n < |ALL_TIMERS|
        invariant n <= |ALL_TIMERS|
        invariant View() == CancelMany(old(View()), n)
      {
        Cancel(ALL_TIMERS[n]);
        n := n + 1;
      }
    }

    // ---------------------------------------------------------- messages --

    method Base(kind: Kind) returns (msg: Outgoing)
      modifies this
      ensures (View(), msg) == Dhcp4.Base(old(View()), kind)
      ensures start == old(start)
    {
      nameOnWire := if params.sendsFQDN then "" else hostname;
      msg := Outgoing(kind, xid, 0, None, None, nameOnWire);
    }

    method SendDiscover(now: Instant, rnd: Entropy)
      requires At(now)
      modifies this
      ensures View() == Dhcp4.SendDiscover(old(View()), rnd)
      ensures start == old(start)
    {
      hide Executed, Execute, Emit, Params.Split, Keeps, Carries, Dhcp4.Set, Dhcp4.Cancel;
      var msg := Base(Discover);
      if params.requestedIP != 0 {
        msg := msg.(requested := Some(params.requestedIP));
      }
      state := Selecting;
      Cancel(TimerDesync);
      Tell(Send(msg, Broadcast));
      Set(TimerRetransmit, Backoff.Delay(params.discover, retransmits, rnd));
    }

    method SendRequest(now: Instant, rnd: Entropy)
      requires At(now)
      modifies this, detector
      ensures View() == Dhcp4.SendRequest(old(View()), rnd)
      ensures start == old(start)
    {
      hide Executed, Execute, Emit, Params.Split, Keeps, Carries, Dhcp4.Set, Dhcp4.Cancel, Dhcp4.ToInitIdle;
      if offer.None? {
        ToInitIdle();
        return;
      }
      var msg := Base(Request);
      msg := msg.(requested := Some(offer.value.yiaddr), serverID := offer.value.serverID);
      state := Requesting;
      requestSentAt := now;
      Tell(Send(msg, Broadcast));
      Set(TimerRetransmit, Backoff.Delay(params.request, retransmits, rnd));
    }

    method SendReboot(now: Instant, rnd: Entropy)
      requires At(now)
      modifies this
      ensures View() == Dhcp4.SendReboot(old(View()), rnd)
      ensures start == old(start)
    {
      hide Executed, Execute, Emit, Params.Split, Keeps, Carries, Dhcp4.Set, Dhcp4.Cancel;
      var msg := Base(Request);
      msg := msg.(requested := rebootAddr);
      state := Rebooting;
      requestSentAt := now;
      Tell(Send(msg, Broadcast));
      Set(TimerRetransmit, Backoff.Delay(params.request, retransmits, rnd));
    }

    method SendRenewal(now: Instant)
      requires At(now)
      modifies this
      ensures View() == Dhcp4.SendRenewal(old(View()))
      ensures start == old(start)
    {
      hide Executed, Execute, Emit, Params.Split, Keeps, Carries, Dhcp4.Set, Dhcp4.Cancel, RenewalDelay;
      var msg := Base(Request);
      msg := msg.(ciaddr := Client().Held().addr);
      requestSentAt := now;
      var dest := Broadcast;
      if state == Renewing && Client().Held().serverID.Some? {
        dest := Unicast(Client().Held().serverID.value);
      }
      Tell(Send(msg, dest));
      Set(TimerRetransmit, RenewalDelay(Client(), now));
    }

    method SendDecline(rnd: Entropy)
      modifies this
      ensures View() == Dhcp4.SendDecline(old(View()), rnd)
      ensures start == old(start)
    {
      var l := Client().HeldOrProbing();
      if Nameable(l) {
        Tell(Send(Outgoing(Decline, params.Split(rnd, 4) % 0x1_0000_0000, 0, Some(l.addr), l.serverID, ""), Broadcast));
      }
    }

    method SendRelease(rnd: Entropy)
      modifies this
      ensures View() == Dhcp4.SendRelease(old(View()), rnd)
      ensures start == old(start)
    {
      var l := Client().HeldOrProbing();
      if Nameable(l) {
        Tell(Send(Outgoing(Kind.Release, params.Split(rnd, 5) % 0x1_0000_0000, l.addr, None, l.serverID, ""),
                  Unicast(l.serverID.value)));
      }
    }

    // ------------------------------------------------------- transitions --

    method AcdIdle()
      modifies this, detector
      ensures View() == old(View()).(m := AcdStopped(old(Client())))
      ensures start == old(start)
    {
      if detector != null {
        detector.Stop();
      }
      probing, arpAction := None, None;
    }

    method ToInitIdle()
      modifies this, detector
      ensures View() == Dhcp4.ToInitIdle(old(View()))
      ensures start == old(start)
    {
      hide Executed, Execute, Emit, Params.Split, Keeps, Carries, Dhcp4.Set, Dhcp4.Cancel, Dhcp4.CancelAll;
      state, offer, retransmits := Init, None, 0;
      AcdIdle();
      CancelAll();
    }

    method DropLease(why: Reason)
      modifies this
      ensures View() == Dhcp4.DropLease(old(View()), why)
      ensures start == old(start)
    {
      hide Executed, Execute, Emit, Params.Split, Keeps, Carries, Dhcp4.Set, Dhcp4.Cancel;
      if lease.None? {
        return;
      }
      lease, key := None, None;
      Cancel(TimerExpire);
      Cancel(TimerRenew);
      Cancel(TimerRebind);
      Tell(LeaseLost(why));
    }

    method Halt(why: Reason)
      modifies this, detector
      ensures View() == Dhcp4.Halt(old(View()), why)
      ensures start == old(start)
    {
      hide Executed, Execute, Emit, Params.Split, Keeps, Carries, Dhcp4.Set, Dhcp4.Cancel, Dhcp4.CancelAll,
           Dhcp4.DropLease;
      DropLease(why);
      AcdIdle();
      CancelAll();
      Rest();
    }

    method Rest()
      modifies this
      ensures View() == old(View()).(m := old(Client()).(state := Stopped, offer := None, retransmits := 0,
                                                         sendFailures := 0, restarts := 0))
    {
      Forget();
      state, restarts := Stopped, 0;
    }

    method ReleaseLease(rnd: Entropy)
      modifies this, detector
      ensures View() == Dhcp4.ReleaseLease(old(View()), rnd)
      ensures start == old(start)
    {
      hide Executed, Execute, Emit, Params.Split, Keeps, Carries, Dhcp4.Set, Dhcp4.Cancel, Dhcp4.Halt,
           Dhcp4.SendRelease;
      SendRelease(rnd);
      Halt(ReasonReleased);
    }

    method TakeResume(now: Instant) returns (rebooting: bool)
      requires At(now)
      modifies this
      ensures (View(), rebooting) == Dhcp4.TakeResume(old(View()))
      ensures start == old(start)
    {
      if resume.None? {
        return false;
      }
      var r := resume.value;
      resume := None;
      if !r.Live(now) {
        return false;
      }
      rebootAddr := Some(r.addr);
      return true;
    }

    method BeginAcquisition(now: Instant, rnd: Entropy, withDesync: bool)
      requires At(now)
      modifies this, detector
      ensures View() == Dhcp4.BeginAcquisition(old(View()), rnd, withDesync)
      ensures start == old(start)
    {
      hide Executed, Execute, Emit, Params.Split, Keeps, Carries, Dhcp4.Set, Dhcp4.Cancel, Dhcp4.SendReboot,
           Dhcp4.SendDiscover, Dhcp4.CancelAll;
      OpenTransaction(params.Split(rnd, 0) % 0x1_0000_0000);
      CancelAll();
      var rebooting := TakeResume(now);
      if rebooting {
        SendReboot(now, params.Split(rnd, 3));
        return;
      }
      var d := 0;
      if withDesync {
        d := params.Desync(params.Split(rnd, 2));
      }
      if d <= 0 {
        SendDiscover(now, params.Split(rnd, 3));
        return;
      }
      Set(TimerDesync, d);
    }

    /** The attempt under way is over. */
    method Forget()
      modifies this
      ensures View() == old(View()).(m := old(Client()).(retransmits := 0, sendFailures := 0, offer := None))
    {
      retransmits, sendFailures, offer := 0, 0, None;
    }

    method OpenTransaction(id: nat)
      modifies this
      ensures View() == old(View()).(m := old(Client()).(retransmits := 0, sendFailures := 0, offer := None,
                                                         rebootAddr := None, xid := id, state := Init))
    {
      Forget();
      rebootAddr, xid, state := None, id, Init;
    }

    method RestartPaced(now: Instant, rnd: Entropy, withDesync: bool)
      requires At(now)
      modifies this, detector
      ensures View() == Dhcp4.RestartPaced(old(View()), rnd, withDesync)
      ensures start == old(start)
    {
      hide Executed, Execute, Emit, Params.Split, Keeps, Carries, Dhcp4.Set, Dhcp4.Cancel, Dhcp4.BeginAcquisition,
           Dhcp4.ToInitIdle, Backoff.Delay;
      var n := restarts;
      restarts := n + 1;
      if n == 0 {
        BeginAcquisition(now, rnd, withDesync);
        return;
      }
      ToInitIdle();
      Set(TimerRestart, Backoff.Delay(params.discover, n - 1, params.Split(rnd, 4)));
    }

    method DeclineAndRestart(now: Instant, rnd: Entropy)
      requires At(now)
      modifies this, detector
      ensures View() == Dhcp4.DeclineAndRestart(old(View()), rnd)
      ensures start == old(start)
    {
      hide Executed, Execute, Emit, Params.Split, Keeps, Carries, Dhcp4.Set, Dhcp4.Cancel, Dhcp4.SendDecline,
           Dhcp4.DropLease;
      SendDecline(rnd);
      DropLease(ReasonConflict);
      var limited := detector != null && detector.View().RateLimited();
      ToInitIdle();
      var d := params.RestartDelay();
      if limited {
        d := detector.View().RestartDelay(now, d);
      }
      Set(TimerRestart, d);
    }

    method ArmDeadline(now: Instant, t: TimerID, at: Option<Instant>)
      requires At(now)
      modifies this
      ensures View() == Dhcp4.ArmDeadline(old(View()), t, at)
      ensures start == old(start)
    {
      if at.None? {
        Cancel(t);
        return;
      }
      var d := at.value - now;
      if d < 0 {
        d := 0;
      }
      Set(t, d);
    }

    method SettleForcerenew(l: Lease, renewal: bool) returns (settled: Lease)
      modifies this
      ensures (key, settled) == Dhcp4.SettleForcerenew(old(Client()), l, renewal)
      ensures start == old(start)
      ensures View() == old(View()).(m := old(Client()).(key := key))
      ensures start == old(start)
    {
      settled := l;
      if l.nonce.Some? {
        var same := renewal && key.Some? && key.value.nonce == l.nonce.value;
        if same && key.value.floor > l.replay {
          settled := l.(replay := key.value.floor);
        }
        key := Some(Key(l.nonce.value, settled.replay));
        return;
      }
      if renewal && key.Some? && l.serverID == Client().Held().serverID {
        settled := l.(nonce := Some(key.value.nonce), replay := key.value.floor);
        return;
      }
      key := None;
      settled := l.(nonce := None, replay := 0);
    }

    method Bind(now: Instant, l: Lease, renewal: bool)
      requires At(now)
      modifies this
      ensures View() == Dhcp4.Bind(old(View()), l, renewal)
      ensures start == old(start)
    {
      hide Executed, Execute, Emit, Params.Split, Keeps, Carries, Dhcp4.ArmDeadline, Lease.Deadlines,
           Dhcp4.SettleForcerenew;
      var hadPrev := lease.Some?;
      Cancel(TimerRetransmit);
      var settled := SettleForcerenew(l, renewal && hadPrev);
      var d := settled.Deadlines();
      Adopt(settled, d.expire.None? || d.expire.value - now > 0);
      ArmDeadline(now, TimerExpire, d.expire);
      ArmDeadline(now, TimerRenew, d.renew);
      ArmDeadline(now, TimerRebind, d.rebind);
    }

    method Adopt(l: Lease, holds: bool)
      modifies this
      ensures View() == old(View()).(m := old(Client()).(lease := Some(l), state := State.Bound, offer := None,
                                                         retransmits := 0, sendFailures := 0,
                                                         restarts := if holds then 0 else old(restarts)))
    {
      Forget();
      lease, state := Some(l), State.Bound;
      if holds {
        restarts := 0;
      }
    }

    method EnterBoundNew(now: Instant, rnd: Entropy, l: Lease)
      requires At(now)
      modifies this
      ensures View() == Dhcp4.EnterBoundNew(old(View()), rnd, l)
      ensures start == old(start)
    {
      hide Executed, Execute, Emit, Params.Split, Keeps, Carries, Dhcp4.Set, Dhcp4.Cancel, Dhcp4.Bind,
           Dhcp4.AnnounceHostname;
      Bind(now, l, false);
      Tell(LeaseAcquired(Client().Held(), Client().RequestedAddr()));
      AnnounceHostname(now, rnd);
    }

    method EnterBoundRenewed(now: Instant, rnd: Entropy, l: Lease)
      requires At(now)
      modifies this, detector
      ensures View() == Dhcp4.EnterBoundRenewed(old(View()), rnd, l)
      ensures start == old(start)
    {
      hide Executed, Execute, Emit, Params.Split, Keeps, Carries, Dhcp4.Set, Dhcp4.Cancel, Dhcp4.Bind, Dhcp4.StartAcd;
      var prev := lease;
      Bind(now, l, true);
      var settled := Client().Held();
      Tell(LeaseRenewed(settled));
      if prev.Some? && !prev.value.Equal(settled) {
        if prev.value.addr != settled.addr || prev.value.bits != settled.bits {
          StartAcd(now, rnd, settled.addr);
        }
        Tell(LeaseChanged(settled));
      }
    }

    method AnnounceHostname(now: Instant, rnd: Entropy)
      requires At(now)
      modifies this
      ensures View() == Dhcp4.AnnounceHostname(old(View()), rnd)
      ensures start == old(start)
    {
      hide Executed, Execute, Emit, Params.Split, Keeps, Carries, Dhcp4.Set, Dhcp4.Cancel, Dhcp4.EnterRenewing,
           Dhcp4.SendRenewal;
      if params.sendsFQDN || hostname == nameOnWire || hostname == "" {
        return;
      }
      match state {
        case Bound => EnterRenewing(now, rnd);
        case Renewing => SendRenewal(now);
        case Rebinding => SendRenewal(now);
        case _ =>
      }
    }

    method BeginRenewalTransaction(rnd: Entropy)
      modifies this
      ensures View() == old(View()).(m := BeginRenewal(old(Client()), rnd))
      ensures start == old(start)
    {
      Forget();
      xid := params.Split(rnd, 0) % 0x1_0000_0000;
    }

    method EnterRenewing(now: Instant, rnd: Entropy)
      requires At(now)
      modifies this
      ensures View() == Dhcp4.EnterRenewing(old(View()), rnd)
      ensures start == old(start)
    {
      hide Executed, Execute, Emit, Params.Split, Keeps, Carries, Dhcp4.Set, Dhcp4.Cancel, Dhcp4.SendRenewal;
      if !NamesServer(Client().Held()) {
        return;
      }
      BeginRenewalTransaction(rnd);
      state := Renewing;
      SendRenewal(now);
    }

    method EnterRebinding(now: Instant, rnd: Entropy, opening: bool)
      requires At(now)
      modifies this
      ensures View() == Dhcp4.EnterRebinding(old(View()), rnd, opening)
      ensures start == old(start)
    {
      hide Executed, Execute, Emit, Params.Split, Keeps, Carries, Dhcp4.Set, Dhcp4.Cancel, Dhcp4.SendRenewal;
      if opening {
        BeginRenewalTransaction(rnd);
      }
      state := Rebinding;
      SendRenewal(now);
    }

    method TakeHostname(now: Instant, rnd: Entropy, name: string)
      requires At(now)
      modifies this
      ensures View() == Dhcp4.TakeHostname(old(View()), rnd, name)
      ensures start == old(start)
    {
      hide Executed, Execute, Emit, Params.Split, Keeps, Carries, Dhcp4.Set, Dhcp4.Cancel, Dhcp4.AnnounceHostname;
      if params.sendsFQDN || !ValidHostname(name) {
        return;
      }
      hostname := name;
      AnnounceHostname(now, rnd);
    }

    // ------------------------------------------------ conflict detection --

    method AfterAck(now: Instant, rnd: Entropy, l: Lease)
      requires At(now)
      modifies this, detector
      ensures View() == Dhcp4.AfterAck(old(View()), rnd, l)
      ensures start == old(start)
    {
      hide Executed, Execute, Emit, Params.Split, Keeps, Carries, Dhcp4.Set, Dhcp4.Cancel, Dhcp4.StartAcd,
           Dhcp4.EnterBoundNew, Dhcp4.EnterProbing;
      match params.conflict {
        case ConflictWait => EnterProbing(now, rnd, l);
        case ConflictAsync =>
          StartAcd(now, rnd, l.addr);
          EnterBoundNew(now, rnd, l);
        case ConflictOff => EnterBoundNew(now, rnd, l);
      }
    }

    method EnterProbing(now: Instant, rnd: Entropy, l: Lease)
      requires At(now)
      modifies this, detector
      ensures View() == Dhcp4.EnterProbing(old(View()), rnd, l)
      ensures start == old(start)
    {
      hide Executed, Execute, Emit, Params.Split, Keeps, Carries, Dhcp4.Set, Dhcp4.Cancel, Dhcp4.StartAcd;
      Cancel(TimerRetransmit);
      HoldBack(l);
      StartAcd(now, rnd, l.addr);
    }

    method HoldBack(l: Lease)
      modifies this
      ensures View() == old(View()).(m := old(Client()).(probing := Some(l), state := State.Probing, offer := None,
                                                         retransmits := 0, sendFailures := 0))
    {
      Forget();
      probing, state := Some(l), State.Probing;
    }

    method SendARPPacket(senderIP: Addr)
      modifies this
      ensures View() == EmitARP(old(View()), senderIP)
      ensures start == old(start)
    {
      hide Executed, Execute, Emit, Params.Split, Keeps, Carries, Dhcp4.Set, Dhcp4.Cancel;
      var id := Stamp(SendARP(senderIP, AcdAddr(Client())));
      arpAction := Some(id);
    }

    method AcdReady(now: Instant, rnd: Entropy)
      requires At(now)
      modifies this
      ensures View() == Dhcp4.Apply(old(View()), rnd, Acd.Ready)
      ensures start == old(start)
    {
      hide Executed, Execute, Emit, Params.Split, Keeps, Carries, Dhcp4.Set, Dhcp4.Cancel, Dhcp4.EnterBoundNew;
      if probing.None? {
        return;
      }
      var l := probing.value;
      probing := None;
      EnterBoundNew(now, rnd, l);
    }

    method Apply(now: Instant, rnd: Entropy, o: Acd.Output)
      requires At(now)
      modifies this, detector
      ensures View() == Dhcp4.Apply(old(View()), rnd, o)
      ensures start == old(start)
    {
      hide Executed, Execute, Emit, Params.Split, Keeps, Carries, Dhcp4.Set, Dhcp4.Cancel, Dhcp4.DeclineAndRestart,
           Dhcp4.EnterBoundNew, EmitARP;
      match o {
        case SetTimer(after) => Set(TimerACD, after);
        case CancelTimer => Cancel(TimerACD);
        case SendProbe => SendARPPacket(0);
        case SendAnnounce => SendARPPacket(AcdAddr(Client()));
        case Ready => AcdReady(now, rnd);
        case Conflict =>
          var held := lease.Some?;
          DeclineAndRestart(now, rnd);
          if !held {
            Tell(Failed(ReasonConflict));
          }
      }
    }

    method ApplyAcd(now: Instant, rnd: Entropy, outs: seq<Acd.Output>)
      requires At(now)
      modifies this, detector
      ensures View() == ApplyAll(old(View()), rnd, outs)
      ensures start == old(start)
    {
      hide Executed, Execute, Emit, Params.Split, Keeps, Carries, Dhcp4.Set, Dhcp4.Cancel, Dhcp4.Apply;
      var n := 0;
      while n < |outs|
        invariant n <= |outs|
        invariant View() == ApplyAll(old(View()), rnd, outs[..n]) && start == old(start)
      {
        assert outs[..n + 1][..n] == outs[..n];
        Apply(now, rnd, outs[n]);
        n := n + 1;
      }
      assert outs[..n] == outs;
    }

    method StartAcd(now: Instant, rnd: Entropy, addr: Addr)
      requires At(now)
      modifies this, detector
      ensures View() == Dhcp4.StartAcd(old(View()), rnd, addr)
      ensures start == old(start)
    {
      hide Executed, ApplyAll;
      if detector == null {
        return;
      }
      var outs := detector.Start(now, rnd, addr);
      ghost var c := View();
      ApplyAcd(now, rnd, outs);
      Invariant.ApplyOne(c, rnd, outs[0]);
    }

    method AcdTimer(now: Instant, rnd: Entropy)
      requires At(now)
      modifies this, detector
      ensures View() == Dhcp4.AcdTimer(old(View()), rnd)
      ensures start == old(start)
    {
      hide Executed, ApplyAll;
      if detector == null {
        return;
      }
      var outs := detector.Timer(rnd);
      ApplyAcd(now, rnd, outs);
    }

    method OnArp(now: Instant, rnd: Entropy, pkt: Option<Acd.Packet>)
      requires At(now)
      modifies this, detector
      ensures View() == Dhcp4.OnArp(old(View()), rnd, pkt)
      ensures start == old(start)
    {
      hide Executed, ApplyAll;
      if detector == null || pkt.None? {
        return;
      }
      var outs := detector.Arp(pkt.value);
      ApplyAcd(now, rnd, outs);
    }

    // -------------------------------------------------------- forcerenew --

    method Refuse(why: Refusal)
      modifies this
      ensures View() == Dhcp4.Refuse(old(View()), why)
      ensures start == old(start)
    {
      counts := counts.(refused := counts.refused + multiset{why});
    }

    /** The checks one by one, each with its own refusal. */
    method CheckForcerenew(msg: Message, raw: Option<Frame>, dst: Option<Addr>) returns (fault: Option<Refusal>)
      ensures fault == ForcerenewFault(Client(), msg, raw, dst)
    {
      hide IsUnicast;
      if state != State.Bound && state != Renewing && state != Rebinding {
        return Some(WrongState);
      }
      if raw.None? {
        return Some(NoRaw);
      }
      if !IsUnicast(dst, Client().Held()) {
        return Some(NotUnicast);
      }
      var own := Client().Held().addr;
      if dst != Some(own) {
        return Some(NotOurAddress);
      }
      if !msg.reply || msg.chaddr != params.chaddr || msg.ciaddr != own {
        return Some(NotThisClient);
      }
      if key.None? {
        return Some(NoNonce);
      }
      match msg.auth {
        case NoAuth => return Some(NoDigest);
        case MalformedAuth => return Some(MalformedDigest);
        case NonceAuth(_, _) => return Some(MalformedDigest);
        case DigestAuth(replay) =>
          if replay <= key.value.floor {
            return Some(Replayed);
          }
      }
      if !raw.value.readable {
        return Some(MalformedDigest);
      }
      if key.value.nonce !in raw.value.verifiesUnder {
        return Some(BadDigest);
      }
      if state == State.Bound && !NamesServer(Client().Held()) {
        return Some(NoServer);
      }
      return None;
    }

    method TakeForcerenew(now: Instant, rnd: Entropy, msg: Message, raw: Option<Frame>, dst: Option<Addr>)
      requires At(now)
      modifies this
      ensures View() == Dhcp4.TakeForcerenew(old(View()), rnd, msg, raw, dst)
      ensures start == old(start)
    {
      hide Executed, Execute, Emit, Params.Split, Keeps, Carries, IsUnicast, Dhcp4.EnterRenewing, Dhcp4.Refuse;
      var fault := CheckForcerenew(msg, raw, dst);
      if fault.Some? {
        Refuse(fault.value);
        return;
      }
      key := Some(key.value.(floor := msg.auth.replay));
      if state != State.Bound {
        counts := counts.(alreadyRenewing := counts.alreadyRenewing + 1);
        return;
      }
      counts := counts.(renewed := counts.renewed + 1);
      EnterRenewing(now, rnd);
    }

    // -------------------------------------------------------- each state --

    method TransportFailed()
      modifies this, detector
      ensures View() == Dhcp4.TransportFailed(old(View()))
      ensures start == old(start)
    {
      hide Executed, Execute, Emit, Params.Split, Keeps, Carries, Dhcp4.DropLease, Dhcp4.ToInitIdle;
      Tell(Failed(ReasonTransport));
      DropLease(ReasonTransport);
      if state != Init {
        ToInitIdle();
      }
    }

    method NoteActionFailed(now: Instant, rnd: Entropy, id: nat)
      requires At(now)
      modifies this, detector
      ensures View() == Dhcp4.NoteActionFailed(old(View()), rnd, id)
      ensures start == old(start)
    {
      hide Executed, Execute, Emit, Params.Split, Keeps, Carries, Dhcp4.Set, Dhcp4.Cancel, Dhcp4.TransportFailed,
           RenewalDelay, Backoff.Delay;
      if arpAction == Some(id) {
        arpAction := None;
        return;
      }
      sendFailures := sendFailures + 1;
      if state == Renewing || state == Rebinding {
        Set(TimerRetransmit, RenewalDelay(Client(), now));
        return;
      }
      if params.maxSendFailures > 0 && sendFailures >= params.maxSendFailures {
        TransportFailed();
        return;
      }
      if state == Selecting {
        Set(TimerRetransmit, Backoff.Delay(params.discover, retransmits, rnd));
      } else if state == Requesting || state == Rebooting {
        Set(TimerRetransmit, Backoff.Delay(params.request, retransmits, rnd));
      }
    }

    method GiveUp(now: Instant, rnd: Entropy)
      requires At(now)
      modifies this, detector
      ensures View() == Dhcp4.GiveUp(old(View()), rnd)
      ensures start == old(start)
    {
      hide Executed, Execute, Emit, Params.Split, Keeps, Carries, Dhcp4.Set, Dhcp4.Cancel, Dhcp4.BeginAcquisition;
      Tell(Failed(ReasonNoServer));
      BeginAcquisition(now, params.Split(rnd, 1), false);
    }

    method TakeNak(now: Instant, rnd: Entropy)
      requires At(now)
      modifies this, detector
      ensures View() == Dhcp4.TakeNak(old(View()), rnd)
      ensures start == old(start)
    {
      hide Executed, Execute, Emit, Params.Split, Keeps, Carries, Dhcp4.Set, Dhcp4.Cancel, Dhcp4.RestartPaced;
      Cancel(TimerRetransmit);
      Tell(Failed(ReasonNak));
      RestartPaced(now, params.Split(rnd, 1), false);
    }

    method StepStopped(now: Instant, rnd: Entropy, ev: Event)
      requires At(now)
      modifies this, detector
      ensures View() == Dhcp4.StepStopped(old(View()), rnd, ev)
      ensures start == old(start)
    {
      hide Executed, Execute, Emit, Params.Split, Keeps, Carries, Dhcp4.Set, Dhcp4.Cancel, Dhcp4.BeginAcquisition,
           Dhcp4.TakeHostname;
      match ev {
        case Start => BeginAcquisition(now, rnd, true);
        case SetHostname(name) => TakeHostname(now, rnd, name);
        case _ =>
      }
    }

    method StepInit(now: Instant, rnd: Entropy, ev: Event)
      requires At(now)
      modifies this, detector
      ensures View() == Dhcp4.StepInit(old(View()), rnd, ev)
      ensures start == old(start)
    {
      hide Executed, Execute, Emit, Params.Split, Keeps, Carries, Dhcp4.Set, Dhcp4.Cancel, Dhcp4.BeginAcquisition,
           Dhcp4.TakeHostname, Dhcp4.Halt, Dhcp4.SendDiscover, Dhcp4.NoteActionFailed;
      match ev {
        case Start => BeginAcquisition(now, rnd, true);
        case Stop => Halt(ReasonStopped);
        case Release => Halt(ReasonReleased);
        case TimerFired(t) =>
          match t {
            case TimerDesync => SendDiscover(now, rnd);
            case TimerRestart => BeginAcquisition(now, rnd, false);
            case _ =>
          }
        case LinkUp => BeginAcquisition(now, rnd, true);
        case ActionFailed(id) => NoteActionFailed(now, rnd, id);
        case SetHostname(name) => TakeHostname(now, rnd, name);
        case _ =>
      }
    }

    method StepSelecting(now: Instant, rnd: Entropy, ev: Event)
      requires At(now)
      modifies this, detector
      ensures View() == Dhcp4.StepSelecting(old(View()), rnd, ev)
      ensures start == old(start)
    {
      hide Executed, Execute, Emit, Params.Split, Keeps, Carries, Dhcp4.Set, Dhcp4.Cancel, Dhcp4.GiveUp,
           Dhcp4.TakeHostname, Dhcp4.Halt, Dhcp4.SendDiscover, Dhcp4.NoteActionFailed, Dhcp4.SendRequest,
           Dhcp4.ToInitIdle;
      match ev {
        case Stop => Halt(ReasonStopped);
        case Release => Halt(ReasonReleased);
        case Received(msg, _, _) =>
          if Acceptable(Client(), msg) && msg.value.kind == Some(Offer) {
            var sid := msg.value.serverID;
            if msg.value.yiaddr != 0 && sid.Some? && sid.value != 0 {
              offer, retransmits := msg, 0;
              SendRequest(now, rnd);
            }
          }
        case TimerFired(t) =>
          if t == TimerRetransmit {
            if params.discover.Exhausted(retransmits) {
              GiveUp(now, rnd);
            } else {
              retransmits := retransmits + 1;
              SendDiscover(now, rnd);
            }
          }
        case LinkDown => ToInitIdle();
        case ActionFailed(id) => NoteActionFailed(now, rnd, id);
        case SetHostname(name) => TakeHostname(now, rnd, name);
        case _ =>
      }
    }

    method StepRequesting(now: Instant, rnd: Entropy, ev: Event)
      requires At(now)
      modifies this, detector
      ensures View() == Dhcp4.StepRequesting(old(View()), rnd, ev)
      ensures start == old(start)
    {
      hide Executed, Execute, Emit, Params.Split, Keeps, Carries, Dhcp4.Set, Dhcp4.Cancel, Dhcp4.GiveUp,
           Dhcp4.TakeHostname, Dhcp4.Halt, Dhcp4.TakeNak, Dhcp4.NoteActionFailed, Dhcp4.SendRequest, Dhcp4.ToInitIdle,
           Dhcp4.AfterAck, Dhcp4.RestartPaced;
      match ev {
        case Stop => Halt(ReasonStopped);
        case Release => Halt(ReasonReleased);
        case Received(msg, _, _) =>
          if Acceptable(Client(), msg) {
            if msg.value.kind == Some(Ack) {
              if LacksNonce(Client(), msg.value) {
                counts := counts.(ackRefused := counts.ackRefused + 1);
                RestartPaced(now, params.Split(rnd, 1), true);
              } else {
                var l := LeaseFromAck(msg.value, requestSentAt);
                if l.Some? {
                  AfterAck(now, rnd, l.value);
                }
              }
            } else if msg.value.kind == Some(Nak) {
              TakeNak(now, rnd);
            }
          }
        case TimerFired(t) =>
          if t == TimerRetransmit {
            if params.request.Exhausted(retransmits) {
              GiveUp(now, rnd);
            } else {
              retransmits := retransmits + 1;
              SendRequest(now, rnd);
            }
          }
        case LinkDown => ToInitIdle();
        case ActionFailed(id) => NoteActionFailed(now, rnd, id);
        case SetHostname(name) => TakeHostname(now, rnd, name);
        case _ =>
      }
    }

    method StepRebooting(now: Instant, rnd: Entropy, ev: Event)
      requires At(now)
      modifies this, detector
      ensures View() == Dhcp4.StepRebooting(old(View()), rnd, ev)
      ensures start == old(start)
    {
      hide Executed, Execute, Emit, Params.Split, Keeps, Carries, Dhcp4.Set, Dhcp4.Cancel, Dhcp4.GiveUp,
           Dhcp4.TakeHostname, Dhcp4.Halt, Dhcp4.TakeNak, Dhcp4.NoteActionFailed, Dhcp4.SendReboot, Dhcp4.ToInitIdle,
           Dhcp4.AfterAck;
      match ev {
        case Stop => Halt(ReasonStopped);
        case Release => Halt(ReasonReleased);
        case Received(msg, _, _) =>
          if Acceptable(Client(), msg) {
            if msg.value.kind == Some(Ack) {
              var l := LeaseFromAck(msg.value, requestSentAt);
              if l.Some? {
                AfterAck(now, rnd, l.value);
              }
            } else if msg.value.kind == Some(Nak) {
              TakeNak(now, rnd);
            }
          }
        case TimerFired(t) =>
          if t == TimerRetransmit {
            if params.request.Exhausted(retransmits) {
              GiveUp(now, rnd);
            } else {
              retransmits := retransmits + 1;
              SendReboot(now, rnd);
            }
          }
        case LinkDown => ToInitIdle();
        case ActionFailed(id) => NoteActionFailed(now, rnd, id);
        case SetHostname(name) => TakeHostname(now, rnd, name);
        case _ =>
      }
    }

    method StepProbing(now: Instant, rnd: Entropy, ev: Event)
      requires At(now)
      modifies this, detector
      ensures View() == Dhcp4.StepProbing(old(View()), rnd, ev)
      ensures start == old(start)
    {
      hide Executed, Execute, Emit, Params.Split, Keeps, Carries, Dhcp4.Set, Dhcp4.Cancel, Dhcp4.TakeHostname,
           Dhcp4.Halt, Dhcp4.ReleaseLease, Dhcp4.AcdTimer, Dhcp4.OnArp, Dhcp4.DeclineAndRestart, Dhcp4.ToInitIdle,
           Dhcp4.NoteActionFailed;
      match ev {
        case Stop => Halt(ReasonStopped);
        case Release => ReleaseLease(rnd);
        case TimerFired(t) =>
          if t == TimerACD {
            AcdTimer(now, rnd);
          }
        case ARPReceived(pkt) => OnArp(now, rnd, pkt);
        case ConflictDetected => DeclineAndRestart(now, rnd);
        case LinkDown => ToInitIdle();
        case ActionFailed(id) => NoteActionFailed(now, rnd, id);
        case SetHostname(name) => TakeHostname(now, rnd, name);
        case _ =>
      }
    }

    method StepBound(now: Instant, rnd: Entropy, ev: Event)
      requires At(now)
      modifies this, detector
      ensures View() == Dhcp4.StepBound(old(View()), rnd, ev)
      ensures start == old(start)
    {
      hide Executed, Execute, Emit, Params.Split, Keeps, Carries, Dhcp4.Set, Dhcp4.Cancel, Dhcp4.TakeHostname,
           Dhcp4.Halt, Dhcp4.ReleaseLease, Dhcp4.AcdTimer, Dhcp4.OnArp, Dhcp4.DropLease, Dhcp4.DeclineAndRestart,
           Dhcp4.ToInitIdle, Dhcp4.NoteActionFailed, Dhcp4.RestartPaced, Dhcp4.BeginAcquisition, Dhcp4.EnterRenewing,
           Dhcp4.EnterRebinding;
      match ev {
        case Stop => Halt(ReasonStopped);
        case TimerFired(t) =>
          match t {
            case TimerExpire =>
              DropLease(ReasonExpired);
              RestartPaced(now, rnd, false);
            case TimerRenew => EnterRenewing(now, rnd);
            case TimerRebind => EnterRebinding(now, rnd, true);
            case TimerACD => AcdTimer(now, rnd);
            case _ =>
          }
        case LinkDown =>
          DropLease(ReasonLinkDown);
          ToInitIdle();
        case AddressLost =>
          DropLease(ReasonAddressLost);
          BeginAcquisition(now, rnd, false);
        case ConflictDetected => DeclineAndRestart(now, rnd);
        case ARPReceived(pkt) => OnArp(now, rnd, pkt);
        case Release => ReleaseLease(rnd);
        case ActionFailed(id) => NoteActionFailed(now, rnd, id);
        case SetHostname(name) => TakeHostname(now, rnd, name);
        case _ =>
      }
    }

    method StepRenewal(now: Instant, rnd: Entropy, ev: Event)
      requires At(now)
      modifies this, detector
      ensures View() == Dhcp4.StepRenewal(old(View()), rnd, ev)
      ensures start == old(start)
    {
      hide Executed, Execute, Emit, Params.Split, Keeps, Carries, Dhcp4.Set, Dhcp4.Cancel, Dhcp4.TakeHostname,
           Dhcp4.Halt, Dhcp4.ReleaseLease, Dhcp4.AcdTimer, Dhcp4.OnArp, Dhcp4.DropLease, Dhcp4.DeclineAndRestart,
           Dhcp4.ToInitIdle, Dhcp4.NoteActionFailed, Dhcp4.RestartPaced, Dhcp4.BeginAcquisition, Dhcp4.SendRenewal,
           Dhcp4.EnterRebinding, Dhcp4.EnterBoundRenewed;
      match ev {
        case Stop => Halt(ReasonStopped);
        case Release => ReleaseLease(rnd);
        case ConflictDetected => DeclineAndRestart(now, rnd);
        case ARPReceived(pkt) => OnArp(now, rnd, pkt);
        case Received(msg, _, _) =>
          if Acceptable(Client(), msg) {
            if msg.value.kind == Some(Ack) {
              var l := LeaseFromAck(msg.value, requestSentAt);
              if l.Some? {
                EnterBoundRenewed(now, rnd, l.value);
              }
            } else if msg.value.kind == Some(Nak) {
              DropLease(ReasonNak);
              Tell(Failed(ReasonNak));
              RestartPaced(now, params.Split(rnd, 1), false);
            }
          }
        case TimerFired(t) =>
          match t {
            case TimerRetransmit => SendRenewal(now);
            case TimerRebind =>
              if state == Renewing {
                EnterRebinding(now, rnd, false);
              }
            case TimerExpire =>
              DropLease(ReasonExpired);
              RestartPaced(now, rnd, false);
            case TimerACD => AcdTimer(now, rnd);
            case _ =>
          }
        case LinkDown =>
          DropLease(ReasonLinkDown);
          ToInitIdle();
        case AddressLost =>
          DropLease(ReasonAddressLost);
          BeginAcquisition(now, rnd, false);
        case ActionFailed(id) => NoteActionFailed(now, rnd, id);
        case SetHostname(name) => TakeHostname(now, rnd, name);
        case _ =>
      }
    }
  }
}
