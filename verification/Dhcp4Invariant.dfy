/** What every step of the DHCPv4 client keeps: which timers run in which
    state, the expiry that is always armed, and the conflict sub-machine
    watching exactly the address in use. */
module Dhcp4Invariant {
  import opened Clock
  import opened Lease
  import opened Dhcp4
  import Acd
  import Backoff

  /** The events the environment may deliver: time does not run backwards,
      and a timer fires only when it is armed and due. */
  predicate Admissible(e: Env, now: Instant, ev: Event) {
    e.now <= now && (ev.TimerFired? ==> e.armed.At(ev.timer).Some? && e.armed.At(ev.timer).value <= now)
  }

  /** No armed deadline is let pass. */
  predicate Prompt(e: Env, now: Instant) {
    forall t :: e.armed.At(t).Some? ==> now <= e.armed.At(t).value
  }

  function Deliver(e: Env, now: Instant, ev: Event): Env {
    e.(now := now, armed := if ev.TimerFired? then e.armed.With(ev.timer, None) else e.armed)
  }

  function Advance(m: Client, e: Env, now: Instant, rnd: Entropy, ev: Event): Ctx {
    StepBody(Begin(m, Deliver(e, now, ev)), rnd, ev)
  }

  predicate HoldsLease(s: State) { s.Bound? || s.Renewing? || s.Rebinding? }

  /** Facts no transition touches halfway. */
  predicate Sound(m: Client, e: Env) {
    && m.params.Valid()
    && (m.acd.Some? <==> !m.params.conflict.ConflictOff?)
    && (m.acd.Some? ==> m.acd.value.params == m.params.acd && m.acd.value.hw == m.params.LinkHW())
    && (m.key.Some? ==> m.lease.Some?)
    && e.held == m.lease && e.coherent
  }

  predicate Ticking(p: Acd.Phase) { p.Probing? || p.Settling? || p.Announcing? }

  /** The sub-machine runs on this address, with its timer armed exactly while
      it has something left to send or to wait for. */
  predicate Watching(m: Client, e: Env, addr: Addr) {
    match m.acd
    case None => e.armed.acd.None?
    case Some(a) =>
      && !a.phase.Idle? && a.addr == Some(addr)
      && (e.armed.acd.Some? <==> Ticking(a.phase))
      && 0 <= a.sent && (a.phase.Probing? ==> a.sent < a.params.probeNum)
      && (a.phase.Announcing? ==> a.sent < a.params.announceNum)
  }

  /** A finite lease has its expiry armed for its end, or for the moment it
      was taken if that was already later. */
  predicate ExpiryArmed(l: Lease, e: Env) {
    e.armed.expire == if l.Infinite() then None else Some(Max(l.Expire(), e.heldAt))
  }

  predicate HeldRule(m: Client, e: Env) {
    && m.lease.Some? && m.probing.None?
    && ExpiryArmed(m.lease.value, e) && Watching(m, e, m.lease.value.addr)
    && e.armed.desync.None? && e.armed.restart.None?
  }

  /** No timer but t runs. */
  predicate Only(e: Env, t: TimerID) { e.armed.With(t, None) == NO_TIMERS }

  predicate Exactly(e: Env, t: TimerID) { Only(e, t) && e.armed.At(t).Some? }

  /** The timers a state runs. */
  predicate StateRule(m: Client, e: Env) {
    match m.state
    case Stopped => e.armed == NO_TIMERS && m.lease.None? && m.probing.None? && m.restarts == 0
    case Init => (Only(e, TimerDesync) || Only(e, TimerRestart)) && m.lease.None? && m.probing.None?
    case Selecting => Exactly(e, TimerRetransmit) && m.lease.None? && m.probing.None?
    case Requesting => Exactly(e, TimerRetransmit) && m.lease.None? && m.probing.None? && m.offer.Some?
    case Rebooting => Exactly(e, TimerRetransmit) && m.lease.None? && m.probing.None?
    case Probing =>
      && Exactly(e, TimerACD) && m.lease.None? && m.probing.Some? && m.params.conflict.ConflictWait?
      && Watching(m, e, m.probing.value.addr) && (m.acd.value.phase.Probing? || m.acd.value.phase.Settling?)
    case Bound => HeldRule(m, e) && e.armed.retransmit.None?
    case Renewing => HeldRule(m, e) && e.armed.retransmit.Some? && NamesServer(m.lease.value)
    case Rebinding => HeldRule(m, e) && e.armed.retransmit.Some?
  }

  predicate Inv(m: Client, e: Env) { Sound(m, e) && StateRule(m, e) }

  predicate InForce(l: Lease, now: Instant) { l.Infinite() || l.Expire() > now }

  /** The restart count moves by one at a time, and from the second on only
      into INIT, where the client then waits out the discover schedule; it is
      cleared only by stopping or by a lease still in force. */
  ghost predicate Pace(c: Ctx, r: Ctx) {
    || r.m.restarts == c.m.restarts
    || r.m.state == Stopped
    || (r.m.lease.Some? && InForce(r.m.lease.value, c.env().now))
    || (r.m.restarts == c.m.restarts + 1 && (c.m.restarts > 0 ==> Waits(r, c.env().now, c.m.restarts - 1)))
  }

  ghost predicate Waits(r: Ctx, now: Instant, n: nat) {
    && r.m.state == Init && Exactly(r.env(), TimerRestart)
    && exists rnd: Entropy :: r.env().armed.restart.value == now + Backoff.Delay(r.m.params.discover, n, rnd)
  }

  /** The step neither takes a lease nor starts checking one. */
  ghost predicate Plain(c: Ctx, r: Ctx) {
    !r.m.state.Probing? && r.env().acquired == c.env().acquired && Pace(c, r)
  }

  /** Nothing is held or being checked: where every acquisition starts. */
  predicate Free(c: Ctx) { Sound(c.m, c.env()) && c.m.lease.None? && c.m.probing.None? }

  lemma NewInv(p: Params, now: Instant)
    requires p.Valid()
    ensures Inv(New(p), Env(now, NO_TIMERS, None, now, true, 0, 0, [], [], []))
  {
    hide Executed;
  }

  /** Whatever else is armed, soliciting leaves only the retransmission. */
  lemma SendDiscoverInv(c: Ctx, rnd: Entropy)
    requires Free(c) && Only(c.env(), TimerDesync)
    ensures
      var r := SendDiscover(c, rnd);
      Inv(r.m, r.env()) && r.m.state == Selecting && Plain(c, r)
  {
    hide Executed;
  }

  lemma SendRebootInv(c: Ctx, rnd: Entropy)
    requires Free(c) && Only(c.env(), TimerRetransmit)
    ensures
      var r := SendReboot(c, rnd);
      Inv(r.m, r.env()) && r.m.state == Rebooting && Plain(c, r)
  {
    hide Executed;
  }

  lemma SendRequestInv(c: Ctx, rnd: Entropy)
    requires Free(c) && Only(c.env(), TimerRetransmit)
    ensures
      var r := SendRequest(c, rnd);
      Inv(r.m, r.env()) && (c.m.offer.Some? ==> r.m.state == Requesting) && Plain(c, r)
  {
    hide Executed;
  }

  lemma BeginAcquisitionInv(c: Ctx, rnd: Entropy, withDesync: bool)
    requires Free(c)
    ensures
      var r := BeginAcquisition(c, rnd, withDesync);
      Inv(r.m, r.env()) && (r.m.state.Selecting? || r.m.state.Rebooting? || Exactly(r.env(), TimerDesync))
          && Plain(c, r)
  {
    hide Executed, SendDiscover, SendReboot, CancelAll;
    var p := c.m.params;
    var m := c.m.(retransmits := 0, sendFailures := 0, offer := None, rebootAddr := None,
                  xid := p.Split(rnd, 0) % 0x1_0000_0000, state := Init);
    var (d, rebooting) := TakeResume(CancelAll(c.(m := m)));
    if rebooting {
      SendRebootInv(d, p.Split(rnd, 3));
    } else {
      SendDiscoverInv(d, p.Split(rnd, 3));
    }
  }

  lemma ToInitIdleInv(c: Ctx)
    requires Sound(c.m, c.env()) && c.m.lease.None?
    ensures
      var r := ToInitIdle(c);
      Inv(r.m, r.env()) && r.m.state == Init && r.env().armed == NO_TIMERS && r.env().now == c.env().now && Plain(c, r)
  {
    hide Executed;
  }

  lemma DropLeaseInv(c: Ctx, why: Reason)
    requires Sound(c.m, c.env())
    ensures
      var r := DropLease(c, why);
      && Sound(r.m, r.env()) && r.m.lease.None? && r.m.probing == c.m.probing && r.m.state == c.m.state
      && r.env().now == c.env().now && r.m.restarts == c.m.restarts && r.env().acquired == c.env().acquired
  {
    hide Executed;
  }

  lemma HaltInv(c: Ctx, why: Reason)
    requires Sound(c.m, c.env())
    ensures Inv(Halt(c, why).m, Halt(c, why).env()) && Plain(c, Halt(c, why))
  {
    hide Executed;
    DropLeaseInv(c, why);
  }

  lemma RestartPacedInv(c: Ctx, rnd: Entropy, withDesync: bool)
    requires Free(c)
    ensures Inv(RestartPaced(c, rnd, withDesync).m, RestartPaced(c, rnd, withDesync).env())
            && Plain(c, RestartPaced(c, rnd, withDesync))
  {
    hide Executed, BeginAcquisition, ToInitIdle, Backoff.Delay;
    var d := c.(m := c.m.(restarts := c.m.restarts + 1));
    if c.m.restarts == 0 {
      BeginAcquisitionInv(d, rnd, withDesync);
    } else {
      ToInitIdleInv(d);
      var draw := c.m.params.Split(rnd, 4);
      assert RestartPaced(c, rnd, withDesync).env().armed.restart.value
          == c.env().now + Backoff.Delay(c.m.params.discover, c.m.restarts - 1, draw);
    }
  }

  /** The end every conflict comes to: the server told, the caller told if it
      held the lease, and nothing running but the restart wait. */
  ghost predicate Declined(c: Ctx, r: Ctx) {
    && Inv(r.m, r.env()) && r.m.state == Init && Plain(c, r) && Exactly(r.env(), TimerRestart)
    && r.env().armed.restart.value >= c.env().now + c.m.params.RestartDelay()
    && (c.m.acd.Some? && c.m.acd.value.RateLimited() ==>
          r.env().armed.restart.value >= c.m.acd.value.attemptAt + c.m.params.acd.rateLimitInterval)
    && r.env().told == c.env().told + (if c.m.lease.Some? then [LeaseLost(ReasonConflict)] else [])
    && r.env().sends == c.env().sends + (if Nameable(c.m.HeldOrProbing()) then 1 else 0)
    && r.m.acd == (if c.m.acd.Some? then Some(c.m.acd.value.Stop()) else None)
  }

  lemma DeclineAndRestartInv(c: Ctx, rnd: Entropy)
    requires Sound(c.m, c.env())
    ensures Declined(c, DeclineAndRestart(c, rnd))
  {
    hide Executed, DropLease, ToInitIdle;
    var d := SendDecline(c, rnd);
    assert Sound(d.m, d.env()) && d.m.acd == c.m.acd && d.env().now == c.env().now;
    DropLeaseInv(d, ReasonConflict);
    DropLeaseTells(d, ReasonConflict);
    ToInitIdleInv(DropLease(d, ReasonConflict));
    ToInitIdleSilent(DropLease(d, ReasonConflict));
  }

  lemma SendRenewalInv(c: Ctx)
    requires Sound(c.m, c.env()) && HeldRule(c.m, c.env())
    requires c.m.state.Rebinding? || (c.m.state.Renewing? && NamesServer(c.m.lease.value))
    ensures
      var r := SendRenewal(c);
      && Inv(r.m, r.env()) && r.m.state == c.m.state && Plain(c, r) && r.m.lease == c.m.lease
      && r.env().arps == c.env().arps
  {
    hide Executed, RenewalDelay, Lease.Deadlines;
  }

  lemma EnterRenewingInv(c: Ctx, rnd: Entropy)
    requires Inv(c.m, c.env()) && c.m.state.Bound?
    ensures Inv(EnterRenewing(c, rnd).m, EnterRenewing(c, rnd).env()) && Plain(c, EnterRenewing(c, rnd))
    ensures EnterRenewing(c, rnd).m.lease == c.m.lease && EnterRenewing(c, rnd).env().arps == c.env().arps
  {
    hide Executed, SendRenewal;
    if NamesServer(c.m.Held()) {
      SendRenewalInv(c.(m := BeginRenewal(c.m, rnd).(state := Renewing)));
    }
  }

  lemma EnterRebindingInv(c: Ctx, rnd: Entropy, opening: bool)
    requires Sound(c.m, c.env()) && HeldRule(c.m, c.env())
    ensures Inv(EnterRebinding(c, rnd, opening).m, EnterRebinding(c, rnd, opening).env())
            && Plain(c, EnterRebinding(c, rnd, opening))
  {
    hide Executed, SendRenewal;
    var m := if opening then BeginRenewal(c.m, rnd) else c.m;
    SendRenewalInv(c.(m := m.(state := Rebinding)));
  }

  lemma AnnounceHostnameInv(c: Ctx, rnd: Entropy)
    requires Inv(c.m, c.env())
    ensures
      var r := AnnounceHostname(c, rnd);
      && Inv(r.m, r.env()) && r.env().acquired == c.env().acquired && r.m.lease == c.m.lease
      && (c.m.state.Probing? ==> r == c) && (r.m.state.Probing? ==> c.m.state.Probing?)
      && r.env().arps == c.env().arps
  {
    hide Executed, SendRenewal, EnterRenewing;
    if c.m.state.Bound? {
      EnterRenewingInv(c, rnd);
    } else if c.m.state.Renewing? || c.m.state.Rebinding? {
      SendRenewalInv(c);
    }
  }

  /** Taking a lease arms its three deadlines and nothing else. */
  lemma BindInv(c: Ctx, l: Lease, renewal: bool)
    requires Sound(c.m, c.env())
    ensures
      var r := Bind(c, l, renewal);
      && r.env() == c.env().(armed := r.env().armed)
      && r.env().armed == c.env().armed.(retransmit := None, expire := r.env().armed.expire,
                                         renew := r.env().armed.renew, rebind := r.env().armed.rebind)
      && r.m.lease.Some? && r.m.lease.value.addr == l.addr && r.m.state == Bound
      && r.env().armed.expire
         == (if r.m.lease.value.Infinite() then None else Some(Max(r.m.lease.value.Expire(), c.env().now)))
      && r.m.probing == c.m.probing && r.m.acd == c.m.acd && Pace(c, r)
  {
    hide Executed, Lease.Rebind, Lease.Renew, SettleForcerenew, ArmDeadlines;
    var d := Settled(c, l, renewal);
    SettleKeepsAddress(Cancel(c, TimerRetransmit).m, l, renewal && c.m.lease.Some?);
    DeadlinesArmed(d, d.m.Held().Deadlines());
  }

  lemma SettleKeepsAddress(m: Client, l: Lease, renewal: bool)
    ensures
      var r := SettleForcerenew(m, l, renewal).1;
      r == l.(nonce := r.nonce, replay := r.replay)
  {
    hide Executed;
  }

  lemma EnterBoundNewInv(c: Ctx, rnd: Entropy, l: Lease)
    requires Free(c) && c.env().armed.desync.None? && c.env().armed.restart.None? && Watching(c.m, c.env(), l.addr)
    ensures
      var r := EnterBoundNew(c, rnd, l);
      && Inv(r.m, r.env()) && HoldsLease(r.m.state) && r.m.lease.value.addr == l.addr
      && r.env().acquired == c.env().acquired + 1 && r.env().arps == c.env().arps && Pace(c, r)
  {
    hide Executed, Bind, AnnounceHostname;
    BindInv(c, l, false);
    var b := Bind(c, l, false);
    var d := Emit(b, LeaseAcquired(b.m.Held(), b.m.RequestedAddr()));
    assert Inv(d.m, d.env());
    AnnounceHostnameInv(d, rnd);
  }

  /** A check started now is under way on the new address. */
  lemma StartAcdInv(c: Ctx, rnd: Entropy, addr: Addr)
    requires Sound(c.m, c.env())
    ensures
      var r := StartAcd(c, rnd, addr);
      && Sound(r.m, r.env()) && (c.m.acd.None? ==> r == c)
      && (c.m.acd.Some? ==>
            && r.m == c.m.(acd := r.m.acd, nextAction := r.m.nextAction)
            && r.env() == c.env().(armed := c.env().armed.(acd := r.env().armed.acd))
            && Watching(r.m, r.env(), addr) && r.m.acd.value.phase.Probing? && r.m.acd.value.sent == 0
            && r.env().armed.acd == Some(c.env().now + Uniform(0, c.m.params.acd.probeWait, rnd)))
  {
    hide Executed;
  }

  lemma EnterBoundRenewedInv(c: Ctx, rnd: Entropy, l: Lease)
    requires Sound(c.m, c.env()) && HeldRule(c.m, c.env())
    ensures Inv(EnterBoundRenewed(c, rnd, l).m, EnterBoundRenewed(c, rnd, l).env())
            && Plain(c, EnterBoundRenewed(c, rnd, l))
  {
    hide Executed, Bind, StartAcd;
    BindInv(c, l, true);
    var b := Bind(c, l, true);
    var d := Emit(b, LeaseRenewed(b.m.Held()));
    StartAcdInv(d, rnd, b.m.Held().addr);
  }

  /** A check of this lease begun now, with nothing sent yet. */
  ghost predicate Begun(c: Ctx, l: Lease, r: Ctx) {
    && r.m.state == Probing && r.m.probing == Some(l)
    && r.m.acd.Some? && r.m.acd.value.phase.Probing? && r.m.acd.value.sent == 0
    && r.env().acquired == c.env().acquired && r.env().arps == c.env().arps
    && r.env().armed.acd.Some?
    && c.env().now <= r.env().armed.acd.value <= c.env().now + c.m.params.acd.probeWait
  }

  lemma EnterProbingInv(c: Ctx, rnd: Entropy, l: Lease)
    requires Free(c) && Only(c.env(), TimerRetransmit) && c.m.params.conflict.ConflictWait?
    ensures
      var r := EnterProbing(c, rnd, l);
      Inv(r.m, r.env()) && Begun(c, l, r)
  {
    hide Executed, StartAcd;
    var d := Cancel(c, TimerRetransmit);
    var e := d.(m := d.m.(probing := Some(l), state := Probing, offer := None, retransmits := 0, sendFailures := 0));
    StartAcdInv(e, rnd, l.addr);
  }

  lemma AfterAckInv(c: Ctx, rnd: Entropy, l: Lease)
    requires Free(c) && Only(c.env(), TimerRetransmit)
    ensures Inv(AfterAck(c, rnd, l).m, AfterAck(c, rnd, l).env()) && Pace(c, AfterAck(c, rnd, l))
    ensures if c.m.params.conflict.ConflictWait? then Begun(c, l, AfterAck(c, rnd, l))
            else HoldsLease(AfterAck(c, rnd, l).m.state)
  {
    hide Executed, StartAcd, EnterProbing, EnterBoundNew;
    match c.m.params.conflict {
      case ConflictWait => EnterProbingInv(c, rnd, l);
      case ConflictAsync =>
        StartAcdInv(c, rnd, l.addr);
        EnterBoundNewInv(StartAcd(c, rnd, l.addr), rnd, l);
      case ConflictOff => EnterBoundNewInv(c, rnd, l);
    }
  }

  lemma ApplyTwo(c: Ctx, rnd: Entropy, o: Acd.Output, p: Acd.Output)
    ensures ApplyAll(c, rnd, [o] + [p]) == Apply(Apply(c, rnd, o), rnd, p)
  {
    hide Executed, Apply;
    assert ([o] + [p])[..1] == [o];
    assert [o][..0] == [];
    assert ApplyAll(c, rnd, [o]) == Apply(c, rnd, o);
  }

  lemma ApplyThree(c: Ctx, rnd: Entropy, o: Acd.Output, p: Acd.Output, q: Acd.Output)
    ensures ApplyAll(c, rnd, [o] + [p] + [q]) == Apply(Apply(Apply(c, rnd, o), rnd, p), rnd, q)
  {
    hide Executed, Apply;
    assert ([o] + [p] + [q])[..2] == [o] + [p];
    ApplyTwo(c, rnd, o, p);
  }

  lemma ApplyNone(c: Ctx, rnd: Entropy)
    ensures ApplyAll(c, rnd, []) == c
  {
    hide Executed;
  }

  lemma ApplyOne(c: Ctx, rnd: Entropy, o: Acd.Output)
    ensures ApplyAll(c, rnd, [o]) == Apply(c, rnd, o)
  {
    hide Executed, Apply;
    assert [o][..0] == [];
  }

  /** A state whose conflict timer has just fired. */
  ghost predicate AcdDue(c: Ctx) {
    && Sound(c.m, c.env()) && c.m.acd.Some? && c.env().armed.acd.None?
    && Ticking(c.m.acd.value.phase)
    && var again := c.env().(armed := c.env().armed.(acd := Some(c.env().now)));
       Inv(c.m, again) && (c.m.state.Probing? || HoldsLease(c.m.state))
  }

  /** One probe sent and the next timer armed; all else as it was. */
  ghost predicate Probed(c: Ctx, rnd: Entropy, r: Ctx)
    requires c.m.acd.Some? && c.m.acd.value.addr.Some?
  {
    var a := c.m.acd.value;
    var last := a.sent + 1 >= a.params.probeNum;
    && r.m.state == c.m.state && r.m.probing == c.m.probing && r.m.lease == c.m.lease && Carries(c, r)
    && r.m.acd == Some(a.(sent := a.sent + 1, phase := if last then Acd.Settling else Acd.Probing))
    && r.env().arps == c.env().arps + [SentARP(c.env().now, 0, a.addr.value)] && r.env().acquired == c.env().acquired
    && r.env().mail == c.env().mail && r.m.xid == c.m.xid
    && r.env().armed == c.env().armed.(acd := r.env().armed.acd)
    && r.env().armed.acd == Some(c.env().now + if last then a.params.announceWait
                                               else Uniform(a.params.probeMin, a.params.probeMax, rnd))
  }

  lemma ProbeStep(c: Ctx, rnd: Entropy)
    requires AcdDue(c) && c.m.acd.value.phase.Probing?
    ensures Inv(AcdTimer(c, rnd).m, AcdTimer(c, rnd).env()) && Probed(c, rnd, AcdTimer(c, rnd))
  {
    hide Executed, EnterBoundNew, DeclineAndRestart, ApplyAll, Apply, Uniform;
    var (a, outs) := c.m.acd.value.Timer(rnd);
    var d := c.(m := c.m.(acd := Some(a)));
    ApplyTwo(d, rnd, outs[0], outs[1]);
    QuietIsQuiet(d, rnd, outs[0], outs[1]);
    ProbedHolds(c, d, rnd, outs[1].after);
  }

  lemma ProbedHolds(c: Ctx, d: Ctx, rnd: Entropy, after: Duration)
    requires AcdDue(c) && c.m.acd.value.phase.Probing?
    requires d == c.(m := c.m.(acd := Some(c.m.acd.value.Timer(rnd).0)))
    requires c.m.acd.value.Timer(rnd).1[1] == Acd.SetTimer(after)
    ensures
      var r := ApplyQuiet(ApplyQuiet(d, Acd.SendProbe), Acd.SetTimer(after));
      Inv(r.m, r.env()) && Probed(c, rnd, r)
  {
    hide Executed, Uniform;
  }

  /** An announcement: the check is over or one announcement nearer to it. */
  lemma AnnounceStep(c: Ctx, rnd: Entropy)
    requires AcdDue(c) && c.m.acd.value.phase.Announcing?
    ensures
      var r := AcdTimer(c, rnd);
      && Inv(r.m, r.env()) && r.m.state == c.m.state && r.env().acquired == c.env().acquired && Carries(c, r)
      && r.env().mail == c.env().mail && r.m.xid == c.m.xid
  {
    hide Executed, EnterBoundNew, DeclineAndRestart, ApplyAll;
    var (a, outs) := c.m.acd.value.Timer(rnd);
    ApplyTwo(c.(m := c.m.(acd := Some(a))), rnd, outs[0], outs[1]);
  }

  /** The probes drew no answer: the address is announced and, if it was only
      being checked, taken. */
  lemma SettleStep(c: Ctx, rnd: Entropy)
    requires AcdDue(c) && c.m.acd.value.phase.Settling?
    ensures Inv(AcdTimer(c, rnd).m, AcdTimer(c, rnd).env()) && Pace(c, AcdTimer(c, rnd))
    ensures
      var d := Announced(c, rnd);
      AcdTimer(c, rnd)
      == if c.m.probing.Some? then EnterBoundNew(d.(m := d.m.(probing := None)), rnd, c.m.probing.value) else d
  {
    hide Executed, EnterBoundNew, DeclineAndRestart, Announced, AcdTimer;
    AnnouncedHolds(c, rnd);
    var d := Announced(c, rnd);
    if c.m.state.Probing? {
      EnterBoundNewInv(d.(m := d.m.(probing := None)), rnd, c.m.probing.value);
    }
  }

  /** The state between the first announcement and taking the lease. */
  function Announced(c: Ctx, rnd: Entropy): (r: Ctx)
    requires c.m.acd.Some? && c.m.acd.value.phase.Settling? && c.m.acd.value.params.announceNum > 0
    ensures Carries(c, r)
  {
    var (a, outs) := c.m.acd.value.Timer(rnd);
    ApplyQuiet(ApplyQuiet(c.(m := c.m.(acd := Some(a))), outs[0]), outs[1])
  }

  /** One announcement sent; the sub-machine watches on and all else is as it was. */
  ghost predicate AnnouncedFrom(c: Ctx, d: Ctx)
    requires c.m.acd.Some? && c.m.acd.value.addr.Some?
  {
    var own := c.m.acd.value.addr.value;
    && Sound(d.m, d.env()) && d.m.state == c.m.state && d.m.probing == c.m.probing && d.m.lease == c.m.lease
    && Watching(d.m, d.env(), own)
    && d.env().armed == c.env().armed.(acd := d.env().armed.acd) && d.env().heldAt == c.env().heldAt
    && d.env().arps == c.env().arps + [SentARP(c.env().now, own, own)]
    && d.env().mail == c.env().mail && d.m.xid == c.m.xid
    && d.env().acquired == c.env().acquired && d.env().now == c.env().now
  }

  lemma AnnouncedHolds(c: Ctx, rnd: Entropy)
    requires AcdDue(c) && c.m.acd.value.phase.Settling?
    ensures AnnouncedFrom(c, Announced(c, rnd))
    ensures AcdTimer(c, rnd) == Apply(Announced(c, rnd), rnd, Acd.Ready)
  {
    hide Executed, EnterBoundNew, DeclineAndRestart, ApplyAll, Apply;
    var (a, outs) := c.m.acd.value.Timer(rnd);
    ApplyThree(c.(m := c.m.(acd := Some(a))), rnd, outs[0], outs[1], outs[2]);
    assert outs == [outs[0]] + [outs[1]] + [outs[2]];
    QuietIsQuiet(c.(m := c.m.(acd := Some(a))), rnd, outs[0], outs[1]);
  }

  lemma QuietIsQuiet(c: Ctx, rnd: Entropy, o: Acd.Output, p: Acd.Output)
    requires !o.Ready? && !o.Conflict? && !p.Ready? && !p.Conflict?
    ensures Apply(Apply(c, rnd, o), rnd, p) == ApplyQuiet(ApplyQuiet(c, o), p)
  {
    hide Executed, EnterBoundNew, DeclineAndRestart, ApplyQuiet;
  }

  lemma AcdTimerInv(c: Ctx, rnd: Entropy)
    requires AcdDue(c)
    ensures Inv(AcdTimer(c, rnd).m, AcdTimer(c, rnd).env()) && Pace(c, AcdTimer(c, rnd))
    ensures !c.m.state.Probing? ==> Plain(c, AcdTimer(c, rnd))
  {
    hide Executed, AcdTimer, Announced;
    match c.m.acd.value.phase {
      case Probing => ProbeStep(c, rnd);
      case Settling =>
        SettleStep(c, rnd);
        AnnouncedHolds(c, rnd);
      case Announcing => AnnounceStep(c, rnd);
    }
  }

  lemma OnArpInv(c: Ctx, rnd: Entropy, pkt: Option<Acd.Packet>)
    requires Inv(c.m, c.env())
    ensures
      var r := OnArp(c, rnd, pkt);
      && Inv(r.m, r.env())
      && (c.m.acd.Some? && pkt.Some? && c.m.acd.value.addr.Some? && c.m.acd.value.Conflicts(pkt.value) ==> Plain(c, r))
      && (c.m.acd.Some? && pkt.Some? && !c.m.acd.value.Conflicts(pkt.value) ==> r == c)
      && (c.m.acd.None? || pkt.None? ==> r == c)
  {
    hide Executed, DeclineAndRestart, ApplyAll;
    if c.m.acd.Some? && pkt.Some? {
      var (a, outs) := c.m.acd.value.Arp(pkt.value);
      var d := c.(m := c.m.(acd := Some(a)));
      if outs != [] {
        ApplyOne(d, rnd, Acd.Conflict);
        DeclineAndRestartInv(d, rnd);
      } else {
        assert d == c && ApplyAll(d, rnd, []) == d by { ApplyNone(d, rnd); }
      }
    }
  }

  // ------------------------------------------------------------ each state --

  /** The step about to be taken: the event delivered to a client that keeps
      the invariant. */
  ghost predicate Delivered(c: Ctx, e: Env, ev: Event) {
    && Inv(c.m, e) && Admissible(e, c.env().now, ev) && c.env() == Deliver(e, c.env().now, ev)
  }

  /** The one way a lease begins to be checked, or is taken unchecked. */
  ghost predicate AckTaken(c: Ctx, rnd: Entropy, ev: Event, r: Ctx) {
    && ev.Received? && Acceptable(c.m, ev.msg) && ev.msg.value.kind == Some(Ack)
    && var l := LeaseFromAck(ev.msg.value, c.m.requestSentAt);
       l.Some? && r == AfterAck(c, rnd, l.value)
  }

  /** Nothing a check depends on has changed. */
  predicate Unmoved(c: Ctx, r: Ctx) {
    && r.m.state == c.m.state && r.m.probing == c.m.probing && r.m.acd == c.m.acd && r.env() == c.env()
    && r.m.restarts == c.m.restarts && r.m.lease == c.m.lease
  }

  /** A step that leaves a check under way, or completes it: its own timer, or
      an event that is no conflict. */
  ghost predicate StillProbing(c: Ctx, rnd: Entropy, ev: Event, r: Ctx) {
    || (ev == TimerFired(TimerACD) && r == AcdTimer(c, rnd))
    || (Unmoved(c, r) && ev != TimerFired(TimerACD)
        && !ev.Stop? && !ev.Release? && !ev.LinkDown? && !ev.ConflictDetected?
        && (ev.ARPReceived? && ev.pkt.Some? ==> c.m.acd.Some? && !c.m.acd.value.Conflicts(ev.pkt.value)))
  }

  lemma NoteActionFailedInv(c: Ctx, rnd: Entropy, id: nat)
    requires Inv(c.m, c.env())
    ensures Inv(NoteActionFailed(c, rnd, id).m, NoteActionFailed(c, rnd, id).env())
    ensures NoteActionFailed(c, rnd, id).env().sends == c.env().sends
    ensures
      var r := NoteActionFailed(c, rnd, id);
      if c.m.state.Probing? && !r.m.state.Init? then Unmoved(c, r) else Plain(c, r)
  {
    hide Executed, TransportFailed, RenewalDelay, Backoff.Delay;
    if c.m.arpAction != Some(id) {
      var d := c.(m := c.m.(sendFailures := c.m.sendFailures + 1));
      if c.m.state == Renewing || c.m.state == Rebinding {
        RetryArmed(d, RenewalDelay(d.m, c.env().now));
      } else if c.m.params.maxSendFailures > 0 && d.m.sendFailures >= c.m.params.maxSendFailures {
        TransportFailedInv(d);
      } else if c.m.state == Selecting {
        RetryArmed(d, Backoff.Delay(c.m.params.discover, c.m.retransmits, rnd));
      } else if c.m.state == Requesting || c.m.state == Rebooting {
        RetryArmed(d, Backoff.Delay(c.m.params.request, c.m.retransmits, rnd));
      }
    }
  }

  lemma RetryArmed(c: Ctx, d: Duration)
    requires Inv(c.m, c.env())
    requires c.m.state in {Selecting, Requesting, Rebooting, Renewing, Rebinding}
    ensures
      var r := Set(c, TimerRetransmit, d);
      Inv(r.m, r.env()) && Plain(c, r) && r.env().sends == c.env().sends
  {
    hide Executed, Lease.Deadlines;
  }

  lemma TransportFailedInv(c: Ctx)
    requires Inv(c.m, c.env())
    ensures
      var r := TransportFailed(c);
      Inv(r.m, r.env()) && r.env().sends == c.env().sends && Plain(c, r) && (c.m.state.Probing? ==> r.m.state.Init?)
  {
    hide Executed, DropLease, ToInitIdle;
    var d := Emit(c, Failed(ReasonTransport));
    DropLeaseInv(d, ReasonTransport);
    DropLeaseTells(d, ReasonTransport);
    ToInitIdleInv(DropLease(d, ReasonTransport));
    ToInitIdleSilent(DropLease(d, ReasonTransport));
  }

  lemma DropLeaseTells(c: Ctx, why: Reason)
    ensures
      var r := DropLease(c, why);
      && r.env().sends == c.env().sends && r.m.acd == c.m.acd
      && r.env().told == c.env().told + (if c.m.lease.Some? then [LeaseLost(why)] else [])
      && (c.m.lease.None? ==> r == c)
  {
    hide Executed;
  }

  lemma ToInitIdleSilent(c: Ctx)
    ensures
      var r := ToInitIdle(c);
      && r.env().sends == c.env().sends && r.env().told == c.env().told
      && r.m.acd == (if c.m.acd.Some? then Some(c.m.acd.value.Stop()) else None)
  {
    hide Executed;
  }

  lemma TakeHostnameInv(c: Ctx, rnd: Entropy, name: string)
    requires Inv(c.m, c.env())
    ensures
      var r := TakeHostname(c, rnd, name);
      && Inv(r.m, r.env()) && r.env().acquired == c.env().acquired && (r.m.state.Probing? ==> c.m.state.Probing?)
      && (c.m.state.Probing? ==> r == c.(m := c.m.(hostname := r.m.hostname)))
  {
    hide Executed, AnnounceHostname;
    if c.m.SendsHostname() && ValidHostname(name) {
      AnnounceHostnameInv(c.(m := c.m.(hostname := name)), rnd);
    }
  }

  lemma GiveUpInv(c: Ctx, rnd: Entropy)
    requires Free(c)
    ensures Inv(GiveUp(c, rnd).m, GiveUp(c, rnd).env()) && Plain(c, GiveUp(c, rnd))
  {
    hide Executed, BeginAcquisition;
    BeginAcquisitionInv(Emit(c, Failed(ReasonNoServer)), c.m.params.Split(rnd, 1), false);
  }

  lemma TakeNakInv(c: Ctx, rnd: Entropy)
    requires Free(c)
    ensures Inv(TakeNak(c, rnd).m, TakeNak(c, rnd).env()) && Plain(c, TakeNak(c, rnd))
  {
    hide Executed, RestartPaced;
    RestartPacedInv(Emit(Cancel(c, TimerRetransmit), Failed(ReasonNak)), c.m.params.Split(rnd, 1), false);
  }

  lemma ReleaseLeaseInv(c: Ctx, rnd: Entropy)
    requires Sound(c.m, c.env())
    ensures Inv(ReleaseLease(c, rnd).m, ReleaseLease(c, rnd).env()) && Plain(c, ReleaseLease(c, rnd))
  {
    hide Executed, Halt;
    HaltInv(SendRelease(c, rnd), ReasonReleased);
  }

  /** What a step can be, as far as taking leases goes. */
  ghost predicate StepKind(c: Ctx, rnd: Entropy, ev: Event, r: Ctx) {
    || Plain(c, r)
    || ((c.m.state.Requesting? || c.m.state.Rebooting?) && AckTaken(c, rnd, ev, r))
    || (c.m.state.Probing? && StillProbing(c, rnd, ev, r))
  }

  /** What every step comes to. */
  ghost predicate Good(c: Ctx, rnd: Entropy, ev: Event, r: Ctx) {
    Inv(r.m, r.env()) && StepKind(c, rnd, ev, r) && Pace(c, r)
  }

  lemma StepStoppedInv(c: Ctx, e: Env, rnd: Entropy, ev: Event)
    requires Delivered(c, e, ev) && c.m.state == Stopped
    ensures Good(c, rnd, ev, StepStopped(c, rnd, ev))
  {
    hide Executed, BeginAcquisition, TakeHostname;
    match ev {
      case Start => BeginAcquisitionInv(c, rnd, true);
      case SetHostname(name) => TakeHostnameInv(c, rnd, name);
      case _ =>
    }
  }

  lemma StepInitInv(c: Ctx, e: Env, rnd: Entropy, ev: Event)
    requires Delivered(c, e, ev) && c.m.state == Init
    ensures Good(c, rnd, ev, StepInit(c, rnd, ev))
  {
    hide Executed, BeginAcquisition, TakeHostname, Halt, SendDiscover, NoteActionFailed;
    match ev {
      case Start => BeginAcquisitionInv(c, rnd, true);
      case LinkUp => BeginAcquisitionInv(c, rnd, true);
      case Stop => HaltInv(c, ReasonStopped);
      case Release => HaltInv(c, ReasonReleased);
      case TimerFired(TimerDesync) => SendDiscoverInv(c, rnd);
      case TimerFired(TimerRestart) => BeginAcquisitionInv(c, rnd, false);
      case ActionFailed(id) => NoteActionFailedInv(c, rnd, id);
      case SetHostname(name) => TakeHostnameInv(c, rnd, name);
      case _ =>
    }
  }

  lemma StepSelectingInv(c: Ctx, e: Env, rnd: Entropy, ev: Event)
    requires Delivered(c, e, ev) && c.m.state == Selecting
    ensures Good(c, rnd, ev, StepSelecting(c, rnd, ev))
  {
    hide Executed, TakeHostname, Halt, SendDiscover, SendRequest, GiveUp, ToInitIdle, NoteActionFailed, Acceptable;
    match ev {
      case Stop => HaltInv(c, ReasonStopped);
      case Release => HaltInv(c, ReasonReleased);
      case Received(msg, _, _) => SendRequestInv(c.(m := c.m.(offer := msg, retransmits := 0)), rnd);
      case TimerFired(TimerRetransmit) =>
        GiveUpInv(c, rnd);
        SendDiscoverInv(c.(m := c.m.(retransmits := c.m.retransmits + 1)), rnd);
      case LinkDown => ToInitIdleInv(c);
      case ActionFailed(id) => NoteActionFailedInv(c, rnd, id);
      case SetHostname(name) => TakeHostnameInv(c, rnd, name);
      case _ =>
    }
  }

  lemma StepRequestingInv(c: Ctx, e: Env, rnd: Entropy, ev: Event)
    requires Delivered(c, e, ev) && c.m.state == Requesting
    ensures Good(c, rnd, ev, StepRequesting(c, rnd, ev))
  {
    hide Executed, TakeHostname, Halt, SendRequest, GiveUp, ToInitIdle, NoteActionFailed, AfterAck, TakeNak,
         RestartPaced;
    match ev {
      case Stop => HaltInv(c, ReasonStopped);
      case Release => HaltInv(c, ReasonReleased);
      case Received(msg, _, _) =>
        if Acceptable(c.m, msg) && msg.value.kind == Some(Ack) {
          var n := c.m.counts;
          RestartPacedInv(c.(m := c.m.(counts := n.(ackRefused := n.ackRefused + 1))), c.m.params.Split(rnd, 1), true);
          var l := LeaseFromAck(msg.value, c.m.requestSentAt);
          if l.Some? {
            AfterAckInv(c, rnd, l.value);
          }
        } else {
          TakeNakInv(c, rnd);
        }
      case TimerFired(TimerRetransmit) =>
        GiveUpInv(c, rnd);
        SendRequestInv(c.(m := c.m.(retransmits := c.m.retransmits + 1)), rnd);
      case LinkDown => ToInitIdleInv(c);
      case ActionFailed(id) => NoteActionFailedInv(c, rnd, id);
      case SetHostname(name) => TakeHostnameInv(c, rnd, name);
      case _ =>
    }
  }

  lemma StepRebootingInv(c: Ctx, e: Env, rnd: Entropy, ev: Event)
    requires Delivered(c, e, ev) && c.m.state == Rebooting
    ensures Good(c, rnd, ev, StepRebooting(c, rnd, ev))
  {
    hide Executed, TakeHostname, Halt, SendReboot, GiveUp, ToInitIdle, NoteActionFailed, AfterAck, TakeNak;
    match ev {
      case Stop => HaltInv(c, ReasonStopped);
      case Release => HaltInv(c, ReasonReleased);
      case Received(msg, _, _) =>
        TakeNakInv(c, rnd);
        if Acceptable(c.m, msg) && LeaseFromAck(msg.value, c.m.requestSentAt).Some? {
          AfterAckInv(c, rnd, LeaseFromAck(msg.value, c.m.requestSentAt).value);
        }
      case TimerFired(TimerRetransmit) =>
        GiveUpInv(c, rnd);
        SendRebootInv(c.(m := c.m.(retransmits := c.m.retransmits + 1)), rnd);
      case LinkDown => ToInitIdleInv(c);
      case ActionFailed(id) => NoteActionFailedInv(c, rnd, id);
      case SetHostname(name) => TakeHostnameInv(c, rnd, name);
      case _ =>
    }
  }

  lemma StepProbingInv(c: Ctx, e: Env, rnd: Entropy, ev: Event)
    requires Delivered(c, e, ev) && c.m.state == Probing
    ensures Good(c, rnd, ev, StepProbing(c, rnd, ev))
  {
    hide Executed, TakeHostname, Halt, ReleaseLease, AcdTimer, OnArp, DeclineAndRestart, ToInitIdle, NoteActionFailed;
    match ev {
      case Stop => HaltInv(c, ReasonStopped);
      case Release => ReleaseLeaseInv(c, rnd);
      case TimerFired(TimerACD) => AcdTimerInv(c, rnd);
      case ARPReceived(pkt) => OnArpInv(c, rnd, pkt);
      case ConflictDetected => DeclineAndRestartInv(c, rnd);
      case LinkDown => ToInitIdleInv(c);
      case ActionFailed(id) => NoteActionFailedInv(c, rnd, id);
      case SetHostname(name) => TakeHostnameInv(c, rnd, name);
      case _ =>
    }
  }

  lemma EndLeaseInv(c: Ctx, rnd: Entropy, why: Reason)
    requires Sound(c.m, c.env()) && c.m.probing.None?
    ensures
      var d := DropLease(c, why);
      var paced, atOnce, idle := RestartPaced(d, rnd, false), BeginAcquisition(d, rnd, false), ToInitIdle(d);
      && Inv(paced.m, paced.env()) && Inv(atOnce.m, atOnce.env()) && Inv(idle.m, idle.env())
      && Plain(c, paced) && Plain(c, atOnce) && Plain(c, idle)
  {
    hide Executed, DropLease, RestartPaced, BeginAcquisition, ToInitIdle;
    DropLeaseInv(c, why);
    RestartPacedInv(DropLease(c, why), rnd, false);
    BeginAcquisitionInv(DropLease(c, why), rnd, false);
    ToInitIdleInv(DropLease(c, why));
  }

  lemma StepBoundInv(c: Ctx, e: Env, rnd: Entropy, ev: Event)
    requires Delivered(c, e, ev) && c.m.state == Bound
    ensures Good(c, rnd, ev, StepBound(c, rnd, ev))
  {
    hide Executed, TakeHostname, Halt, ReleaseLease, AcdTimer, OnArp, DeclineAndRestart, ToInitIdle, NoteActionFailed,
         DropLease, RestartPaced, BeginAcquisition, EnterRenewing, EnterRebinding;
    match ev {
      case Stop => HaltInv(c, ReasonStopped);
      case Release => ReleaseLeaseInv(c, rnd);
      case TimerFired(TimerExpire) => EndLeaseInv(c, rnd, ReasonExpired);
      case TimerFired(TimerRenew) => EnterRenewingInv(c, rnd);
      case TimerFired(TimerRebind) => EnterRebindingInv(c, rnd, true);
      case TimerFired(TimerACD) => AcdTimerInv(c, rnd);
      case ARPReceived(pkt) => OnArpInv(c, rnd, pkt);
      case ConflictDetected => DeclineAndRestartInv(c, rnd);
      case LinkDown => EndLeaseInv(c, rnd, ReasonLinkDown);
      case AddressLost => EndLeaseInv(c, rnd, ReasonAddressLost);
      case ActionFailed(id) => NoteActionFailedInv(c, rnd, id);
      case SetHostname(name) => TakeHostnameInv(c, rnd, name);
      case _ =>
    }
  }

  lemma RenewalAnswerInv(c: Ctx, e: Env, rnd: Entropy, ev: Event)
    requires Delivered(c, e, ev) && (c.m.state == Renewing || c.m.state == Rebinding) && ev.Received?
    ensures Good(c, rnd, ev, StepRenewal(c, rnd, ev))
  {
    hide Executed, DropLease, RestartPaced, EnterBoundRenewed;
    var d := DropLease(c, ReasonNak);
    DropLeaseInv(c, ReasonNak);
    RestartPacedInv(Emit(d, Failed(ReasonNak)), c.m.params.Split(rnd, 1), false);
    if Acceptable(c.m, ev.msg) && LeaseFromAck(ev.msg.value, c.m.requestSentAt).Some? {
      EnterBoundRenewedInv(c, rnd, LeaseFromAck(ev.msg.value, c.m.requestSentAt).value);
    }
  }

  lemma StepRenewalInv(c: Ctx, e: Env, rnd: Entropy, ev: Event)
    requires Delivered(c, e, ev) && (c.m.state == Renewing || c.m.state == Rebinding)
    ensures Good(c, rnd, ev, StepRenewal(c, rnd, ev))
  {
    hide Executed, TakeHostname, Halt, ReleaseLease, AcdTimer, OnArp, DeclineAndRestart, ToInitIdle, NoteActionFailed,
         DropLease, RestartPaced, BeginAcquisition, EnterRebinding, SendRenewal, EnterBoundRenewed;
    if ev.Received? {
      RenewalAnswerInv(c, e, rnd, ev);
    } else {
      match ev {
        case Stop => HaltInv(c, ReasonStopped);
        case Release => ReleaseLeaseInv(c, rnd);
        case TimerFired(TimerRetransmit) => SendRenewalInv(c);
        case TimerFired(TimerExpire) => EndLeaseInv(c, rnd, ReasonExpired);
        case TimerFired(TimerRebind) => EnterRebindingInv(c, rnd, false);
        case TimerFired(TimerACD) => AcdTimerInv(c, rnd);
        case ARPReceived(pkt) => OnArpInv(c, rnd, pkt);
        case ConflictDetected => DeclineAndRestartInv(c, rnd);
        case LinkDown => EndLeaseInv(c, rnd, ReasonLinkDown);
        case AddressLost => EndLeaseInv(c, rnd, ReasonAddressLost);
        case ActionFailed(id) => NoteActionFailedInv(c, rnd, id);
        case SetHostname(name) => TakeHostnameInv(c, rnd, name);
        case _ =>
      }
    }
  }

  lemma TakeForcerenewInv(c: Ctx, rnd: Entropy, msg: Message, raw: Option<Frame>, dst: Option<Addr>)
    requires Inv(c.m, c.env())
    ensures
      var r := TakeForcerenew(c, rnd, msg, raw, dst);
      Inv(r.m, r.env()) && if c.m.state.Probing? then Unmoved(c, r) else Plain(c, r)
  {
    hide Executed, EnterRenewing, IsUnicast;
    if ForcerenewFault(c.m, msg, raw, dst).None? && c.m.state == Bound {
      var m := c.m.(key := Some(c.m.key.value.(floor := msg.auth.replay)));
      EnterRenewingInv(c.(m := m.(counts := m.counts.(renewed := m.counts.renewed + 1))), rnd);
    }
  }

  lemma ForcerenewGood(c: Ctx, e: Env, rnd: Entropy, ev: Event)
    requires Delivered(c, e, ev) && IsForcerenew(ev)
    ensures Good(c, rnd, ev, TakeForcerenew(c, rnd, ev.msg.value, ev.raw, ev.dst))
  {
    hide Executed, TakeForcerenew, Waits, AckTaken, AcdTimer;
    TakeForcerenewInv(c, rnd, ev.msg.value, ev.raw, ev.dst);
  }

  /** Every step keeps the invariant: whatever the state, the event and the
      entropy, as long as timers fire only when armed and due. */
  lemma StepKeepsInv(m: Client, e: Env, now: Instant, rnd: Entropy, ev: Event)
    requires Inv(m, e) && Admissible(e, now, ev)
    ensures
      var r := Advance(m, e, now, rnd, ev);
      Good(Begin(m, Deliver(e, now, ev)), rnd, ev, r)
  {
    hide Executed, TakeForcerenew, StepStopped, StepInit, StepSelecting, StepRequesting, StepRebooting, StepProbing,
         StepBound, StepRenewal, Good, Sound, StateRule;
    var c := Begin(m, Deliver(e, now, ev));
    if IsForcerenew(ev) {
      ForcerenewGood(c, e, rnd, ev);
    } else {
      match m.state {
        case Stopped => StepStoppedInv(c, e, rnd, ev);
        case Init => StepInitInv(c, e, rnd, ev);
        case Selecting => StepSelectingInv(c, e, rnd, ev);
        case Requesting => StepRequestingInv(c, e, rnd, ev);
        case Rebooting => StepRebootingInv(c, e, rnd, ev);
        case Probing => StepProbingInv(c, e, rnd, ev);
        case Bound => StepBoundInv(c, e, rnd, ev);
        case Renewing => StepRenewalInv(c, e, rnd, ev);
        case Rebinding => StepRenewalInv(c, e, rnd, ev);
      }
    }
  }
}
