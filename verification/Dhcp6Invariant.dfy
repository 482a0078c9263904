/** What every step of the DHCPv6 client keeps: an expiry for every lease, a
    timer for every state that waits, and a check for every address in use. */
module Dhcp6Invariant {
  import opened Clock
  import opened Lease
  import opened Lease6
  import opened Dhcp6
  import Backoff6

  /** The events the environment may deliver: time does not run backwards, a
      timer fires only when it is armed and due, and a server identifier the
      decoder lets through is not empty. */
  predicate Admissible(e: Env, now: Instant, ev: Event) {
    && e.now <= now
    && (ev.TimerFired? ==> e.armed.At(ev.timer).Some? && e.armed.At(ev.timer).value <= now)
    && (ev.Received? && ev.msg.Some? ==> [] !in ev.msg.value.servers)
  }

  predicate Prompt(e: Env, now: Instant) {
    forall t :: e.armed.At(t).Some? ==> now <= e.armed.At(t).value
  }

  /** An answer counts for a check that was asked for and not yet answered. */
  function Answered(e: Env, a: Addr, duplicate: bool): Env {
    if a !in e.awaiting then e
    else e.(awaiting := e.awaiting - {a}, vouched := if duplicate then e.vouched - {a} else e.vouched + {a})
  }

  /** No address changes sides: what the Reply grants as stable is not held as
      temporary, nor the other way round. Always so for a client that asks for
      no temporary addresses. */
  predicate SidesKept(m: Client, msg: Message) {
    m.lease.Some? && m.params.temporary ==>
      && Foreign(ReadIA(msg.nas, m.params.iaid).addrs, m.lease.value.temps)
      && (msg.tas.Some? ==> Foreign(ReadFirst(msg.tas.value, m.params.iaid, false).addrs, m.lease.value.addrs))
  }

  predicate Foreign(bs: seq<Addr6>, held: seq<Addr6>) { forall i :: 0 <= i < |bs| ==> !Has(held, bs[i].addr) }

  predicate MovesNone(m: Client, ev: Event) { ev.Received? && ev.msg.Some? ==> SidesKept(m, ev.msg.value) }

  function Deliver(m: Client, e: Env, now: Instant, ev: Event): Env {
    var e := e.(now := now, armed := if ev.TimerFired? then e.armed.With(ev.timer, None) else e.armed,
                asks := false, apart := e.apart && MovesNone(m, ev));
    if ev.DADResult? then Answered(e, ev.addr, ev.duplicate) else e
  }

  function Advance(m: Client, e: Env, now: Instant, rnd: Entropy, ev: Event): Ctx {
    StepBody(Begun(m, Deliver(m, e, now, ev)), rnd, ev)
  }

  /** A lease fit to be used: it has an address, and each one has passed its
      check or was asked about again while it was held. */
  predicate Fit(temporary: bool, now: Instant, trusted: set<Addr>, l: Lease6) {
    && l.addrs != [] && l.start <= now && (!temporary ==> l.temps == [])
    && AllIn(l.addrs, trusted) && AllIn(l.temps, trusted)
  }

  /** Fit for this client, here and now. */
  predicate FitHere(m: Client, e: Env, l: Lease6) { Fit(m.params.temporary, e.now, e.Trusted(), l) }

  /** Facts no transition touches halfway, less the expiry. */
  predicate Core(m: Client, e: Env) {
    && m.params.Valid()
    && e.held == m.lease && e.coherent && e.traced && (e.apart ==> e.gated && e.moved == {}) && e.heldAt <= e.now
    && (m.dadWait == [] ==> !e.asks)
    && (m.msgType.Some? ==> m.exchangeStart <= e.now)
    && e.awaiting !! e.vouched
    && (m.lease.Some? ==> FitHere(m, e, m.lease.value))
    && (m.resume.Some? ==> m.lease.None? && m.resume.value.Live())
    && (forall i :: 0 <= i < |m.adverts| ==> m.adverts[i].server != [])
  }

  /** The expiry of a held lease is armed for the first end of any of its
      bindings, or for the moment it was announced if that is later. */
  predicate ExpiryRule(m: Client, e: Env) {
    m.lease.Some? ==> e.armed.expire == Due(e.heldAt, m.lease.value.NextEnd())
  }

  predicate Sound(m: Client, e: Env) { Core(m, e) && ExpiryRule(m, e) }

  /** A check under way: every address of the pending lease is waiting for its
      answer, has failed, or is trusted; one on both sides is trusted already. */
  predicate PendingRule(m: Client, e: Env) {
    && m.pending.addrs != [] && m.pending.start <= e.now && (!m.params.temporary ==> m.pending.temps == [])
    && Accounted(m, e, m.pending.addrs) && Accounted(m, e, m.pending.temps) && Doubled(m.pending, e.Trusted())
    && (forall a :: a in m.dadWait ==> a in e.awaiting || a in e.vouched || a in m.dadBad)
  }

  predicate Accounted(m: Client, e: Env, bs: seq<Addr6>) {
    forall i :: 0 <= i < |bs| ==> bs[i].addr in m.dadWait || bs[i].addr in m.dadBad || bs[i].addr in e.Trusted()
  }

  /** The addresses that are both stable and temporary are among these. */
  predicate Doubled(l: Lease6, s: set<Addr>) {
    forall i :: 0 <= i < |l.temps| && Has(l.addrs, l.temps[i].addr) ==> l.temps[i].addr in s
  }

  predicate Declining(m: Client, e: Env) {
    && m.msgType == Some(Decline) && e.armed.retransmit.Some? && m.server != [] && m.dadWait == []
    && m.afterDecline.Some? && (m.afterDecline == Some(BindKept) ==> FitHere(m, e, m.pending))
  }

  predicate Asking(m: Client, e: Env) { m.msgType.None? && e.armed.dad.Some? && m.dadWait != [] && PendingRule(m, e) }

  /** The configuration will be asked for again, unless it was given for good. */
  predicate RefreshComes(m: Client, e: Env) {
    m.refresh == INFINITE || e.armed.refresh.Some? || e.armed.delay.Some?
  }

  /** What a state rests on, and the timer that carries it forward. */
  predicate StateRule(m: Client, e: Env) {
    && (m.dadWait != [] ==> m.state == Checking)
    && match m.state
       case Stopped => m.lease.None?
       case Init => e.armed.delay.Some? && m.tried == [] && (m.pendingType == Solicit || m.pendingType == Confirm)
       case Selecting => e.armed.retransmit.Some? && m.tried == [] && m.msgType == Some(Solicit)
       case Requesting => e.armed.retransmit.Some? && m.server != [] && m.msgType == Some(Request)
       case Confirming => e.armed.retransmit.Some? && m.msgType == Some(Confirm)
       case InfoRequesting =>
         if m.msgType == Some(InformationRequest) then e.armed.retransmit.Some?
         else
           && m.msgType.None? && e.armed.retransmit.None?
           && RefreshComes(m, e)
       case Checking => Asking(m, e) || Declining(m, e)
       case Bound => m.lease.Some? || RefreshComes(m, e)
       case Renewing => e.armed.retransmit.Some? && m.server != [] && m.msgType == Some(Renew) && m.lease.Some?
       case Rebinding => e.armed.retransmit.Some? && m.msgType == Some(Rebind)
  }

  predicate Inv(m: Client, e: Env) { Sound(m, e) && StateRule(m, e) }

  /** Every transition of a sound client ends in one that keeps the invariant. */
  ghost predicate Good(r: Ctx) { Inv(r.m, r.env()) }

  lemma NewInv(p: Params, now: Instant)
    requires p.Valid()
    ensures Inv(New(p), Untold(now))
  {
  }

  // ---------------------------------------------------------------- frames --

  /** The lease, its expiry and the checks are as they were. */
  ghost predicate Aside(c: Ctx, r: Ctx) {
    && r.m.lease == c.m.lease
    && r.env() == c.env().(armed := r.env().armed, mail := r.env().mail, told := r.env().told)
    && r.env().armed.expire == c.env().armed.expire
  }

  predicate Buildable(m: Client) { m.msgType.Some? && (NeedsServer(m.msgType.value) ==> m.server != []) }

  /** Sending a message arms its retransmission, and touches nothing else. */
  lemma TransmitAside(c: Ctx)
    ensures
      var r := Transmit(c);
      && Aside(c, r) && (Buildable(c.m) ==> r.env().armed.retransmit.Some?)
      && r.env().armed == c.env().armed.(retransmit := r.env().armed.retransmit)
      && r.m == c.m.(nextAction := r.m.nextAction, transmits := r.m.transmits, nameOnWire := r.m.nameOnWire)
  {
    hide Executed, Compose;
  }

  lemma StartExchangeAside(c: Ctx, rnd: Entropy, t: Kind, sid: Duid)
    ensures
      var r := StartExchangeFor(c, rnd, t, sid);
      var o := Opened(c.m, c.now(), rnd, t, sid);
      && Aside(c, r) && ((NeedsServer(t) ==> c.m.server != []) ==> r.env().armed.retransmit.Some?)
      && r.env().armed == c.env().armed.(retransmit := r.env().armed.retransmit)
      && r.m == o.(nextAction := r.m.nextAction, transmits := r.m.transmits, nameOnWire := r.m.nameOnWire)
  {
    hide Executed, Transmit, Schedule, Backoff6.Retransmit.First;
    TransmitAside(c.(m := Opened(c.m, c.now(), rnd, t, sid)));
  }

  /** What opening an exchange leaves of the client. */
  lemma OpenedFacts(m: Client, now: Instant, rnd: Entropy, t: Kind, sid: Duid)
    ensures
      var o := Opened(m, now, rnd, t, sid);
      && o.params == m.params && o.lease == m.lease && o.resume == m.resume && o.server == m.server
      && o.pending == m.pending && o.dadWait == m.dadWait && o.tried == m.tried && o.releasing == m.releasing
      && o.releasingTA == m.releasingTA && o.afterDecline == m.afterDecline
      && o.msgType == Some(t) && o.exchangeStart == now && o.state == Waiting(t, m.state)
      && o.adverts == if t == Solicit then [] else m.adverts
  {
    hide Schedule, Backoff6.Retransmit.First;
  }

  lemma SoundAside(c: Ctx, r: Ctx)
    requires Sound(c.m, c.env()) && Aside(c, r) && r.m.params == c.m.params
    requires r.m.msgType.Some? ==> r.m.exchangeStart <= c.now()
    requires r.m.resume == c.m.resume || r.m.resume.None?
    requires r.m.adverts == c.m.adverts || r.m.adverts == []
    requires r.m.dadWait == c.m.dadWait || !c.env().asks
    ensures Sound(r.m, r.env())
  {
    hide Executed;
  }

  // ------------------------------------------------------------- exchanges --

  /** What an exchange of each kind may start from. */
  predicate Startable(m: Client, t: Kind) {
    match t
    case Solicit => m.tried == []
    case Request => m.server != []
    case Confirm => true
    case InformationRequest => true
    case Renew => m.server != [] && m.lease.Some?
    case Rebind => true
    case _ => false
  }

  lemma StartExchangeInv(c: Ctx, rnd: Entropy, t: Kind, sid: Duid)
    requires Sound(c.m, c.env()) && Startable(c.m, t) && c.m.dadWait == []
    ensures
      var r := StartExchangeFor(c, rnd, t, sid);
      Good(r) && r.m.state != Stopped && r.m.state != Init
  {
    hide Executed, StartExchangeFor, Opened, Fit;
    OpenedFacts(c.m, c.now(), rnd, t, sid);
    StartExchangeAside(c, rnd, t, sid);
    SoundAside(c, StartExchangeFor(c, rnd, t, sid));
  }

  lemma ResendInv(c: Ctx, rnd: Entropy, e: Env)
    requires Sound(c.m, c.env()) && Inv(c.m, e) && Buildable(c.m) && c.m.state != Checking
    requires c.env() == e.(now := c.now(), armed := e.armed.(retransmit := None), asks := false)
    ensures Good(Resend(c, rnd))
  {
    hide Executed, Transmit, Fit, Backoff6.Retransmit.Next;
    var d := c.(m := c.m.(rt := c.m.sched.Next(c.m.rt, rnd)));
    TransmitAside(d);
    SoundAside(c, Resend(c, rnd));
  }

  // ----------------------------------------------------------- transitions --

  /** What is known of the checks is as it was. */
  predicate SameChecks(e: Env, f: Env) {
    && f.awaiting == e.awaiting && f.vouched == e.vouched && f.moved == e.moved && f.asks == e.asks
    && f.apart == e.apart
  }

  lemma LoseLeaseCore(c: Ctx, why: Reason)
    requires Core(c.m, c.env())
    ensures
      var r := LoseLease(c, why);
      && Sound(r.m, r.env()) && r.m == c.m.(lease := None, nextAction := r.m.nextAction)
      && r.env().armed == c.env().armed && SameChecks(c.env(), r.env())
  {
    hide Executed, Fit;
  }

  lemma HaltInv(c: Ctx, why: Reason)
    requires Core(c.m, c.env()) && !c.env().asks
    ensures Good(Halt(c, why)) && Halt(c, why).m.state == Stopped
  {
    hide Executed, LoseLease, CancelAll;
    LoseLeaseCore(c, why);
  }

  lemma BeginInv(c: Ctx, rnd: Entropy)
    requires Sound(c.m, c.env()) && c.m.dadWait == []
    ensures Good(Begin(c, rnd)) && Begin(c, rnd).m.state == Init && Begin(c, rnd).m.lease == c.m.lease
  {
    hide Executed, RandomDelay, Fit;
    SoundAside(c, Begin(c, rnd));
  }

  lemma RestartDiscoveryInv(c: Ctx, rnd: Entropy)
    requires Sound(c.m, c.env()) && c.m.dadWait == []
    ensures Good(RestartDiscovery(c, rnd)) && RestartDiscovery(c, rnd).m.state == Init
    ensures RestartDiscovery(c, rnd).m.lease == c.m.lease
  {
    hide Executed, Begin, Fit;
    var d := Cancel(Cancel(c.(m := c.m.(resume := None)), TimerRenew), TimerRebind);
    SoundAside(c, d);
    BeginInv(if d.m.lease.None? then Cancel(d, TimerExpire) else d, rnd);
  }

  lemma EnterRebindingInv(c: Ctx, rnd: Entropy)
    requires Sound(c.m, c.env()) && c.m.dadWait == []
    ensures Good(EnterRebinding(c, rnd)) && EnterRebinding(c, rnd).m.state == Rebinding
  {
    hide Executed, StartExchangeFor, Fit, Opened;
    var d := AbandonRefreshDelay(c);
    SoundAside(c, d);
    var x := d.(m := d.m.(server := []));
    StartExchangeInv(x, rnd, Rebind, []);
    OpenedFacts(x.m, x.now(), rnd, Rebind, []);
    StartExchangeAside(x, rnd, Rebind, []);
  }

  lemma EnterRenewingInv(c: Ctx, rnd: Entropy)
    requires Sound(c.m, c.env()) && c.m.dadWait == []
    ensures Good(EnterRenewing(c, rnd))
  {
    hide Executed, StartExchangeFor, EnterRebinding, Fit;
    var d := AbandonRefreshDelay(c);
    SoundAside(c, d);
    if d.m.Held().server == [] {
      EnterRebindingInv(d, rnd);
    } else {
      StartExchangeInv(d.(m := d.m.(server := d.m.Held().server)), rnd, Renew, []);
    }
  }

  lemma AnnounceHostnameInv(c: Ctx, rnd: Entropy)
    requires Good(c)
    ensures Good(AnnounceHostname(c, rnd))
  {
    hide Executed, StartExchangeFor, EnterRenewing, Fit;
    match c.m.state {
      case Bound => EnterRenewingInv(c, rnd);
      case Renewing => StartExchangeInv(c, rnd, Renew, []);
      case Rebinding => StartExchangeInv(c, rnd, Rebind, []);
      case _ =>
    }
  }

  lemma TakeHostnameInv(c: Ctx, rnd: Entropy, name: string)
    requires Good(c)
    ensures Good(TakeHostname(c, rnd, name))
  {
    hide Executed, AnnounceHostname, Fit;
    if ValidHostname(name) {
      AnnounceHostnameInv(c.(m := c.m.(hostname := name)), rnd);
    }
  }

  // ---------------------------------------------------------------- expiry --

  lemma {:induction false} FirstEndsFirst(start: Instant, bs: seq<Addr6>)
    ensures bs != [] && LongestValid(bs) != INFINITE ==>
              EarliestEnd(start, bs).Some? && EarliestEnd(start, bs).value <= start + LongestValid(bs)
    ensures bs == [] ==> EarliestEnd(start, bs).None?
  {
    if bs != [] {
      FirstEndsFirst(start, bs[..|bs| - 1]);
    }
  }

  lemma {:induction false} EarliestGrows(start: Instant, xs: seq<Addr6>, ys: seq<Addr6>)
    ensures EarliestEnd(start, xs).Some? ==>
              EarliestEnd(start, xs + ys).Some? && EarliestEnd(start, xs + ys).value <= EarliestEnd(start, xs).value
  {
    if ys == [] {
      assert xs + ys == xs;
    } else {
      EarliestGrows(start, xs, ys[..|ys| - 1]);
      assert (xs + ys)[..|xs + ys| - 1] == xs + ys[..|ys| - 1];
    }
  }

  /** For a lease with an address, the timer is set for its first ending binding. */
  lemma ExpiryIsNextEnd(l: Lease6)
    requires l.addrs != []
    ensures ExpiryOf(l) == l.NextEnd()
  {
    hide EarliestEnd, LongestValid, RenewTimes;
    FirstEndsFirst(l.start, l.addrs);
    EarliestGrows(l.start, l.addrs, l.temps);
  }

  lemma {:induction false} EndedBoundsLongest(start: Instant, bs: seq<Addr6>, now: Instant)
    requires start <= now && forall b :: b in bs ==> Ended(start, b, now)
    ensures LongestValid(bs) != INFINITE && start + LongestValid(bs) <= now
  {
    if bs != [] {
      var n := |bs| - 1;
      assert bs == bs[..n] + [bs[n]];
      assert bs[n] in bs;
      EndedBoundsLongest(start, bs[..n], now);
    }
  }

  /** A lease that has not ended keeps an address. */
  lemma SomeAddressStays(l: Lease6, now: Instant)
    requires l.start <= now && l.addrs != [] && !AllEnded(l, now)
    ensures Unended(l.start, l.addrs, now) != []
  {
    hide RenewTimes, LongestValid, Unended;
    UnendedKeeps(l.start, l.addrs, now);
    if Unended(l.start, l.addrs, now) == [] {
      forall b | b in l.addrs ensures Ended(l.start, b, now) {
        assert Ended(l.start, b, now) || b in Unended(l.start, l.addrs, now);
      }
      EndedBoundsLongest(l.start, l.addrs, now);
    }
  }

  lemma UnendedSubset(start: Instant, bs: seq<Addr6>, now: Instant, s: set<Addr>)
    requires AllIn(bs, s)
    ensures AllIn(Unended(start, bs, now), s)
  {
    UnendedKeeps(start, bs, now);
    var r := Unended(start, bs, now);
    forall i | 0 <= i < |r| ensures r[i].addr in s {
      assert r[i] in bs;
    }
  }

  lemma WithoutEndedFit(m: Client, e: Env, l: Lease6)
    requires FitHere(m, e, l) && !AllEnded(l, e.now)
    ensures FitHere(m, e, l.WithoutEnded(e.now))
  {
    hide Unended, AllEnded;
    SomeAddressStays(l, e.now);
    UnendedSubset(l.start, l.addrs, e.now, e.Trusted());
    UnendedSubset(l.start, l.temps, e.now, e.Trusted());
    assert Unended(l.start, [], e.now) == [] by { UnendedKeeps(l.start, [], e.now); }
  }

  /** Where nothing has ended, nothing ends by now. */
  lemma NothingEnded(l: Lease6, now: Instant)
    requires |l.WithoutEnded(now).Bindings()| == |l.Bindings()|
    ensures l.NextEnd().Some? ==> now < l.NextEnd().value
  {
    hide Unended, EarliestEnd;
    UnendedShorter(l.start, l.addrs, now);
    UnendedShorter(l.start, l.temps, now);
    NextEndIsEarliest(l.start, l.Bindings());
    if l.NextEnd().Some? {
      var i :| 0 <= i < |l.Bindings()| && Expiry(l.start, l.Bindings()[i].valid) == l.NextEnd();
      assert l.Bindings()[i] in l.addrs || l.Bindings()[i] in l.temps;
    }
  }

  lemma {:induction false} UnendedShorter(start: Instant, bs: seq<Addr6>, now: Instant)
    ensures |Unended(start, bs, now)| <= |bs|
    ensures |Unended(start, bs, now)| == |bs| ==> forall b :: b in bs ==> !Ended(start, b, now)
  {
    if bs != [] {
      var n := |bs| - 1;
      UnendedShorter(start, bs[..n], now);
      assert bs == bs[..n] + [bs[n]];
    }
  }

  /** The held lease is as it was or has lost ended bindings; the rest is untouched. */
  ghost predicate Trimmed(c: Ctx, r: Ctx) {
    && r.m == c.m.(lease := r.m.lease, nextAction := r.m.nextAction) && r.m.lease.Some? == c.m.lease.Some?
    && r.env().armed == c.env().armed.(expire := r.env().armed.expire) && SameChecks(c.env(), r.env())
  }

  lemma DropEndedSound(c: Ctx)
    requires Core(c.m, c.env()) && c.m.lease.Some? && !AllEnded(c.m.lease.value, c.now()) && !c.env().asks
    ensures Sound(DropEnded(c).m, DropEnded(c).env()) && Trimmed(c, DropEnded(c))
  {
    hide Executed, Fit, AllEnded, ExpiryOf, Lease6.NextEnd, Lease6.WithoutEnded, Vouches, Trusts;
    var h := c.m.lease.value;
    var l := h.WithoutEnded(c.now());
    var x := ArmExpiry(c.(m := c.m.(lease := Some(l))));
    TrustsAlike(c.env(), x.env(), l);
    assert FitHere(c.m, c.env(), h);
    WithoutEndedFit(c.m, c.env(), h);
    FitHasAddress(c.m, c.env(), l);
    FitHasAddress(c.m, c.env(), h);
    ExpiryIsNextEnd(l);
    ExpiryIsNextEnd(h);
    if |l.Bindings()| == |h.Bindings()| {
      NothingEnded(h, c.now());
    }
  }

  lemma FitHasAddress(m: Client, e: Env, l: Lease6)
    requires FitHere(m, e, l)
    ensures l.addrs != [] && Trusts(e, l) && (e.moved == {} ==> Vouches(e, l))
  {
  }

  /** The expiry timer, just fired: what has ended leaves, and the lease with
      its last address. */
  lemma ExpireLeaseInv(c: Ctx, e: Env, rnd: Entropy)
    requires Inv(c.m, e) && e.now <= c.now()
    requires c.env() == e.(now := c.now(), armed := e.armed.(expire := None), asks := false)
    ensures Good(ExpireLease(c, rnd))
  {
    hide Executed, Fit, DropEnded, LoseLease, RestartDiscovery, AllEnded, Lease6.NextEnd;
    assert Core(c.m, c.env()) by { CoreLater(c.m, e, c.env()); }
    if c.m.lease.Some? {
      if AllEnded(c.m.lease.value, c.now()) {
        var d := Cancel(c, TimerExpire);
        LoseLeaseCore(d, ReasonExpired);
        RestartAfterLoss(LoseLease(d, ReasonExpired), rnd);
        StateWithoutLease(c, e, LoseLease(d, ReasonExpired));
      } else {
        DropEndedSound(c);
        StateTrimmed(c, e, DropEnded(c));
      }
    } else {
      StateWithoutLease(c, e, Cancel(c, TimerExpire));
    }
  }

  /** The moment and the timers are no part of what a lease must be. */
  lemma CoreLater(m: Client, e: Env, later: Env)
    requires Core(m, e) && e.now <= later.now && later == e.(now := later.now, armed := later.armed, asks := false)
    ensures Core(m, later)
  {
  }

  lemma RestartAfterLoss(c: Ctx, rnd: Entropy)
    requires Sound(c.m, c.env())
    ensures c.m.dadWait == [] ==> Good(RestartDiscovery(c, rnd))
  {
    if c.m.dadWait == [] {
      RestartDiscoveryInv(c, rnd);
    }
  }

  lemma PendingLater(m: Client, e: Env, r: Client, later: Env)
    requires PendingRule(m, e) && e.now <= later.now && later.awaiting == e.awaiting && later.vouched == e.vouched
    requires later.moved == e.moved
    requires r.pending == m.pending && r.dadWait == m.dadWait && r.dadBad == m.dadBad && r.params == m.params
    ensures PendingRule(r, later)
  {
  }

  lemma StateWithoutLease(c: Ctx, e: Env, r: Ctx)
    requires Inv(c.m, e) && e.now <= c.now()
    requires c.env() == e.(now := c.now(), armed := e.armed.(expire := None), asks := false)
    requires Sound(r.m, r.env()) && r.m == c.m.(lease := None, nextAction := r.m.nextAction) && r.now() == c.now()
    requires r.env().armed == c.env().armed && SameChecks(c.env(), r.env())
    ensures StateRule(r.m, r.env()) || r.m.state == Renewing || r.m.state == Bound
    ensures r.m.state == Renewing || r.m.state == Rebinding || r.m.state == Bound ==> r.m.dadWait == []
  {
    hide Executed;
  }

  lemma StateTrimmed(c: Ctx, e: Env, r: Ctx)
    requires Inv(c.m, e) && e.now <= c.now()
    requires c.env() == e.(now := c.now(), armed := e.armed.(expire := None), asks := false)
    requires Sound(r.m, r.env()) && Trimmed(c, r) && r.now() == c.now()
    ensures Good(r)
  {
    hide Executed;
  }

  // ----------------------------------------------------------------- bound --

  /** Taking a fit lease: everything about it is announced and armed at once. */
  lemma EnterBoundInv(c: Ctx, rnd: Entropy, l: Lease6)
    requires Sound(c.m, c.env()) && c.m.dadWait == [] && FitHere(c.m, c.env(), l)
    ensures Good(EnterBound(c, rnd, l))
  {
    hide Executed, Fit, AnnounceHostname, ArmRenewal, ArmExpiry, ArmOwedRefresh, AnnounceLease, Lease6.NextEnd,
         ExpiryOf;
    var prev := c.m.lease;
    var k := Cancel(c, TimerRetransmit);
    var d := k.(m := Adopt(k.m, l));
    AdoptFit(c.m, c.env(), l);
    var a := AnnounceLease(d, prev);
    AnnounceLeaseHolds(d, prev);
    var b := ArmExpiry(ArmRenewal(a));
    ArmRenewalQuiet(a);
    ExpiryIsNextEnd(b.m.Held());
    assert Good(b);
    ArmOwedRefreshInv(b, rnd);
    AnnounceHostnameInv(ArmOwedRefresh(b, rnd), rnd);
  }

  lemma AdoptFit(m: Client, e: Env, l: Lease6)
    requires FitHere(m, e, l)
    ensures FitHere(m, e, WithAuthority(m, l)) && WithAuthority(m, l).addrs != []
  {
  }

  /** The announcement agrees with the ones before and names only trusted
      addresses: where none was asked about while held, only vouched ones. */
  lemma AnnounceLeaseHolds(c: Ctx, prev: Option<Lease6>)
    requires c.env().held == prev && c.env().coherent && c.env().traced && !c.env().asks && c.m.lease.Some?
    requires FitHere(c.m, c.env(), c.m.lease.value)
    ensures
      var r := AnnounceLease(c, prev);
      && r.env() == c.env().(held := c.m.lease, heldAt := c.now(), told := r.env().told, gated := r.env().gated)
      && (c.env().moved == {} && c.env().gated ==> r.env().gated)
  {
    hide Executed, Lease6.Equal, Vouches, Trusts;
    var l := c.m.lease.value;
    FitHasAddress(c.m, c.env(), l);
    TrustsAlike(c.env(), Execute(c.env(), LeaseRenewed(l)), l);
  }

  lemma TrustsAlike(e: Env, f: Env, l: Lease6)
    requires f.vouched == e.vouched && f.moved == e.moved
    ensures Vouches(f, l) == Vouches(e, l) && Trusts(f, l) == Trusts(e, l)
  {
  }

  lemma ArmRenewalQuiet(c: Ctx)
    ensures
      var r := ArmRenewal(c);
      r.env() == c.env().(armed := c.env().armed.(renew := r.env().armed.renew, rebind := r.env().armed.rebind))
  {
    hide Executed, Lease6.Deadlines;
  }

  lemma ArmOwedRefreshInv(c: Ctx, rnd: Entropy)
    requires Good(c) && c.m.state == Bound
    ensures Good(ArmOwedRefresh(c, rnd))
  {
    hide Executed, Fit, RandomDelay;
  }

  // --------------------------------------------- duplicate address detection --

  function Members(s: seq<Addr>): set<Addr> { set a | a in s }

  /** What is asked about is awaited and no longer vouched for, and counts as
      moved where the lease the caller was told of names it. */
  ghost predicate Asked(e: Env, addrs: seq<Addr>, f: Env) {
    && f == e.(awaiting := e.awaiting + Members(addrs), vouched := e.vouched - Members(addrs), moved := f.moved,
               asks := e.asks || addrs != [])
    && forall a :: a in f.moved <==> if a in addrs then e.held.Some? && e.held.value.Lists(a) else a in e.moved
  }

  lemma {:induction false} AskAllHolds(c: Ctx, addrs: seq<Addr>)
    ensures
      var r := AskAll(c, addrs);
      Asked(c.env(), addrs, r.env()) && r.m == c.m.(nextAction := r.m.nextAction)
  {
    hide Executed, Lease6.Lists;
    if addrs != [] {
      var n := |addrs| - 1;
      AskAllHolds(c, addrs[..n]);
      assert addrs == addrs[..n] + [addrs[n]];
      assert Members(addrs) == Members(addrs[..n]) + {addrs[n]};
    } else {
      assert Members(addrs) == {};
    }
  }

  predicate Covered(bs: seq<Addr6>, asked: seq<Addr>, trusted: set<Addr>) {
    forall i :: 0 <= i < |bs| ==> bs[i].addr in asked || bs[i].addr in trusted
  }

  /** Nothing pending goes unasked unless it is trusted; what is on both sides is
      asked about only where it is held; and as long as no server has moved
      an address, nothing held is asked about. */
  predicate AsksRightly(m: Client, e: Env, asked: seq<Addr>) {
    && Covered(m.pending.addrs, asked, e.Trusted()) && Covered(m.pending.temps, asked, e.Trusted())
    && (forall a :: a in asked && Has(m.pending.addrs, a) && Has(m.pending.temps, a) ==> Holds(m, a))
    && (e.apart ==> forall a :: a in asked ==> !Holds(m, a))
  }

  predicate Holds(m: Client, a: Addr) { m.lease.Some? && m.lease.value.Lists(a) }

  /** What is held stays trusted when it is asked about, and so does what is not. */
  lemma AskedTrusted(e: Env, addrs: seq<Addr>, f: Env, bs: seq<Addr6>)
    requires Asked(e, addrs, f) && AllIn(bs, e.Trusted())
    requires forall i :: 0 <= i < |bs| && bs[i].addr in addrs ==> e.held.Some? && e.held.value.Lists(bs[i].addr)
    ensures AllIn(bs, f.Trusted())
  {
    hide Lease6.Lists;
  }

  lemma ListsItsOwn(l: Lease6)
    ensures forall i :: 0 <= i < |l.addrs| ==> l.Lists(l.addrs[i].addr)
    ensures forall i :: 0 <= i < |l.temps| ==> l.Lists(l.temps[i].addr)
  {
  }

  /** Asking keeps every held address trusted. */
  lemma AskedCore(m: Client, e: Env, asked: seq<Addr>, f: Env)
    requires Core(m, e) && Asked(e, asked, f) && asked != []
    requires e.apart ==> forall a :: a in asked ==> !Holds(m, a)
    ensures Core(m.(dadWait := asked, dadBad := [], state := Checking), f)
  {
    hide Lease6.Lists;
    if m.lease.Some? {
      var l := m.lease.value;
      ListsItsOwn(l);
      AskedTrusted(e, asked, f, l.addrs);
      AskedTrusted(e, asked, f, l.temps);
    }
    assert e.vouched - Members(asked) !! e.awaiting + Members(asked);
    if f.apart {
      assert f.moved == {};
    }
  }

  lemma StartCheckingInv(c: Ctx, asked: seq<Addr>)
    requires Sound(c.m, c.env()) && asked != [] && c.m.msgType.None?
    requires c.m.pending.addrs != [] && c.m.pending.start <= c.now()
    requires !c.m.params.temporary ==> c.m.pending.temps == []
    requires AsksRightly(c.m, c.env(), asked)
    ensures Good(StartChecking(c, asked))
  {
    hide Executed, AskAll, Lease6.NextEnd, Core, Lease6.Lists;
    var d := c.(m := c.m.(dadWait := asked, dadBad := [], state := Checking));
    AskAllHolds(d, asked);
    var x, r := AskAll(d, asked), StartChecking(c, asked);
    AskedCore(c.m, c.env(), asked, x.env());
    CoreArmed(d.m, x.env(), r.m, r.env());
    CoveredCounts(c.m.pending.addrs, asked, c.env(), r.m, r.env());
    CoveredCounts(c.m.pending.temps, asked, c.env(), r.m, r.env());
    AskedDoubles(c.m, c.env(), asked, x.env());
    assert forall a :: a in asked ==> a in r.env().awaiting;
  }

  lemma CoreArmed(m: Client, e: Env, r: Client, f: Env)
    requires Core(m, e) && r == m.(nextAction := r.nextAction) && f == e.(armed := f.armed)
    ensures Core(r, f)
  {
    hide Fit;
  }

  lemma AskedDoubles(m: Client, e: Env, asked: seq<Addr>, f: Env)
    requires Core(m, e) && AsksRightly(m, e, asked) && Asked(e, asked, f)
    ensures Doubled(m.pending, f.Trusted())
  {
    hide Lease6.Lists, Fit;
  }

  lemma CoveredCounts(bs: seq<Addr6>, asked: seq<Addr>, e: Env, m: Client, f: Env)
    requires Covered(bs, asked, e.Trusted()) && m.dadWait == asked
    requires exists x :: Asked(e, asked, x) && f == x.(armed := f.armed)
    ensures Accounted(m, f, bs)
  {
    hide Lease6.Lists;
  }

  lemma ContinueInv(c: Ctx, rnd: Entropy, k: Continuation)
    requires Sound(c.m, c.env()) && c.m.dadWait == []
    requires k == BindKept ==> FitHere(c.m, c.env(), c.m.pending)
    ensures Good(Continue(c, rnd, k))
  {
    hide Executed, Fit, RestartDiscovery, EnterBound;
    match k {
      case Restart => RestartDiscoveryInv(c, rnd);
      case BindKept => EnterBoundInv(c.(m := DropPending(c.m)), rnd, c.m.pending);
    }
  }

  lemma DeclineSetInv(c: Ctx, rnd: Entropy, server: Duid, addrs: seq<Addr>, temps: seq<Addr>, k: Continuation)
    requires Sound(c.m, c.env()) && c.m.dadWait == []
    requires k == BindKept ==> FitHere(c.m, c.env(), c.m.pending)
    ensures Good(DeclineSet(c, rnd, server, addrs, temps, k))
  {
    hide Executed, Fit, Continue, StartExchangeFor, Schedule, Backoff6.Retransmit.First, Remember;
    var d := c.(m := c.m.(declined := Remember(c.m.declined, addrs)));
    if |addrs| + |temps| == 0 {
      ContinueInv(c, rnd, k);
    } else if server == [] {
      ContinueInv(d, rnd, k);
    } else {
      var m := d.m.(server := server, declining := addrs, decliningTA := temps, afterDecline := Some(k),
                    state := Checking);
      var x := Cancel(d.(m := m), TimerDAD);
      StartExchangeAside(x, rnd, Decline, []);
      SoundAside(x, StartExchangeFor(x, rnd, Decline, []));
    }
  }

  lemma FinishDeclineInv(c: Ctx, e: Env, rnd: Entropy)
    requires Sound(c.m, c.env()) && Declining(c.m, e) && e.Trusted() <= c.env().Trusted() && e.now <= c.now()
    ensures Good(FinishDecline(c, rnd))
  {
    hide Executed, RestartDiscovery, Continue;
    var d := EndExchange(c);
    if c.m.afterDecline == Some(BindKept) {
      FitGrows(c.m.params.temporary, e, c.env(), c.m.pending);
    }
    SoundAside(c, d);
    ContinueInv(d, rnd, c.m.afterDecline.value);
  }

  lemma FitGrows(temporary: bool, e: Env, f: Env, l: Lease6)
    requires Fit(temporary, e.now, e.Trusted(), l) && e.now <= f.now && e.Trusted() <= f.Trusted()
    ensures Fit(temporary, f.now, f.Trusted(), l)
  {
  }

  lemma {:induction false} AllTemporary(l: Lease6, s: seq<Addr>)
    ensures |Temporary(l, s)| <= |s|
    ensures |Temporary(l, s)| == |s| ==> Temporary(l, s) == s && forall a :: a in s ==> Has(l.temps, a)
  {
    if s != [] {
      AllTemporary(l, s[..|s| - 1]);
      assert s == s[..|s| - 1] + [s[|s| - 1]];
    }
  }

  /** With the temporary addresses in use left out, what remains is fit. */
  lemma KeptIsFit(m: Client, e: Env, bad: seq<Addr>)
    requires PendingRule(m, e) && m.dadWait == [] && m.dadBad == bad && |Temporary(m.pending, bad)| == |bad|
    ensures FitHere(m, e, m.pending.(temps := Excluding(m.pending.temps, Temporary(m.pending, bad))))
  {
    hide Temporary;
    AllTemporary(m.pending, bad);
    var l := m.pending;
    var kept := Excluding(l.temps, bad);
    forall i | 0 <= i < |l.addrs| ensures l.addrs[i].addr in e.Trusted() {
      if l.addrs[i].addr in bad {
        var j :| 0 <= j < |l.temps| && l.temps[j].addr == l.addrs[i].addr;
        assert Has(l.addrs, l.temps[j].addr);
      }
    }
    forall i | 0 <= i < |kept| ensures kept[i].addr in e.Trusted() {
      assert kept[i] in kept;
      var j :| 0 <= j < |l.temps| && l.temps[j] == kept[i];
    }
  }

  /** The last answer: bound, declined in part, or declined whole. */
  lemma CheckedInv(c: Ctx, rnd: Entropy)
    requires Sound(c.m, c.env()) && PendingRule(c.m, c.env()) && c.m.dadWait == []
    ensures Good(Checked(c, rnd))
  {
    hide Executed, Fit, EnterBound, DeclineSet, Temporary, Excluding, NotHeld;
    var l, bad := c.m.pending, c.m.dadBad;
    if bad == [] {
      assert FitHere(c.m, c.env(), l) by { CleanIsFit(c.m, c.env()); }
      EnterBoundInv(c.(m := DropPending(c.m)), rnd, l);
    } else {
      var temps := Temporary(l, bad);
      if |temps| == |bad| {
        KeptIsFit(c.m, c.env(), bad);
        var rest := l.(temps := Excluding(l.temps, temps));
        DeclineSetInv(c.(m := c.m.(pending := rest, dadWait := [], dadBad := [])), rnd, l.server, [], temps, BindKept);
      } else {
        var d := c.(m := DropPending(c.m));
        DeclineSetInv(if c.m.lease.Some? then d else Emit(d, Failed(ReasonConflict)), rnd, l.server,
                      Addrs(Excluding(l.addrs, c.m.carried)), NotHeld(l.temps, c.m.Held().temps), Restart);
      }
    }
  }

  lemma CleanIsFit(m: Client, e: Env)
    requires PendingRule(m, e) && m.dadWait == [] && m.dadBad == []
    ensures FitHere(m, e, m.pending)
  {
  }

  /** An answer, delivered: nothing in use depends on a check still open. */
  lemma AnsweredSound(m: Client, e: Env, a: Addr, duplicate: bool)
    requires Sound(m, e)
    ensures Sound(m, Answered(e, a, duplicate)) && e.Trusted() <= Answered(e, a, duplicate).Trusted()
    ensures
      var f := Answered(e, a, duplicate);
      f == e.(awaiting := f.awaiting, vouched := f.vouched)
  {
    var f := Answered(e, a, duplicate);
    assert e.vouched <= f.vouched;
    if m.lease.Some? {
      FitGrows(m.params.temporary, e, f, m.lease.value);
    }
  }

  lemma TakeDADResultInv(c: Ctx, e: Env, rnd: Entropy, a: Addr, duplicate: bool)
    requires Inv(c.m, e) && c.m.state == Checking && e.now <= c.now()
    requires c.env() == Answered(e.(now := c.now(), asks := false), a, duplicate)
    ensures Good(TakeDADResult(c, rnd, a, duplicate))
  {
    hide Executed, Fit, Checked, Core, ExpiryRule, Without, PendingRule, Answered;
    var f := e.(now := c.now(), asks := false);
    SoundLater(c.m, e, c.now());
    AnsweredSound(c.m, f, a, duplicate);
    if a !in c.m.dadWait {
      UnaskedAnswer(c, e, a, duplicate);
    } else {
      var d := c.(m := c.m.(dadWait := Without(c.m.dadWait, a),
                            dadBad := if duplicate then c.m.dadBad + [a] else c.m.dadBad));
      AskingIsPending(c.m, e, a);
      PendingLater(c.m, e, c.m, f);
      AnswerAccounts(c.m, f, a, duplicate, d.m);
      AnswerTaken(c, d, rnd);
    }
  }

  /** The check goes on with one answer more, or is over. */
  lemma AnswerTaken(c: Ctx, d: Ctx, rnd: Entropy)
    requires Sound(c.m, c.env()) && !c.env().asks && c.m.state == Checking && c.m.msgType.None?
    requires c.env().armed.dad.Some? && PendingRule(d.m, c.env())
    requires d == c.(m := c.m.(dadWait := d.m.dadWait, dadBad := d.m.dadBad))
    ensures d.m.dadWait != [] ==> Good(d)
    ensures d.m.dadWait == [] ==> Good(Checked(Cancel(d, TimerDAD), rnd))
  {
    hide Executed, Fit, Checked, Core, ExpiryRule, PendingRule, Emit;
    AnswerKeepsSound(c, d);
    if d.m.dadWait == [] {
      LastAnswerTaken(d, rnd);
    }
  }

  lemma LastAnswerTaken(c: Ctx, rnd: Entropy)
    requires Sound(c.m, c.env()) && c.m.dadWait == [] && PendingRule(c.m, c.env())
    ensures Good(Checked(Cancel(c, TimerDAD), rnd))
  {
    hide Executed, Fit, Checked, Core, ExpiryRule, PendingRule, StateRule;
    var x := Cancel(c, TimerDAD);
    assert !c.env().asks by { NotAsking(c.m, c.env()); }
    AnswerKeepsSound(c, x);
    PendingLater(c.m, c.env(), x.m, x.env());
    CheckedInv(x, rnd);
  }

  lemma NotAsking(m: Client, e: Env)
    requires Core(m, e) && m.dadWait == []
    ensures !e.asks
  {
  }

  lemma AskingIsPending(m: Client, e: Env, a: Addr)
    requires StateRule(m, e) && a in m.dadWait
    ensures Asking(m, e) && PendingRule(m, e)
  {
  }

  /** An answer nobody waits for changes nothing. */
  lemma UnaskedAnswer(c: Ctx, e: Env, a: Addr, duplicate: bool)
    requires Inv(c.m, e) && c.m.state == Checking && e.now <= c.now() && a !in c.m.dadWait
    requires c.env() == Answered(e.(now := c.now(), asks := false), a, duplicate) && e.Trusted() <= c.env().Trusted()
    requires Sound(c.m, c.env())
    ensures Good(c)
  {
    hide Executed, Fit, Core, ExpiryRule;
    if Declining(c.m, e) && c.m.afterDecline == Some(BindKept) {
      FitGrows(c.m.params.temporary, e, c.env(), c.m.pending);
    }
    assert Asking(c.m, e) ==> PendingRule(c.m, c.env());
  }

  lemma AnswerKeepsSound(c: Ctx, r: Ctx)
    requires Sound(c.m, c.env())
    requires r.m == c.m.(dadWait := r.m.dadWait, dadBad := r.m.dadBad, nextAction := r.m.nextAction)
    requires r.env() == c.env().(armed := r.env().armed) && r.env().armed.expire == c.env().armed.expire
    requires !c.env().asks
    ensures Sound(r.m, r.env())
  {
    hide Executed, Fit;
  }

  lemma SoundLater(m: Client, e: Env, now: Instant)
    requires Sound(m, e) && e.now <= now
    ensures Sound(m, e.(now := now, asks := false))
  {
  }

  lemma AnswerAccounts(m: Client, e: Env, a: Addr, duplicate: bool, r: Client)
    requires Sound(m, e) && PendingRule(m, e) && a in m.dadWait
    requires r == m.(dadWait := Without(m.dadWait, a), dadBad := if duplicate then m.dadBad + [a] else m.dadBad)
    ensures PendingRule(r, Answered(e, a, duplicate))
  {
    hide Without, Fit, ExpiryRule;
    var f := Answered(e, a, duplicate);
    assert e.vouched <= f.vouched;
    assert a in f.vouched || a in r.dadBad;
    assert forall x :: x in m.dadWait && x != a ==> x in r.dadWait;
    assert forall x :: x in m.dadBad ==> x in r.dadBad;
    assert Accounted(r, f, m.pending.addrs) && Accounted(r, f, m.pending.temps);
  }

  // ---------------------------------------------------------------- replies --

  lemma {:induction false} NotHeldMembers(bs: seq<Addr6>, held: seq<Addr6>, a: Addr)
    ensures a in NotHeld(bs, held) <==> Has(bs, a) && !Has(held, a)
  {
    if bs != [] {
      var n := |bs| - 1;
      NotHeldMembers(bs[..n], held, a);
      HasMore(bs[..n], bs[n], a);
      assert bs == bs[..n] + [bs[n]];
    }
  }

  lemma {:induction false} FromHeldNames(held: seq<Addr6>, heldStart: Instant, got: seq<Addr6>, zeroed: seq<Addr>,
                                         newStart: Instant, now: Instant, a: Addr)
    ensures
      var r := FromHeld(held, heldStart, got, zeroed, newStart, now);
      && (Has(r, a) ==> Has(held, a)) && (Has(held, a) && Has(got, a) ==> Has(r, a))
  {
    if held != [] {
      var n := |held| - 1;
      FromHeldNames(held[..n], heldStart, got, zeroed, newStart, now, a);
      HasMore(held[..n], held[n], a);
      assert held == held[..n] + [held[n]];
      var before, one := FromHeld(held[..n], heldStart, got, zeroed, newStart, now),
                         Renewed(held[n], heldStart, got, zeroed, newStart, now);
      assert one == [] || (|one| == 1 && one[0].addr == held[n].addr);
      if one == [] {
        assert before + one == before;
      } else {
        assert one == [one[0]];
        HasMore(before, one[0], a);
      }
    }
  }

  lemma {:induction false} AddedNames(got: seq<Addr6>, held: seq<Addr6>, a: Addr)
    ensures Has(Added(got, held), a) <==> Has(got, a) && !Has(held, a)
  {
    if got != [] {
      var n := |got| - 1;
      AddedNames(got[..n], held, a);
      HasMore(got[..n], got[n], a);
      assert got == got[..n] + [got[n]];
      var before := Added(got[..n], held);
      HasMore(before, got[n], a);
      assert before + [] == before;
    }
  }

  lemma HasEither(xs: seq<Addr6>, ys: seq<Addr6>, a: Addr)
    ensures Has(xs + ys, a) <==> Has(xs, a) || Has(ys, a)
  {
    if Has(xs, a) {
      var i :| 0 <= i < |xs| && xs[i].addr == a;
      assert (xs + ys)[i].addr == a;
    }
    if Has(ys, a) {
      var i :| 0 <= i < |ys| && ys[i].addr == a;
      assert (xs + ys)[|xs| + i].addr == a;
    }
    if Has(xs + ys, a) {
      var i :| 0 <= i < |xs| + |ys| && (xs + ys)[i].addr == a;
      if i < |xs| {
        assert xs[i].addr == a;
      } else {
        assert ys[i - |xs|].addr == a;
      }
    }
  }

  /** The merge names what was granted, and nothing that was neither granted nor held. */
  lemma MergeNames(held: seq<Addr6>, heldStart: Instant, got: seq<Addr6>, zeroed: seq<Addr>, newStart: Instant,
                   now: Instant, a: Addr)
    ensures
      var r := RenewedAddrs(held, heldStart, got, zeroed, newStart, now);
      (Has(got, a) ==> Has(r, a)) && (Has(r, a) ==> Has(got, a) || Has(held, a))
  {
    hide FromHeld, Added, Has;
    FromHeldNames(held, heldStart, got, zeroed, newStart, now, a);
    AddedNames(got, held, a);
    HasEither(FromHeld(held, heldStart, got, zeroed, newStart, now), Added(got, held), a);
  }

  lemma {:induction false} DropStableNames(temps: seq<Addr6>, stable: seq<Addr6>)
    ensures forall x :: x in DropStable(temps, stable) ==> x in temps && !Has(stable, x.addr)
  {
    if temps != [] {
      DropStableNames(temps[..|temps| - 1], stable);
    }
  }

  /** What is pending on one side and held on the other is held on both. */
  predicate SidesAgree(l: Lease6, h: Lease6) {
    && (forall i :: 0 <= i < |l.addrs| && Has(h.temps, l.addrs[i].addr) ==> Has(h.addrs, l.addrs[i].addr))
    && (forall i :: 0 <= i < |l.temps| && Has(h.addrs, l.temps[i].addr) ==> Has(h.temps, l.temps[i].addr))
  }

  /** What is pending on both sides is held. */
  predicate DoublesHeld(m: Client, l: Lease6) {
    forall i :: 0 <= i < |l.temps| && Has(l.addrs, l.temps[i].addr) ==> Holds(m, l.temps[i].addr)
  }

  /** What binds a pending lease to the held one before it is checked. */
  predicate Ready(m: Client, e: Env, l: Lease6) {
    && l.addrs != [] && l.start <= e.now && (!m.params.temporary ==> l.temps == [])
    && DoublesHeld(m, l) && (e.apart ==> SidesAgree(l, m.Held()))
  }

  lemma RenewalIsReady(m: Client, e: Env, l: Lease6, zeroed: seq<Addr>, r: Lease6)
    requires Core(m, e) && m.lease.Some? && l.addrs != [] && l.start <= e.now
    requires e.apart ==> Foreign(l.addrs, m.lease.value.temps)
    requires
      var h := m.lease.value;
      r == l.(addrs := RenewedAddrs(h.addrs, h.start, l.addrs, zeroed, l.start, e.now),
              temps := CarriedTemps(h.temps, h.start, l.start, e.now))
    ensures Ready(m, e, r)
  {
    hide FromHeld, RenewedAddrs;
    var h := m.lease.value;
    MergeNames(h.addrs, h.start, l.addrs, zeroed, l.start, e.now, l.addrs[0].addr);
    assert Has(l.addrs, l.addrs[0].addr);
    assert h.temps == [] ==> r.temps == [] by { CarriesNone(h.start, l.start, e.now); }
    forall i | 0 <= i < |r.temps| ensures Has(h.temps, r.temps[i].addr) {
      assert Has(r.temps, r.temps[i].addr);
      FromHeldNames(h.temps, h.start, [], [], l.start, e.now, r.temps[i].addr);
    }
    if e.apart {
      forall i | 0 <= i < |r.addrs| && Has(h.temps, r.addrs[i].addr) ensures Has(h.addrs, r.addrs[i].addr) {
        assert Has(r.addrs, r.addrs[i].addr);
        MergeNames(h.addrs, h.start, l.addrs, zeroed, l.start, e.now, r.addrs[i].addr);
        ForeignTo(l.addrs, h.temps, r.addrs[i].addr);
      }
    }
  }

  lemma ForeignTo(bs: seq<Addr6>, held: seq<Addr6>, a: Addr)
    requires Foreign(bs, held)
    ensures Has(bs, a) ==> !Has(held, a)
  {
  }

  lemma CarriesNone(oldStart: Instant, newStart: Instant, now: Instant)
    ensures CarriedTemps([], oldStart, newStart, now) == []
  {
  }

  lemma GrantIsReady(m: Client, e: Env, msg: Message, l: Lease6, r: Lease6)
    requires Core(m, e) && l.addrs != [] && l.start <= e.now && l.temps == []
    requires e.apart ==> SidesKept(m, msg) && Foreign(l.addrs, m.Held().temps)
    requires r == l || (m.params.temporary && r == l.(temps := ReadTemporary(msg.tas, m.params.iaid, l.addrs)))
    ensures Ready(m, e, r)
  {
    hide ReadFirst, ReadIA;
    if r != l && msg.tas.Some? {
      var ts := ReadFirst(msg.tas.value, m.params.iaid, false).addrs;
      DropStableNames(ts, l.addrs);
      forall i | 0 <= i < |r.temps|
        ensures !Has(l.addrs, r.temps[i].addr) && (e.apart ==> !Has(m.Held().addrs, r.temps[i].addr))
      {
        assert r.temps[i] in ts;
      }
    }
  }

  lemma LeaseFromReplyIsForeign(m: Client, e: Env, msg: Message)
    requires Core(m, e) && SidesKept(m, msg)
    ensures Foreign(LeaseFromReply(m, msg).0.addrs, m.Held().temps)
  {
    hide ReadIA, ReadFirst;
  }

  lemma SettleInv(c: Ctx, rnd: Entropy)
    requires Sound(c.m, c.env()) && c.m.dadWait == [] && c.m.msgType.None? && Ready(c.m, c.env(), c.m.pending)
    ensures Good(Settle(c, rnd))
  {
    hide Executed, EnterBound, StartChecking, NotHeld, Lease6.NextEnd;
    var p, h, trusted := c.m.pending, c.m.Held(), c.env().Trusted();
    var stable, temps := NotHeld(p.addrs, h.addrs), NotHeld(p.temps, h.temps);
    var asked := Unchecked(c.m, p);
    assert asked == stable + temps;
    AskedOrHeld(p.addrs, h.addrs, stable, trusted);
    AskedOrHeld(p.temps, h.temps, temps, trusted);
    if asked == [] {
      EnterBoundInv(c, rnd, p);
    } else {
      if c.env().apart {
        AsksNoneHeld(c.m, p);
      }
      StartCheckingInv(c, asked);
    }
  }

  /** Every pending address is asked about, unless it is held and so trusted. */
  lemma AskedOrHeld(bs: seq<Addr6>, held: seq<Addr6>, asked: seq<Addr>, trusted: set<Addr>)
    requires AllIn(held, trusted) && asked == NotHeld(bs, held)
    ensures Covered(bs, asked, trusted)
  {
    hide NotHeld;
    forall i | 0 <= i < |bs| ensures bs[i].addr in asked || bs[i].addr in trusted {
      NotHeldMembers(bs, held, bs[i].addr);
      assert Has(bs, bs[i].addr);
    }
  }

  /** Where the sides agree, nothing held is asked about. */
  lemma AsksNoneHeld(m: Client, l: Lease6)
    requires SidesAgree(l, m.Held())
    ensures forall a :: a in Unchecked(m, l) ==> !Holds(m, a)
  {
    hide NotHeld;
    var h := m.Held();
    forall a | a in Unchecked(m, l) ensures !Holds(m, a) {
      NotHeldMembers(l.addrs, h.addrs, a);
      NotHeldMembers(l.temps, h.temps, a);
    }
  }
}
