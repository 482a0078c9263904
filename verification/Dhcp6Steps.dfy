/** Every step of the DHCPv6 client, state by state, keeps the invariant. */
module Dhcp6Steps {
  import opened Clock
  import opened Lease
  import opened Lease6
  import opened Dhcp6
  import opened Dhcp6Invariant
  import Backoff6

  /** The step about to be taken: the event delivered to a client that keeps
      the invariant. */
  ghost predicate Delivered(c: Ctx, e: Env, ev: Event) {
    Inv(c.m, e) && Admissible(e, c.now(), ev) && c.env() == Deliver(c.m, e, c.now(), ev)
  }

  /** If no server has moved an address so far, this message moves none. */
  ghost predicate Kept(c: Ctx, msg: Message) { c.env().apart ==> SidesKept(c.m, msg) }

  lemma DeliveredKept(c: Ctx, e: Env, ev: Event)
    requires Delivered(c, e, ev)
    ensures ev.Received? && ev.msg.Some? ==> Kept(c, ev.msg.value)
  {
    hide Executed, Inv, SidesKept;
  }

  /** Every event but the expiry's leaves a sound client sound. */
  lemma DeliveredSound(c: Ctx, e: Env, ev: Event)
    requires Delivered(c, e, ev) && ev != TimerFired(TimerExpire)
    ensures Sound(c.m, c.env()) && e.Trusted() <= c.env().Trusted() && !c.env().asks
  {
    hide Executed, SidesKept;
    SoundLater(c.m, e, c.now());
    if ev.DADResult? {
      AnsweredSound(c.m, e.(now := c.now(), asks := false), ev.addr, ev.duplicate);
    } else {
      SoundWaived(c.m, e.(now := c.now(), asks := false), c.env());
    }
  }

  /** Once a server has moved an address, less is asked of the lease. */
  lemma SoundWaived(m: Client, e: Env, f: Env)
    requires Sound(m, e) && f == e.(armed := f.armed, apart := f.apart) && f.armed.expire == e.armed.expire
    requires f.apart ==> e.apart
    ensures Sound(m, f)
  {
  }

  /** Events that are neither a timer nor an answer leave the state's own rule as well. */
  lemma DeliveredGood(c: Ctx, e: Env, ev: Event)
    requires Delivered(c, e, ev) && !ev.TimerFired? && !ev.DADResult?
    ensures Good(c)
  {
    hide Executed, Core, ExpiryRule, Lease6.NextEnd;
    DeliveredSound(c, e, ev);
    assert c.env() == e.(now := c.now(), asks := false, apart := c.env().apart);
    RuleLater(c.m, e, c.env());
  }

  lemma RuleLater(m: Client, e: Env, later: Env)
    requires StateRule(m, e) && e.now <= later.now && later == e.(now := later.now, asks := false, apart := later.apart)
    ensures StateRule(m, later)
  {
    if m.state == Checking && Declining(m, e) && m.afterDecline == Some(BindKept) {
      FitGrows(m.params.temporary, e, later, m.pending);
    }
  }

  /** Only reports and the ceilings of later exchanges have changed. */
  ghost predicate Stays(c: Ctx, r: Ctx) {
    && r.m == c.m.(params := r.m.params, nextAction := r.m.nextAction)
    && r.m.params == c.m.params.(table := r.m.params.table) && (c.m.params.Valid() ==> r.m.params.Valid())
    && r.m.params.table == c.m.params.table.(solMaxRT := r.m.params.table.solMaxRT,
                                             infMaxRT := r.m.params.table.infMaxRT)
    && r.env() == c.env().(told := r.env().told) && r.start == c.start
  }

  lemma StaysGood(c: Ctx, r: Ctx)
    requires Stays(c, r)
    ensures Sound(c.m, c.env()) ==> Sound(r.m, r.env())
    ensures Good(c) ==> Good(r)
  {
    hide Executed, Fit, Lease6.NextEnd;
  }

  lemma ApplyMaxRTStays(c: Ctx, msg: Message)
    ensures Stays(c, ApplyMaxRT(c, msg))
  {
    hide Executed, Ceilings;
  }

  lemma RefuseStays(c: Ctx, d: Ctx, code: Option<nat>)
    requires Stays(c, d)
    ensures Stays(c, Refuse(d, code))
  {
    hide Executed;
  }

  lemma StaysKeeps(c: Ctx, r: Ctx, msg: Message)
    requires Stays(c, r)
    ensures Kept(c, msg) ==> Kept(r, msg)
  {
    hide Executed, ReadIA, ReadFirst;
  }

  // ---------------------------------------------------------------- replies --

  lemma SelectAndRequestInv(c: Ctx, rnd: Entropy)
    requires Sound(c.m, c.env()) && c.m.dadWait == []
    ensures SelectAndRequest(c, rnd).1 ==> Good(SelectAndRequest(c, rnd).0)
    ensures !SelectAndRequest(c, rnd).1 ==> SelectAndRequest(c, rnd).0 == c
    ensures c.m.adverts != [] && c.m.tried == [] ==> SelectAndRequest(c, rnd).1
  {
    hide Executed, StartExchangeFor, Fit, Best;
    var best := Best(c.m.adverts, c.m.tried);
    if best.Some? {
      var a := c.m.adverts[best.value];
      var l := Lease6(c.m.params.iaid, a.addrs, a.temps, a.server, a.t1, a.t2, 0, 0, None);
      StartExchangeInv(c.(m := c.m.(server := a.server, pending := l)), rnd, Request, []);
    } else if c.m.adverts != [] {
      assert c.m.adverts[0].server in c.m.tried;
    }
  }

  lemma TryNextInv(c: Ctx, rnd: Entropy)
    requires Sound(c.m, c.env()) && c.m.dadWait == []
    ensures Good(TryNext(c, rnd))
  {
    hide Executed, SelectAndRequest, RestartDiscovery, Fit;
    var d := c.(m := c.m.(tried := c.m.tried + [c.m.server]));
    SelectAndRequestInv(d, rnd);
    RestartDiscoveryInv(d, rnd);
  }

  lemma NoteKeyInv(c: Ctx, msg: Message)
    requires Sound(c.m, c.env())
    ensures Sound(NoteKey(c, msg).m, NoteKey(c, msg).env())
  {
    hide Executed, NoteKey, Fit, Lease6.NextEnd;
  }

  lemma MergedReady(c: Ctx, msg: Message)
    requires Sound(c.m, c.env()) && c.m.msgType.Some? && Kept(c, msg) && LeaseFromReply(c.m, msg).0.addrs != []
    ensures
      var (l, res) := LeaseFromReply(c.m, msg);
      Ready(c.m, c.env(), Merged(c.m, msg, l, res.zeroed, c.now()))
  {
    hide Executed, Fit, RenewedAddrs, FromHeld, ReadIA, ReadTemporary, Foreign, Lease6.NextEnd, Ready;
    var (l, res) := LeaseFromReply(c.m, msg);
    if c.env().apart {
      LeaseFromReplyIsForeign(c.m, c.env(), msg);
    }
    var merged := Merged(c.m, msg, l, res.zeroed, c.now());
    if IsRenewal(c.m) && c.m.lease.Some? {
      RenewalIsReady(c.m, c.env(), l, res.zeroed, merged);
    } else {
      GrantIsReady(c.m, c.env(), msg, l, merged);
    }
  }

  lemma PendInv(c: Ctx, msg: Message)
    requires Sound(c.m, c.env()) && c.m.dadWait == [] && c.m.msgType.Some? && Kept(c, msg)
    requires LeaseFromReply(c.m, msg).0.addrs != []
    ensures
      var (l, res) := LeaseFromReply(c.m, msg);
      var r := Pend(c, msg, l, res.zeroed);
      Sound(r.m, r.env()) && r.m.dadWait == [] && r.m.msgType.None? && Ready(r.m, r.env(), r.m.pending)
  {
    hide Executed, Sound, Merged, CarriedAddrs, LeaseFromReply, Foreign, Kept, SidesAgree, Lease6.Lists;
    var (l, res) := LeaseFromReply(c.m, msg);
    MergedReady(c, msg);
    PendSound(c, msg, l, res.zeroed);
  }

  lemma PendSound(c: Ctx, msg: Message, l: Lease6, zeroed: seq<Addr>)
    requires Sound(c.m, c.env())
    ensures Sound(Pend(c, msg, l, zeroed).m, Pend(c, msg, l, zeroed).env())
  {
    hide Executed, Fit, Merged, CarriedAddrs, Lease6.NextEnd;
  }

  lemma TakeGrantInv(c: Ctx, rnd: Entropy, msg: Message)
    requires Sound(c.m, c.env()) && c.m.dadWait == [] && c.m.msgType.Some? && Kept(c, msg)
    requires LeaseFromReply(c.m, msg).0.addrs != []
    ensures
      var (l, res) := LeaseFromReply(c.m, msg);
      Good(TakeGrant(c, rnd, msg, l, res.zeroed))
  {
    hide Executed, Fit, Pend, NoteKey, Settle, ReadIA, Ready, SidesKept;
    var (l, res) := LeaseFromReply(c.m, msg);
    PendInv(c, msg);
    var p := Pend(c, msg, l, res.zeroed);
    NoteKeyInv(p, msg);
    NoteKeyReady(p, msg);
    SettleInv(NoteKey(p, msg), rnd);
  }

  lemma TakeNothingInv(c: Ctx, rnd: Entropy, code: Option<nat>)
    requires Sound(c.m, c.env()) && c.m.dadWait == []
    ensures Good(TakeNothing(c, rnd, code))
  {
    hide Executed, Fit, RestartDiscovery, TryNext, Refuse;
    var d := Refuse(c, code);
    RefuseStays(c, c, code);
    StaysGood(c, d);
    RestartDiscoveryInv(d, rnd);
    TryNextInv(d, rnd);
  }

  lemma TakeIAInv(c: Ctx, rnd: Entropy, msg: Message)
    requires Sound(c.m, c.env()) && c.m.dadWait == [] && c.m.msgType.Some? && Kept(c, msg) && msg.Server() != []
    ensures Good(TakeIA(c, rnd, msg))
  {
    hide Executed, Fit, TakeNothing, TakeGrant, StartExchangeFor, ReadIA, RefusalCode, SidesKept;
    var (l, res) := LeaseFromReply(c.m, msg);
    if IsRenewal(c.m) && res.status == Code(NO_BINDING) {
      var held := NO_LEASE.(iaid := c.m.params.iaid, addrs := c.m.Held().addrs, temps := c.m.Held().temps);
      StartExchangeInv(c.(m := c.m.(server := msg.Server(), pending := held)), rnd, Request, []);
    } else if l.addrs == [] {
      TakeNothingInv(c, rnd, RefusalCode(if res.found then res.status else NoStatus, msg.status));
    } else {
      TakeGrantInv(c, rnd, msg);
    }
  }

  lemma NoteKeyReady(c: Ctx, msg: Message)
    requires Ready(c.m, c.env(), c.m.pending)
    ensures Ready(NoteKey(c, msg).m, NoteKey(c, msg).env(), NoteKey(c, msg).m.pending)
  {
    hide Executed, NoteKey;
  }

  lemma TakeReplyInv(c: Ctx, rnd: Entropy, msg: Message)
    requires Good(c) && c.m.dadWait == [] && c.m.msgType.Some? && Kept(c, msg) && msg.Server() != []
    ensures Good(TakeReply(c, rnd, msg))
  {
    hide Executed, Fit, ApplyMaxRT, TakeIA, RestartDiscovery, LoseLease, Refuse, SidesKept;
    var d := ApplyMaxRT(c, msg);
    ApplyMaxRTStays(c, msg);
    StaysGood(c, d);
    StaysKeeps(c, d, msg);
    RefuseStays(c, d, Some(TopCode(msg.status)));
    StaysGood(c, Refuse(d, Some(TopCode(msg.status))));
    if TopCode(msg.status) == NOT_ON_LINK {
      LoseLeaseCore(d, ReasonNak);
      var x := LoseLease(d, ReasonNak);
      RefuseStays(x, x, Some(NOT_ON_LINK));
      StaysGood(x, Refuse(x, Some(NOT_ON_LINK)));
      RestartDiscoveryInv(Refuse(x, Some(NOT_ON_LINK)), rnd);
    } else {
      TakeIAInv(d, rnd, msg);
    }
  }

  lemma TakeAdvertiseInv(c: Ctx, rnd: Entropy, msg: Message)
    requires Good(c) && c.m.state == Selecting && msg.Server() != []
    ensures Good(TakeAdvertise(c, rnd, msg))
  {
    hide Executed, Fit, ApplyMaxRT, SelectAndRequest, Refuse, ReadIA, ReadTemporary, RefusalCode;
    var d := ApplyMaxRT(c, msg);
    ApplyMaxRTStays(c, msg);
    StaysGood(c, d);
    var res := ReadIA(msg.nas, d.m.params.iaid);
    RefuseStays(c, d, Some(TopCode(msg.status)));
    StaysGood(c, Refuse(d, Some(TopCode(msg.status))));
    RefuseStays(c, d, RefusalCode(res.status, NoStatus));
    StaysGood(c, Refuse(d, RefusalCode(res.status, NoStatus)));
    var temps := if d.m.params.temporary then ReadTemporary(msg.tas, d.m.params.iaid, res.addrs) else [];
    var a := Advert(msg.Server(), msg.preference, res.addrs, temps, res.t1, res.t2);
    var x := d.(m := d.m.(adverts := d.m.adverts + [a]));
    AdvertAdded(d, x, a);
    SelectAndRequestInv(x.(m := x.m.(windowDone := true)), rnd);
    SelectAndRequestInv(x, rnd);
  }

  lemma AdvertAdded(c: Ctx, r: Ctx, a: Advert)
    requires Good(c) && c.m.state == Selecting && a.server != [] && r == c.(m := c.m.(adverts := c.m.adverts + [a]))
    ensures Good(r) && Good(r.(m := r.m.(windowDone := true)))
  {
    hide Executed, Fit, Lease6.NextEnd;
  }

  lemma ContinueFromResumeInv(c: Ctx, rnd: Entropy)
    requires Sound(c.m, c.env()) && c.m.dadWait == []
    ensures Good(ContinueFromResume(c, rnd))
  {
    hide Executed, Fit, RestartDiscovery, StartChecking;
    if c.m.resume.Some? && c.m.resume.value.Live() {
      var s := c.m.resume.value;
      var l := Lease6(c.m.params.iaid, s.addrs, [], s.server, s.t1, s.t2, c.now(), s.config, None);
      var d := Cancel(c.(m := c.m.(pending := l, msgType := None)), TimerRetransmit);
      AllAsked(l.addrs, d.env().Trusted());
      StartCheckingInv(d, Addrs(l.addrs));
    } else {
      RestartDiscoveryInv(c, rnd);
    }
  }

  lemma AllAsked(bs: seq<Addr6>, trusted: set<Addr>)
    ensures Covered(bs, Addrs(bs), trusted)
  {
    forall i | 0 <= i < |bs| ensures bs[i].addr in Addrs(bs) {
      assert Addrs(bs)[i] == bs[i].addr;
    }
  }

  lemma TakeConfirmationInv(c: Ctx, rnd: Entropy, msg: Message)
    requires Good(c) && c.m.dadWait == []
    ensures Good(TakeConfirmation(c, rnd, msg))
  {
    hide Executed, Fit, ApplyMaxRT, RestartDiscovery, ContinueFromResume, Refuse;
    var d := ApplyMaxRT(c, msg);
    ApplyMaxRTStays(c, msg);
    StaysGood(c, d);
    RefuseStays(c, d, Some(NOT_ON_LINK));
    StaysGood(c, Refuse(d, Some(NOT_ON_LINK)));
    RestartDiscoveryInv(Refuse(d, Some(NOT_ON_LINK)), rnd);
    ContinueFromResumeInv(d, rnd);
  }

  lemma TakeInformationInv(c: Ctx, rnd: Entropy, msg: Message)
    requires Good(c) && c.m.state == InfoRequesting
    ensures Good(TakeInformation(c, rnd, msg))
  {
    hide Executed, Fit, ApplyMaxRT, Refuse, TakeConfig, RefusalCode;
    var d := ApplyMaxRT(c, msg);
    ApplyMaxRTStays(c, msg);
    StaysGood(c, d);
    RefuseStays(c, d, RefusalCode(msg.status, NoStatus));
    StaysGood(c, Refuse(d, RefusalCode(msg.status, NoStatus)));
    TakeConfigInv(d, rnd, msg);
  }

  lemma TakeConfigInv(c: Ctx, rnd: Entropy, msg: Message)
    requires Good(c) && c.m.state == InfoRequesting
    ensures Good(TakeConfig(c, rnd, msg))
  {
    hide Executed, Fit, RefreshTime, NoteKey, AnnounceHostname, Lease6.NextEnd;
    var d := RefreshTime(c.m.params, msg.refresh);
    var k := NoteKey(Cancel(c.(m := c.m.(refresh := d, refreshOwed := false, msgType := None)), TimerRetransmit), msg);
    var x := Emit(EndDetour(k), Configured(msg.config, d));
    var y := if d == INFINITE then Cancel(x, TimerRefresh) else Set(x, TimerRefresh, d);
    assert Good(y);
    AnnounceHostnameInv(y, rnd);
  }

  // ------------------------------------------------------------ each state --

  lemma DeclineHeldInv(c: Ctx, rnd: Entropy)
    requires Sound(c.m, c.env()) && c.m.dadWait == []
    ensures Good(DeclineHeld(c, rnd))
  {
    hide Executed, Fit, LoseLease, DeclineSet;
    var l := c.m.Held();
    LoseLeaseCore(c, ReasonConflict);
    DeclineSetInv(LoseLease(c, ReasonConflict), rnd, l.server, Addrs(l.addrs), [], Restart);
  }

  lemma Release6Inv(c: Ctx, rnd: Entropy)
    requires Sound(c.m, c.env()) && c.m.dadWait == []
    ensures Good(Release6(c, rnd))
  {
    hide Executed, Fit, Halt, LoseLease, StartExchangeFor, CancelAll, UsableAddrs, Addrs, Schedule,
         Backoff6.Retransmit.First;
    if c.m.lease.None? {
      HaltInv(c, ReasonReleased);
    } else {
      var l := c.m.lease.value;
      var k := c.(m := c.m.(server := l.server));
      var d := Cancel(Cancel(Cancel(LoseLease(k, ReasonReleased), TimerRenew), TimerRebind), TimerExpire);
      ReleaseDrops(k);
      ReleaseSent(d.(m := d.m.(releasing := Addrs(l.addrs), releasingTA := UsableAddrs(Addrs(l.temps)),
                               state := Stopped)), rnd);
    }
  }

  lemma ReleaseDrops(c: Ctx)
    requires Sound(c.m, c.env()) && c.m.dadWait == []
    ensures
      var d := Cancel(Cancel(Cancel(LoseLease(c, ReasonReleased), TimerRenew), TimerRebind), TimerExpire);
      forall addrs, temps ::
        Good(d.(m := d.m.(releasing := addrs, releasingTA := temps, state := Stopped)))
  {
    hide Executed, Fit, LoseLease;
    LoseLeaseCore(c, ReasonReleased);
  }

  lemma ReleaseSent(c: Ctx, rnd: Entropy)
    requires Good(c) && c.m.state == Stopped
    ensures Good(StartExchangeFor(c, rnd, Kind.Release, []))
  {
    hide Executed, Fit, StartExchangeFor, Schedule, Backoff6.Retransmit.First, Lease6.NextEnd;
    StartExchangeAside(c, rnd, Kind.Release, []);
    SoundAside(c, StartExchangeFor(c, rnd, Kind.Release, []));
  }

  lemma FailureCounted(c: Ctx)
    requires Good(c)
    ensures Good(c.(m := c.m.(sendFailures := c.m.sendFailures + 1)))
  {
    hide Executed, Fit, Lease6.NextEnd;
  }

  lemma NoteActionFailedInv(c: Ctx)
    requires Good(c) && !c.env().asks
    ensures Good(NoteActionFailed(c))
  {
    hide Executed, Halt, StateRule, ExpiryRule;
    var d := c.(m := c.m.(sendFailures := c.m.sendFailures + 1));
    FailureCounted(c);
    HaltInv(Emit(d, Failed(ReasonTransport)), ReasonTransport);
  }

  lemma ObserveRouterInv(c: Ctx, rnd: Entropy, managed: bool, other: bool)
    requires Good(c)
    ensures Good(ObserveRouter(c, rnd, managed, other))
  {
    hide Executed, Fit, StartExchangeFor;
    if !managed && other && c.m.state == Selecting {
      var d := Cancel(c.(m := c.m.(adverts := [], windowDone := false)), TimerRetransmit);
      SoundAside(c, d);
      StartExchangeInv(d, rnd, InformationRequest, []);
    }
  }

  lemma RespondInv(c: Ctx, rnd: Entropy, kind: Kind, sid: Duid)
    requires Good(c) && c.m.state != Checking && (kind == InformationRequest || c.m.state == Bound)
    ensures Good(Respond(c, rnd, kind, sid))
  {
    hide Executed, Fit, StartExchangeFor, EnterRenewing, EnterRebinding;
    EnterRenewingInv(c, rnd);
    EnterRebindingInv(c, rnd);
    StartExchangeInv(c.(m := c.m.(reconfDetour := c.m.reconfDetour || c.m.state == Bound)), rnd, InformationRequest,
                     sid);
  }

  lemma CountedGood(c: Ctx, r: Ctx)
    requires Good(c) && r == c.(m := c.m.(reconf := r.m.reconf, counts := r.m.counts))
    ensures Good(r)
  {
    hide Executed, Fit, Lease6.NextEnd;
  }

  lemma TakeReconfigureInv(c: Ctx, rnd: Entropy, msg: Message, raw: Frame, dst: Option<Addr>)
    requires Good(c)
    ensures Good(TakeReconfigure(c, rnd, msg, raw, dst))
  {
    hide Executed, Inv, Respond, IsUnicast;
    if ReconfigureFault(c.m, msg, raw, dst).None? {
      RespondInv(c, rnd, msg.reconfigure.kind, msg.Server());
      CountedGood(Respond(c, rnd, msg.reconfigure.kind, msg.Server()), TakeReconfigure(c, rnd, msg, raw, dst));
    } else {
      CountedGood(c, TakeReconfigure(c, rnd, msg, raw, dst));
    }
  }

  lemma StepStoppedInv(c: Ctx, e: Env, rnd: Entropy, ev: Event)
    requires Delivered(c, e, ev) && ev != TimerFired(TimerExpire) && c.m.state == Stopped
    ensures Good(StepStopped(c, rnd, ev))
  {
    hide Executed, Fit, Begin, Transmit, Backoff6.Retransmit.Next, Lease6.NextEnd, Admits;
    DeliveredSound(c, e, ev);
    BeginInv(c, rnd);
    var d := c.(m := c.m.(rt := c.m.sched.Next(c.m.rt, rnd)));
    TransmitAside(d);
    SoundAside(c, Resend(c, rnd));
    SoundAside(c, EndExchange(c));
  }

  lemma StepInitInv(c: Ctx, e: Env, rnd: Entropy, ev: Event)
    requires Delivered(c, e, ev) && ev != TimerFired(TimerExpire) && c.m.state == Init
    ensures Good(StepInit(c, rnd, ev))
  {
    hide Executed, Fit, Halt, StartExchangeFor, Lease6.NextEnd, Answered;
    DeliveredSound(c, e, ev);
    match ev {
      case TimerFired(TimerDelay) => StartExchangeInv(c, rnd, c.m.pendingType, []);
      case Stop => HaltInv(c, ReasonStopped);
      case LinkDown => HaltInv(c, ReasonLinkDown);
      case Release => HaltInv(c, ReasonReleased);
      case _ => AnsweredTimers(c.m, e, c.now(), ev);
    }
  }

  /** An answer to a check moves no timer. */
  lemma AnsweredTimers(m: Client, e: Env, now: Instant, ev: Event)
    ensures Deliver(m, e, now, ev).armed == if ev.TimerFired? then e.armed.With(ev.timer, None) else e.armed
  {
  }

  lemma StepSelectingInv(c: Ctx, e: Env, rnd: Entropy, ev: Event)
    requires Delivered(c, e, ev) && ev != TimerFired(TimerExpire) && c.m.state == Selecting
    ensures Good(StepSelecting(c, rnd, ev))
  {
    hide Executed, Fit, Halt, TakeAdvertise, CollectionEnds, Lease6.NextEnd, Answered;
    DeliveredSound(c, e, ev);
    AnsweredTimers(c.m, e, c.now(), ev);
    match ev {
      case Received(msg, _, _) =>
        DeliveredGood(c, e, ev);
        if Admits(c.m, msg) {
          TakeAdvertiseInv(c, rnd, msg.value);
        }
      case TimerFired(TimerRetransmit) => CollectionEndsInv(c, e, rnd);
      case Stop => HaltInv(c, ReasonStopped);
      case LinkDown => HaltInv(c, ReasonLinkDown);
      case Release => HaltInv(c, ReasonReleased);
      case _ =>
    }
  }

  lemma CollectionEndsInv(c: Ctx, e: Env, rnd: Entropy)
    requires Sound(c.m, c.env()) && Inv(c.m, e) && c.m.state == Selecting
    requires c.env() == e.(now := c.now(), armed := e.armed.(retransmit := None), asks := false)
    ensures Good(CollectionEnds(c, rnd))
  {
    hide Executed, Fit, SelectAndRequest, Resend, Lease6.NextEnd;
    ResendInv(c, rnd, e);
    var d := c.(m := c.m.(windowDone := true));
    SelectAndRequestInv(d, rnd);
    ResendInv(d, rnd, e);
  }

  lemma StepRequestingInv(c: Ctx, e: Env, rnd: Entropy, ev: Event)
    requires Delivered(c, e, ev) && ev != TimerFired(TimerExpire) && c.m.state == Requesting
    ensures Good(StepRequesting(c, rnd, ev))
  {
    hide Executed, Fit, Halt, TakeReply, TryNext, Resend, GivesUp, Lease6.NextEnd, Answered, SidesKept;
    DeliveredSound(c, e, ev);
    AnsweredTimers(c.m, e, c.now(), ev);
    match ev {
      case Received(msg, _, _) =>
        DeliveredGood(c, e, ev);
        DeliveredKept(c, e, ev);
        if Admits(c.m, msg) {
          TakeReplyInv(c, rnd, msg.value);
        }
      case TimerFired(TimerRetransmit) =>
        TryNextInv(c, rnd);
        ResendInv(c, rnd, e);
      case Stop => HaltInv(c, ReasonStopped);
      case LinkDown => HaltInv(c, ReasonLinkDown);
      case Release => HaltInv(c, ReasonReleased);
      case _ =>
    }
  }

  lemma StepConfirmingInv(c: Ctx, e: Env, rnd: Entropy, ev: Event)
    requires Delivered(c, e, ev) && ev != TimerFired(TimerExpire) && c.m.state == Confirming
    ensures Good(StepConfirming(c, rnd, ev))
  {
    hide Executed, Fit, Halt, TakeConfirmation, ContinueFromResume, Resend, GivesUp, Lease6.NextEnd, Answered,
         SidesKept;
    DeliveredSound(c, e, ev);
    AnsweredTimers(c.m, e, c.now(), ev);
    match ev {
      case Received(msg, _, _) =>
        DeliveredGood(c, e, ev);
        if Admits(c.m, msg) {
          TakeConfirmationInv(c, rnd, msg.value);
        }
      case TimerFired(TimerRetransmit) =>
        ContinueFromResumeInv(c, rnd);
        ResendInv(c, rnd, e);
      case Stop => HaltInv(c, ReasonStopped);
      case LinkDown => HaltInv(c, ReasonLinkDown);
      case Release => HaltInv(c, ReasonReleased);
      case _ =>
    }
  }

  lemma StepInfoRequestingInv(c: Ctx, e: Env, rnd: Entropy, ev: Event)
    requires Delivered(c, e, ev) && ev != TimerFired(TimerExpire) && c.m.state == InfoRequesting
    ensures Good(StepInfoRequesting(c, rnd, ev))
  {
    hide Executed, Fit, Halt, TakeInformation, EnterRenewing, EnterRebinding, StartExchangeFor, Resend, Lease6.NextEnd,
         Answered, SidesKept, RandomDelay;
    DeliveredSound(c, e, ev);
    AnsweredTimers(c.m, e, c.now(), ev);
    match ev {
      case Received(msg, _, _) =>
        DeliveredGood(c, e, ev);
        if Admits(c.m, msg) {
          TakeInformationInv(c, rnd, msg.value);
        }
      case TimerFired(t) => InfoTimerInv(c, e, rnd, t);
      case Stop => HaltInv(c, ReasonStopped);
      case LinkDown => HaltInv(c, ReasonLinkDown);
      case Release => HaltInv(c, ReasonReleased);
      case _ =>
    }
  }

  lemma InfoTimerInv(c: Ctx, e: Env, rnd: Entropy, t: TimerID)
    requires Delivered(c, e, TimerFired(t)) && t != TimerExpire && c.m.state == InfoRequesting && Sound(c.m, c.env())
    ensures Good(StepInfoRequesting(c, rnd, TimerFired(t)))
  {
    hide Executed, Fit, EnterRenewing, EnterRebinding, StartExchangeFor, Resend, Lease6.NextEnd, RandomDelay;
    match t {
      case TimerRetransmit => ResendInv(c, rnd, e);
      case TimerDelay => StartExchangeInv(c, rnd, InformationRequest, []);
      case TimerRefresh => RefreshWaitInv(c, e, rnd);
      case TimerDAD =>
      case _ => DetourCutShort(c, rnd);
    }
  }

  lemma DetourCutShort(c: Ctx, rnd: Entropy)
    requires Sound(c.m, c.env()) && c.m.dadWait == []
    ensures
      var d := c.(m := c.m.(reconfDetour := false));
      Good(EnterRenewing(d, rnd)) && Good(EnterRebinding(d, rnd))
  {
    hide Executed, Fit, EnterRenewing, EnterRebinding, Lease6.NextEnd;
    var d := c.(m := c.m.(reconfDetour := false));
    EnterRenewingInv(d, rnd);
    EnterRebindingInv(d, rnd);
  }

  lemma RefreshWaitInv(c: Ctx, e: Env, rnd: Entropy)
    requires Delivered(c, e, TimerFired(TimerRefresh)) && c.m.state == InfoRequesting && Sound(c.m, c.env())
    ensures Good(StepInfoRequesting(c, rnd, TimerFired(TimerRefresh)))
  {
    hide Executed, Fit, RandomDelay, Lease6.NextEnd;
    SoundAside(c, StepInfoRequesting(c, rnd, TimerFired(TimerRefresh)));
  }

  lemma GaveUpChecking(c: Ctx, d: Ctx, rnd: Entropy)
    requires Sound(c.m, c.env()) && !c.env().asks && d.m.dadWait == [] && Aside(c, d) && d.m.params == c.m.params
    requires d.m == DropPending(c.m).(nextAction := d.m.nextAction)
    ensures Good(RestartDiscovery(d, rnd))
  {
    hide Executed, Fit, RestartDiscovery;
    SoundAside(c, d);
    RestartDiscoveryInv(d, rnd);
  }

  lemma DeclineRetransmits(c: Ctx, e: Env, rnd: Entropy)
    requires Inv(c.m, e) && c.m.state == Checking && Declining(c.m, e) && Sound(c.m, c.env())
    requires c.env() == e.(now := c.now(), armed := e.armed.(retransmit := None), asks := false) && e.now <= c.now()
    ensures Good(if GivesUp(c) then FinishDecline(c, rnd) else Resend(c, rnd))
  {
    hide Executed, Transmit, GivesUp, FinishDecline, Backoff6.Retransmit.Next;
    FinishDeclineInv(c, e, rnd);
    var d := c.(m := c.m.(rt := c.m.sched.Next(c.m.rt, rnd)));
    TransmitAside(d);
    SoundAside(c, Resend(c, rnd));
    if c.m.afterDecline == Some(BindKept) {
      FitGrows(c.m.params.temporary, e, c.env(), c.m.pending);
    }
  }

  lemma StepCheckingInv(c: Ctx, e: Env, rnd: Entropy, ev: Event)
    requires Delivered(c, e, ev) && ev != TimerFired(TimerExpire) && c.m.state == Checking
    ensures Good(StepChecking(c, rnd, ev))
  {
    hide Executed, Fit, Halt, TakeDADResult, RestartDiscovery, FinishDecline, Resend, GivesUp, Lease6.NextEnd,
         Answered, SidesKept, Admits;
    DeliveredSound(c, e, ev);
    match ev {
      case DADResult(a, duplicate) => TakeDADResultInv(c, e, rnd, a, duplicate);
      case TimerFired(t) => CheckingTimer(c, e, rnd, t);
      case Received(msg, _, _) =>
        DeliveredGood(c, e, ev);
        if Declining(c.m, e) {
          FinishDeclineInv(c, e, rnd);
        }
      case AddressLost => GaveUpChecking(c, c.(m := DropPending(c.m)), rnd);
      case Stop => HaltInv(c, ReasonStopped);
      case LinkDown => HaltInv(c, ReasonLinkDown);
      case Release => HaltInv(c, ReasonReleased);
      case _ => DeliveredGood(c, e, ev);
    }
  }

  lemma CheckingTimer(c: Ctx, e: Env, rnd: Entropy, t: TimerID)
    requires Delivered(c, e, TimerFired(t)) && t != TimerExpire && c.m.state == Checking && Sound(c.m, c.env())
    ensures Good(StepChecking(c, rnd, TimerFired(t)))
  {
    hide Executed, Fit, Halt, TakeDADResult, RestartDiscovery, FinishDecline, Resend, GivesUp, Lease6.NextEnd,
         Answered, SidesKept, Core, ExpiryRule;
    if t == TimerDAD {
      var d := Emit(Cancel(c, TimerDAD), Failed(ReasonDADIncomplete));
      GaveUpChecking(c, d.(m := DropPending(d.m)), rnd);
    } else if t == TimerRetransmit && c.m.msgType == Some(Decline) {
      DeclineRetransmits(c, e, rnd);
    } else {
      RuleLater(c.m, e, e.(now := c.now(), asks := false));
      assert Asking(c.m, e) ==> PendingRule(c.m, c.env()) by {
        if Asking(c.m, e) {
          PendingLater(c.m, e, c.m, c.env());
        }
      }
    }
  }

  lemma StepBoundInv(c: Ctx, e: Env, rnd: Entropy, ev: Event)
    requires Delivered(c, e, ev) && ev != TimerFired(TimerExpire) && c.m.state == Bound
    ensures Good(StepBound(c, rnd, ev))
  {
    hide Executed, Fit, Halt, EnterRenewing, EnterRebinding, StartExchangeFor, DeclineHeld, Release6, Lease6.NextEnd,
         Answered, SidesKept, RandomDelay;
    DeliveredSound(c, e, ev);
    AnsweredTimers(c.m, e, c.now(), ev);
    match ev {
      case TimerFired(TimerRenew) => EnterRenewingInv(c, rnd);
      case TimerFired(TimerRebind) => EnterRebindingInv(c, rnd);
      case TimerFired(TimerDelay) => StartExchangeInv(c, rnd, InformationRequest, []);
      case TimerFired(TimerRefresh) => SoundAside(c, StepBound(c, rnd, ev));
      case AddressLost => DeclineHeldInv(c, rnd);
      case DADResult(_, _) => DeclineHeldInv(c, rnd);
      case Release => Release6Inv(c, rnd);
      case Stop => HaltInv(c, ReasonStopped);
      case LinkDown => HaltInv(c, ReasonLinkDown);
      case _ =>
    }
  }

  lemma StepRenewalInv(c: Ctx, e: Env, rnd: Entropy, ev: Event)
    requires Delivered(c, e, ev) && ev != TimerFired(TimerExpire) && IsRenewal(c.m)
    ensures Good(StepRenewal(c, rnd, ev))
  {
    hide Executed, Fit, Halt, TakeReply, EnterRebinding, DeclineHeld, Release6, Resend, Lease6.NextEnd, Answered,
         SidesKept;
    DeliveredSound(c, e, ev);
    AnsweredTimers(c.m, e, c.now(), ev);
    match ev {
      case Received(msg, _, _) =>
        DeliveredGood(c, e, ev);
        DeliveredKept(c, e, ev);
        if Admits(c.m, msg) {
          TakeReplyInv(c, rnd, msg.value);
        }
      case TimerFired(TimerRetransmit) => ResendInv(c, rnd, e);
      case TimerFired(TimerRebind) => EnterRebindingInv(c, rnd);
      case AddressLost => DeclineHeldInv(c, rnd);
      case Release => Release6Inv(c, rnd);
      case Stop => HaltInv(c, ReasonStopped);
      case LinkDown => HaltInv(c, ReasonLinkDown);
      case _ =>
    }
  }

  lemma StepStateInv(c: Ctx, e: Env, rnd: Entropy, ev: Event)
    requires Delivered(c, e, ev) && ev != TimerFired(TimerExpire)
    ensures Good(StepState(c, rnd, ev))
  {
    hide Executed, Good, Inv, Admissible, Deliver, SidesKept, StepStopped, StepInit, StepSelecting, StepRequesting,
         StepConfirming, StepInfoRequesting, StepChecking, StepBound, StepRenewal;
    match c.m.state {
      case Stopped => StepStoppedInv(c, e, rnd, ev);
      case Init => StepInitInv(c, e, rnd, ev);
      case Selecting => StepSelectingInv(c, e, rnd, ev);
      case Requesting => StepRequestingInv(c, e, rnd, ev);
      case Confirming => StepConfirmingInv(c, e, rnd, ev);
      case InfoRequesting => StepInfoRequestingInv(c, e, rnd, ev);
      case Checking => StepCheckingInv(c, e, rnd, ev);
      case Bound => StepBoundInv(c, e, rnd, ev);
      case Renewing => StepRenewalInv(c, e, rnd, ev);
      case Rebinding => StepRenewalInv(c, e, rnd, ev);
    }
  }

  /** Whatever the state, the event and the entropy, a step keeps the
      invariant, as long as timers fire only when armed and due and the decoder
      refuses an empty server identifier. What the invariant says of checks it
      says until a server moves an address between the two kinds. */
  lemma StepKeepsInv(m: Client, e: Env, now: Instant, rnd: Entropy, ev: Event)
    requires Inv(m, e) && Admissible(e, now, ev)
    ensures Good(Advance(m, e, now, rnd, ev))
  {
    hide Executed, Inv, SidesKept, ExpireLease, TakeHostname, NoteActionFailed, TakeReconfigure, ObserveRouter,
         StepState;
    var c := Begun(m, Deliver(m, e, now, ev));
    if ev == TimerFired(TimerExpire) {
      ExpireLeaseInv(c, e, rnd);
    } else {
      if !ev.TimerFired? && !ev.DADResult? {
        DeliveredGood(c, e, ev);
      }
      match ev {
        case RouterAdvert(managed, other) => ObserveRouterInv(c, rnd, managed, other);
        case SetHostname(name) => TakeHostnameInv(c, rnd, name);
        case ActionFailed(_) => NoteActionFailedInv(c);
        case Received(_, _, _) =>
          if IsReconfigure(ev) {
            TakeReconfigureInv(c, rnd, ev.msg.value, ev.raw, ev.dst);
          } else {
            StepStateInv(c, e, rnd, ev);
          }
        case _ => StepStateInv(c, e, rnd, ev);
      }
    }
  }
}
