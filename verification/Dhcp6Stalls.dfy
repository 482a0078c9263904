/** Whether the DHCPv6 client always has a way forward: the timer each state
    waits for, and the one state that can be left without any. */
module Dhcp6Stalls {
  import opened Clock
  import opened Lease
  import opened Lease6
  import opened Dhcp6
  import opened Dhcp6Invariant
  import opened Dhcp6Steps
  import opened Dhcp6Runs
  import Backoff6

  /** Bound, with nothing bound. */
  predicate Bare(m: Client) { m.state == Bound && m.lease.None? }

  /** An Information-request begun aside from a lease that has gone since. */
  predicate Stale(m: Client) { m.state == InfoRequesting && m.reconfDetour && m.lease.None? }

  /** The event is a Reply that ends an Information-request. */
  predicate Configures(m: Client, ev: Event) {
    && m.state == InfoRequesting && ev.Received? && Admits(m, ev.msg) && ev.msg.value.kind == Reply
    && !ev.msg.value.status.BadStatus? && RefusalCode(ev.msg.value.status, NoStatus).None?
  }

  /** The event takes a client out of BOUND where it holds no lease. */
  predicate Leaves(m: Client, ev: Event) {
    || (ev.TimerFired? && (ev.timer == TimerRenew || ev.timer == TimerRebind || ev.timer == TimerDelay))
    || ev.AddressLost? || (ev.DADResult? && ev.duplicate) || ev.Release? || ev.Stop? || ev.LinkDown?
    || (IsReconfigure(ev) && ReconfigureFault(m, ev.msg.value, ev.raw, ev.dst).None?)
  }

  // ------------------------------------------------ what ends bound, and how --

  /** Nothing but the end of an Information-request leaves BOUND without a lease. */
  predicate Seated(m: Client) { m.state == Bound ==> m.lease.Some? }

  lemma LoseLeaseState(c: Ctx, why: Reason)
    ensures LoseLease(c, why).m == c.m.(lease := None, nextAction := LoseLease(c, why).m.nextAction)
  {
    hide Executed;
  }

  lemma HaltStops(c: Ctx, why: Reason)
    ensures Halt(c, why).m.state == Stopped
  {
    hide Executed, LoseLease;
  }

  lemma RestartSearches(c: Ctx, rnd: Entropy)
    ensures RestartDiscovery(c, rnd).m.state == Init
  {
    hide Executed, RandomDelay;
  }

  lemma StartExchangeWaits(c: Ctx, rnd: Entropy, t: Kind, sid: Duid)
    ensures
      var r := StartExchangeFor(c, rnd, t, sid).m;
      r.state == Waiting(t, c.m.state) && r.lease == c.m.lease
  {
    hide Executed, StartExchangeFor, Opened;
    OpenedFacts(c.m, c.now(), rnd, t, sid);
    StartExchangeAside(c, rnd, t, sid);
  }

  lemma EnterRebindingLeaves(c: Ctx, rnd: Entropy)
    ensures EnterRebinding(c, rnd).m.state == Rebinding && EnterRebinding(c, rnd).m.lease == c.m.lease
  {
    hide Executed, StartExchangeFor;
    var d := AbandonRefreshDelay(c);
    StartExchangeWaits(d.(m := d.m.(server := [])), rnd, Rebind, []);
  }

  lemma EnterRenewingLeaves(c: Ctx, rnd: Entropy)
    ensures
      var r := EnterRenewing(c, rnd).m;
      (r.state == Renewing || r.state == Rebinding) && r.lease == c.m.lease
  {
    hide Executed, StartExchangeFor, EnterRebinding;
    var d := AbandonRefreshDelay(c);
    EnterRebindingLeaves(d, rnd);
    StartExchangeWaits(d.(m := d.m.(server := d.m.Held().server)), rnd, Renew, []);
  }

  /** A name to announce disturbs neither a lease nor the want of one. */
  lemma AnnounceHostnameSeats(c: Ctx, rnd: Entropy)
    ensures
      var r := AnnounceHostname(c, rnd);
      && r.m.lease == c.m.lease && (Bare(r.m) <==> Bare(c.m)) && (Bare(c.m) || c.m.state == InfoRequesting ==> r == c)
      && (r.m.state == Bound ==> c.m.state == Bound) && (r.m.state == InfoRequesting ==> r == c)
  {
    hide Executed, StartExchangeFor, EnterRenewing;
    match c.m.state {
      case Bound => EnterRenewingLeaves(c, rnd);
      case Renewing => StartExchangeWaits(c, rnd, Renew, []);
      case Rebinding => StartExchangeWaits(c, rnd, Rebind, []);
      case _ =>
    }
  }

  lemma EnterBoundSeats(c: Ctx, rnd: Entropy, l: Lease6)
    ensures Seated(EnterBound(c, rnd, l).m)
  {
    hide Executed, AnnounceHostname, ArmRenewal, ArmExpiry, AnnounceLease, RandomDelay, WithAuthority;
    var k := Cancel(c, TimerRetransmit);
    var d := AnnounceLease(k.(m := Adopt(k.m, l)), c.m.lease);
    AnnounceHostnameSeats(ArmOwedRefresh(ArmExpiry(ArmRenewal(d)), rnd), rnd);
  }

  lemma ContinueSeats(c: Ctx, rnd: Entropy, k: Continuation)
    ensures Seated(Continue(c, rnd, k).m)
  {
    hide Executed, RestartDiscovery, EnterBound;
    RestartSearches(c, rnd);
    EnterBoundSeats(c.(m := DropPending(c.m)), rnd, c.m.pending);
  }

  lemma DeclineSetSeats(c: Ctx, rnd: Entropy, server: Duid, addrs: seq<Addr>, temps: seq<Addr>, k: Continuation)
    ensures Seated(DeclineSet(c, rnd, server, addrs, temps, k).m)
  {
    hide Executed, Continue, StartExchangeFor, Remember;
    var d := c.(m := c.m.(declined := Remember(c.m.declined, addrs)));
    ContinueSeats(c, rnd, k);
    ContinueSeats(d, rnd, k);
    if |addrs| + |temps| > 0 && server != [] {
      var m := d.m.(server := server, declining := addrs, decliningTA := temps, afterDecline := Some(k),
                    state := Checking);
      StartExchangeWaits(Cancel(d.(m := m), TimerDAD), rnd, Decline, []);
    }
  }

  lemma FinishDeclineSeats(c: Ctx, rnd: Entropy)
    ensures Seated(FinishDecline(c, rnd).m)
  {
    hide Executed, RestartDiscovery, Continue;
    var d := EndExchange(c);
    RestartSearches(d, rnd);
    if c.m.afterDecline.Some? {
      ContinueSeats(d, rnd, c.m.afterDecline.value);
    }
  }

  lemma CheckedSeats(c: Ctx, rnd: Entropy)
    ensures Seated(Checked(c, rnd).m)
  {
    hide Executed, EnterBound, DeclineSet, Temporary, Excluding, NotHeld, Seated;
    var l, bad := c.m.pending, c.m.dadBad;
    if bad == [] {
      EnterBoundSeats(c.(m := DropPending(c.m)), rnd, l);
    } else {
      var temps := Temporary(l, bad);
      if |temps| == |bad| {
        var rest := l.(temps := Excluding(l.temps, temps));
        DeclineSetSeats(c.(m := c.m.(pending := rest, dadWait := [], dadBad := [])), rnd, l.server, [], temps,
                        BindKept);
      } else {
        var d := c.(m := DropPending(c.m));
        DeclineSetSeats(if c.m.lease.Some? then d else Emit(d, Failed(ReasonConflict)), rnd, l.server,
                        Addrs(Excluding(l.addrs, c.m.carried)), NotHeld(l.temps, c.m.Held().temps), Restart);
      }
    }
  }

  lemma SelectAndRequestSeats(c: Ctx, rnd: Entropy)
    ensures
      var (r, asked) := SelectAndRequest(c, rnd);
      if asked then r.m.state == Requesting else r == c
  {
    hide Executed, StartExchangeFor, Best;
    var best := Best(c.m.adverts, c.m.tried);
    if best.Some? {
      var a := c.m.adverts[best.value];
      var l := Lease6(c.m.params.iaid, a.addrs, a.temps, a.server, a.t1, a.t2, 0, 0, None);
      StartExchangeWaits(c.(m := c.m.(server := a.server, pending := l)), rnd, Request, []);
    }
  }

  lemma TryNextSeats(c: Ctx, rnd: Entropy)
    ensures Seated(TryNext(c, rnd).m)
  {
    hide Executed, SelectAndRequest, RestartDiscovery;
    var d := c.(m := c.m.(tried := c.m.tried + [c.m.server]));
    SelectAndRequestSeats(d, rnd);
    RestartSearches(d, rnd);
  }

  lemma StartCheckingWaits(c: Ctx, asked: seq<Addr>)
    ensures StartChecking(c, asked).m.state == Checking
  {
    hide Executed, AskAll;
  }

  lemma TakeGrantSeats(c: Ctx, rnd: Entropy, msg: Message, l: Lease6, zeroed: seq<Addr>)
    ensures Seated(TakeGrant(c, rnd, msg, l, zeroed).m)
  {
    hide Executed, Pend, NoteKey, EnterBound, StartChecking, Seated;
    var d := NoteKey(Pend(c, msg, l, zeroed), msg);
    EnterBoundSeats(d, rnd, d.m.pending);
    StartCheckingWaits(d, Unchecked(d.m, d.m.pending));
    WaitingSeats(StartChecking(d, Unchecked(d.m, d.m.pending)).m);
  }

  lemma WaitingSeats(m: Client)
    ensures m.state != Bound ==> Seated(m)
  {
  }

  lemma TakeIASeats(c: Ctx, rnd: Entropy, msg: Message)
    ensures Seated(TakeIA(c, rnd, msg).m)
  {
    hide Executed, TryNext, RestartDiscovery, TakeGrant, StartExchangeFor, ReadIA, RefusalCode, Refuse;
    var (l, res) := LeaseFromReply(c.m, msg);
    var held := NO_LEASE.(iaid := c.m.params.iaid, addrs := c.m.Held().addrs, temps := c.m.Held().temps);
    StartExchangeWaits(c.(m := c.m.(server := msg.Server(), pending := held)), rnd, Request, []);
    var d := Refuse(c, RefusalCode(if res.found then res.status else NoStatus, msg.status));
    RestartSearches(d, rnd);
    TryNextSeats(d, rnd);
    TakeGrantSeats(c, rnd, msg, l, res.zeroed);
  }

  lemma RefuseState(c: Ctx, code: Option<nat>)
    ensures Refuse(c, code).m == c.m.(nextAction := Refuse(c, code).m.nextAction)
  {
    hide Executed;
  }

  lemma TakeReplySeats(c: Ctx, rnd: Entropy, msg: Message)
    requires c.m.state != Bound
    ensures Seated(TakeReply(c, rnd, msg).m)
  {
    hide Executed, Ceilings, TakeIA, RestartDiscovery, LoseLease, Refuse;
    var d := ApplyMaxRT(c, msg);
    var top := TopCode(msg.status);
    RefuseState(d, Some(top));
    RestartSearches(Refuse(LoseLease(d, ReasonNak), Some(top)), rnd);
    TakeIASeats(d, rnd, msg);
  }

  lemma TakeAdvertiseSeats(c: Ctx, rnd: Entropy, msg: Message)
    requires c.m.state == Selecting
    ensures TakeAdvertise(c, rnd, msg).m.state != Bound
  {
    hide Executed, Ceilings, SelectAndRequest, Refuse, ReadIA, ReadTemporary, RefusalCode;
    var d := ApplyMaxRT(c, msg);
    var res := ReadIA(msg.nas, d.m.params.iaid);
    RefuseState(d, Some(TopCode(msg.status)));
    RefuseState(d, RefusalCode(res.status, NoStatus));
    var temps := if d.m.params.temporary then ReadTemporary(msg.tas, d.m.params.iaid, res.addrs) else [];
    var a := Advert(msg.Server(), msg.preference, res.addrs, temps, res.t1, res.t2);
    var x := d.(m := d.m.(adverts := d.m.adverts + [a]));
    SelectAndRequestSeats(x, rnd);
    SelectAndRequestSeats(x.(m := x.m.(windowDone := true)), rnd);
  }

  lemma ContinueFromResumeSeats(c: Ctx, rnd: Entropy)
    ensures ContinueFromResume(c, rnd).m.state != Bound
  {
    hide Executed, RestartDiscovery, StartChecking;
    RestartSearches(c, rnd);
    if c.m.resume.Some? && c.m.resume.value.Live() {
      var s := c.m.resume.value;
      var l := Lease6(c.m.params.iaid, s.addrs, [], s.server, s.t1, s.t2, c.now(), s.config, None);
      var d := Cancel(c.(m := c.m.(pending := l, msgType := None)), TimerRetransmit);
      StartCheckingWaits(d, Addrs(l.addrs));
    }
  }

  lemma ResendStays(c: Ctx, rnd: Entropy)
    ensures Resend(c, rnd).m.state == c.m.state && Resend(c, rnd).m.lease == c.m.lease
  {
    hide Executed, Transmit, Backoff6.Retransmit.Next;
    TransmitAside(c.(m := c.m.(rt := c.m.sched.Next(c.m.rt, rnd))));
  }

  lemma DeclineHeldSeats(c: Ctx, rnd: Entropy)
    ensures Seated(DeclineHeld(c, rnd).m)
    ensures c.m.lease.None? ==> DeclineHeld(c, rnd).m.state == Init
  {
    hide Executed, LoseLease, DeclineSet, RestartDiscovery;
    var l := c.m.Held();
    DeclineSetSeats(LoseLease(c, ReasonConflict), rnd, l.server, Addrs(l.addrs), [], Restart);
    if c.m.lease.None? {
      DeclinesNothing(LoseLease(c, ReasonConflict), rnd);
    }
  }

  lemma DeclinesNothing(c: Ctx, rnd: Entropy)
    ensures DeclineSet(c, rnd, [], Addrs([]), [], Restart).m.state == Init
  {
    hide Executed, RestartDiscovery;
    RestartSearches(c, rnd);
  }

  lemma Release6Stops(c: Ctx, rnd: Entropy)
    ensures Release6(c, rnd).m.state == Stopped
  {
    hide Executed, Halt, LoseLease, StartExchangeFor, CancelAll, UsableAddrs, Addrs;
    HaltStops(c, ReasonReleased);
    if c.m.lease.Some? {
      var l := c.m.lease.value;
      var k := LoseLease(c.(m := c.m.(server := l.server)), ReasonReleased);
      var d := Cancel(Cancel(Cancel(k, TimerRenew), TimerRebind), TimerExpire);
      var x := d.(m := d.m.(releasing := Addrs(l.addrs), releasingTA := UsableAddrs(Addrs(l.temps)), state := Stopped));
      StartExchangeWaits(x, rnd, Kind.Release, []);
    }
  }

  // ------------------------------------------------------------ the detour --

  /** The end of an Information-request leaves the client bound without a lease
      exactly when it had stepped aside from a lease that is gone; and then
      nothing runs but what ran before and the wait for the next refresh. */
  lemma DetourOutlivesLease(c: Ctx, rnd: Entropy, msg: Message)
    requires c.m.state == InfoRequesting
    ensures
      var r, d := TakeConfig(c, rnd, msg), RefreshTime(c.m.params, msg.refresh);
      && (Bare(r.m) <==> c.m.reconfDetour && c.m.lease.None?)
      && (Bare(r.m) ==>
            && r.m.refresh == d
            && r.env().armed == c.env().armed.(retransmit := None,
                                               refresh := if d == INFINITE then None else Some(c.now() + d)))
  {
    hide Executed, NoteKey, RefreshTime, AnnounceHostname;
    var d := RefreshTime(c.m.params, msg.refresh);
    var k := NoteKey(Cancel(c.(m := c.m.(refresh := d, refreshOwed := false, msgType := None)), TimerRetransmit), msg);
    var x := Emit(EndDetour(k), Configured(msg.config, d));
    var y := if d == INFINITE then Cancel(x, TimerRefresh) else Set(x, TimerRefresh, d);
    AnnounceHostnameSeats(y, rnd);
  }

  // ------------------------------------------------------------- each state --

  lemma InfoRequestingBare(c: Ctx, rnd: Entropy, ev: Event)
    requires c.m.state == InfoRequesting
    ensures Bare(StepInfoRequesting(c, rnd, ev).m) <==> Stale(c.m) && Configures(c.m, ev)
  {
    hide Executed, Halt, EnterRenewing, EnterRebinding, StartExchangeFor, Resend, RandomDelay, TakeConfig, Ceilings,
         RefusalCode, Admits, Refuse, RefreshTime;
    match ev {
      case Received(msg, _, _) =>
        if Admits(c.m, msg) {
          AdmitsSome(c.m, msg);
          var d := ApplyMaxRT(c, msg.value);
          DetourOutlivesLease(d, rnd, msg.value);
          RefuseState(d, RefusalCode(msg.value.status, NoStatus));
        }
      case TimerFired(t) => InfoTimerSeats(c, rnd, t);
      case Stop => HaltStops(c, ReasonStopped);
      case LinkDown => HaltStops(c, ReasonLinkDown);
      case Release => HaltStops(c, ReasonReleased);
      case _ =>
    }
  }

  lemma InfoTimerSeats(c: Ctx, rnd: Entropy, t: TimerID)
    requires c.m.state == InfoRequesting
    ensures StepInfoRequesting(c, rnd, TimerFired(t)).m.state != Bound
  {
    hide Executed, EnterRenewing, EnterRebinding, StartExchangeFor, Resend, RandomDelay;
    var d := c.(m := c.m.(reconfDetour := false));
    ResendStays(c, rnd);
    StartExchangeWaits(c, rnd, InformationRequest, []);
    EnterRenewingLeaves(d, rnd);
    EnterRebindingLeaves(d, rnd);
  }

  lemma AdmitsSome(m: Client, msg: Option<Message>)
    requires Admits(m, msg)
    ensures msg.Some? && m.msgType.Some?
  {
  }

  lemma BoundBare(c: Ctx, rnd: Entropy, ev: Event)
    requires c.m.state == Bound && !IsReconfigure(ev)
    ensures Bare(StepBound(c, rnd, ev).m) <==> Bare(c.m) && !Leaves(c.m, ev)
  {
    hide Executed, Halt, EnterRenewing, EnterRebinding, StartExchangeFor, DeclineHeld, Release6, RandomDelay;
    match ev {
      case TimerFired(t) =>
        EnterRenewingLeaves(c, rnd);
        EnterRebindingLeaves(c, rnd);
        StartExchangeWaits(c, rnd, InformationRequest, []);
      case AddressLost => DeclineHeldSeats(c, rnd);
      case DADResult(_, _) => DeclineHeldSeats(c, rnd);
      case Release => Release6Stops(c, rnd);
      case Stop => HaltStops(c, ReasonStopped);
      case LinkDown => HaltStops(c, ReasonLinkDown);
      case _ =>
    }
  }

  lemma SearchSeats(c: Ctx, rnd: Entropy, ev: Event)
    requires c.m.state in {Stopped, Init, Selecting}
    requires c.m.state == Init ==> c.m.pendingType == Solicit || c.m.pendingType == Confirm
    ensures StepState(c, rnd, ev).m.state != Bound
  {
    hide Executed, Halt, Begin, StartExchangeFor, Resend, TakeAdvertise, SelectAndRequest, Admits, GivesUp;
    HaltStops(c, ReasonStopped);
    HaltStops(c, ReasonLinkDown);
    HaltStops(c, ReasonReleased);
    ResendStays(c, rnd);
    match c.m.state {
      case Stopped =>
        BeginSearches(c, rnd);
      case Init =>
        StartExchangeWaits(c, rnd, c.m.pendingType, []);
      case Selecting =>
        SelectingSeats(c, rnd, ev);
    }
  }

  lemma BeginSearches(c: Ctx, rnd: Entropy)
    ensures Begin(c, rnd).m.state == Init
  {
    hide Executed, RandomDelay;
  }

  lemma SelectingSeats(c: Ctx, rnd: Entropy, ev: Event)
    requires c.m.state == Selecting
    ensures StepSelecting(c, rnd, ev).m.state != Bound
  {
    hide Executed, Halt, Resend, TakeAdvertise, SelectAndRequest, Admits;
    HaltStops(c, ReasonStopped);
    HaltStops(c, ReasonLinkDown);
    HaltStops(c, ReasonReleased);
    var d := c.(m := c.m.(windowDone := true));
    ResendStays(c, rnd);
    ResendStays(d, rnd);
    SelectAndRequestSeats(d, rnd);
    if ev.Received? && Admits(c.m, ev.msg) {
      AdmitsSome(c.m, ev.msg);
      TakeAdvertiseSeats(c, rnd, ev.msg.value);
    }
  }

  lemma RequestSeats(c: Ctx, rnd: Entropy, ev: Event)
    requires c.m.state == Requesting || c.m.state == Confirming
    ensures Seated(StepState(c, rnd, ev).m)
  {
    hide Executed, Halt, Resend, TakeReply, TryNext, GivesUp, Admits, ContinueFromResume, Ceilings, RestartDiscovery,
         Refuse;
    HaltStops(c, ReasonStopped);
    HaltStops(c, ReasonLinkDown);
    HaltStops(c, ReasonReleased);
    match ev {
      case TimerFired(_) =>
        ResendStays(c, rnd);
        TryNextSeats(c, rnd);
        ContinueFromResumeSeats(c, rnd);
      case Received(msg, _, _) =>
        if Admits(c.m, msg) {
          AdmitsSome(c.m, msg);
          TakeReplySeats(c, rnd, msg.value);
          var d := ApplyMaxRT(c, msg.value);
          RestartSearches(Refuse(d, Some(NOT_ON_LINK)), rnd);
          ContinueFromResumeSeats(d, rnd);
        }
      case _ =>
    }
  }

  lemma CheckingSeats(c: Ctx, rnd: Entropy, ev: Event)
    requires c.m.state == Checking
    ensures Seated(StepChecking(c, rnd, ev).m)
  {
    hide Executed, Halt, Resend, Checked, Without, RestartDiscovery, FinishDecline, GivesUp, Admits;
    HaltStops(c, ReasonStopped);
    HaltStops(c, ReasonLinkDown);
    HaltStops(c, ReasonReleased);
    FinishDeclineSeats(c, rnd);
    match ev {
      case DADResult(a, duplicate) =>
        var d := c.(m := c.m.(dadWait := Without(c.m.dadWait, a),
                              dadBad := if duplicate then c.m.dadBad + [a] else c.m.dadBad));
        CheckedSeats(Cancel(d, TimerDAD), rnd);
      case TimerFired(_) =>
        ResendStays(c, rnd);
        var d := Emit(Cancel(c, TimerDAD), Failed(ReasonDADIncomplete));
        RestartSearches(d.(m := DropPending(d.m)), rnd);
      case AddressLost => RestartSearches(c.(m := DropPending(c.m)), rnd);
      case _ =>
    }
  }

  lemma RenewalSeats(c: Ctx, rnd: Entropy, ev: Event)
    requires IsRenewal(c.m)
    ensures Seated(StepRenewal(c, rnd, ev).m)
  {
    hide Executed, Halt, Resend, TakeReply, EnterRebinding, DeclineHeld, Release6, Admits;
    HaltStops(c, ReasonStopped);
    HaltStops(c, ReasonLinkDown);
    match ev {
      case Received(msg, _, _) =>
        if Admits(c.m, msg) {
          AdmitsSome(c.m, msg);
          TakeReplySeats(c, rnd, msg.value);
        }
      case TimerFired(_) =>
        ResendStays(c, rnd);
        EnterRebindingLeaves(c, rnd);
      case AddressLost => DeclineHeldSeats(c, rnd);
      case Release => Release6Stops(c, rnd);
      case _ =>
    }
  }

  lemma OnlyThere(m: Client)
    ensures (m.state != Bound ==> !Bare(m)) && (m.state != InfoRequesting ==> !Stale(m)) && (Seated(m) <==> !Bare(m))
  {
  }

  lemma StateBare(c: Ctx, rnd: Entropy, ev: Event)
    requires c.m.state == Init ==> c.m.pendingType == Solicit || c.m.pendingType == Confirm
    requires !IsReconfigure(ev)
    ensures Bare(StepState(c, rnd, ev).m) <==> (Stale(c.m) && Configures(c.m, ev)) || (Bare(c.m) && !Leaves(c.m, ev))
  {
    hide Executed, StepStopped, StepInit, StepSelecting, StepRequesting, StepConfirming, StepInfoRequesting,
         StepChecking,
         StepBound, StepRenewal, Bare, Stale, Configures, Leaves, Seated;
    OnlyThere(c.m);
    OnlyThere(StepState(c, rnd, ev).m);
    match c.m.state {
      case Stopped => SearchSeats(c, rnd, ev);
      case Init => SearchSeats(c, rnd, ev);
      case Selecting => SearchSeats(c, rnd, ev);
      case Requesting => RequestSeats(c, rnd, ev);
      case Confirming => RequestSeats(c, rnd, ev);
      case InfoRequesting => InfoRequestingBare(c, rnd, ev);
      case Checking => CheckingSeats(c, rnd, ev);
      case Bound => BoundBare(c, rnd, ev);
      case Renewing => RenewalSeats(c, rnd, ev);
      case Rebinding => RenewalSeats(c, rnd, ev);
    }
  }

  lemma ExpireBare(c: Ctx, rnd: Entropy)
    ensures Bare(ExpireLease(c, rnd).m) <==> Bare(c.m)
  {
    hide Executed, DropEnded, LoseLease, RestartDiscovery, AllEnded;
    if c.m.lease.Some? {
      var d := Cancel(c, TimerExpire);
      LoseLeaseState(d, ReasonExpired);
      RestartSearches(LoseLease(d, ReasonExpired), rnd);
      DropEndedHolds(c);
    }
  }

  lemma DropEndedHolds(c: Ctx)
    requires c.m.lease.Some?
    ensures DropEnded(c).m.lease.Some? && DropEnded(c).m.state == c.m.state
  {
    hide Executed, Vouches, Trusts, ArmExpiry;
  }

  lemma ReconfigureBare(c: Ctx, rnd: Entropy, ev: Event)
    requires IsReconfigure(ev)
    ensures Bare(TakeReconfigure(c, rnd, ev.msg.value, ev.raw, ev.dst).m) <==> Bare(c.m) && !Leaves(c.m, ev)
  {
    hide Executed, EnterRenewing, EnterRebinding, StartExchangeFor, IsUnicast;
    EnterRenewingLeaves(c, rnd);
    EnterRebindingLeaves(c, rnd);
    StartExchangeWaits(c.(m := c.m.(reconfDetour := c.m.reconfDetour || c.m.state == Bound)), rnd, InformationRequest,
                       ev.msg.value.Server());
  }

  /** A step ends bound without a lease exactly when it ends an
      Information-request begun aside from a lease that has gone since, or was
      bound without one before and nothing has taken it out of there. */
  lemma BareStep(w: World, i: Input)
    requires Inv(w.m, w.e)
    ensures Bare(Next(w, i).m) <==> (Stale(w.m) && Configures(w.m, i.ev)) || (Bare(w.m) && !Leaves(w.m, i.ev))
  {
    hide Executed, StepState, ExpireLease, TakeReconfigure, NoteActionFailed, ObserveRouter, TakeHostname, Leaves,
         Configures;
    var c, ev := Begun(w.m, Deliver(w.m, w.e, i.now, i.ev)), i.ev;
    OnlyTheseLeave(w.m, ev);
    if ev.RouterAdvert? {
      RouterBare(c, i.rnd, ev.managed, ev.other);
    } else if ev == TimerFired(TimerExpire) {
      ExpireBare(c, i.rnd);
    } else if ev.SetHostname? {
      HostnameBare(c, i.rnd, ev.name);
    } else if ev.ActionFailed? {
      FailureBare(c);
    } else if IsReconfigure(ev) {
      ReconfigureBare(c, i.rnd, ev);
    } else {
      StateBare(c, i.rnd, ev);
    }
  }

  lemma RouterBare(c: Ctx, rnd: Entropy, managed: bool, other: bool)
    ensures Bare(ObserveRouter(c, rnd, managed, other).m) <==> Bare(c.m)
  {
    hide Executed, StartExchangeFor;
    StartExchangeWaits(Cancel(c.(m := c.m.(adverts := [], windowDone := false)), TimerRetransmit), rnd,
                       InformationRequest, []);
  }

  lemma HostnameBare(c: Ctx, rnd: Entropy, name: string)
    ensures Bare(TakeHostname(c, rnd, name).m) <==> Bare(c.m)
  {
    hide Executed, AnnounceHostname;
    AnnounceHostnameSeats(c.(m := c.m.(hostname := name)), rnd);
  }

  lemma FailureBare(c: Ctx)
    ensures Bare(NoteActionFailed(c).m) <==> Bare(c.m)
  {
    hide Executed, Halt;
    HaltStops(Emit(c.(m := c.m.(sendFailures := c.m.sendFailures + 1)), Failed(ReasonTransport)), ReasonTransport);
  }

  lemma OnlyTheseLeave(m: Client, ev: Event)
    ensures (ev.RouterAdvert? || ev.SetHostname? || ev.ActionFailed? || ev.ARPReceived? || ev.ConflictDetected?
             || ev == TimerFired(TimerExpire)) ==> !Leaves(m, ev) && !Configures(m, ev)
    ensures IsReconfigure(ev) ==> !Configures(m, ev)
  {
  }

  // --------------------------------------------------------------- over runs --

  /** The step at k left the client bound without a lease, and nothing since
      has taken it out of there. */
  predicate WentBare(w: World, ins: seq<Input>, k: nat) {
    && k < |ins| && Stale(Play(w, ins[..k]).m) && Configures(Play(w, ins[..k]).m, ins[k].ev)
    && forall j :: k < j < |ins| ==> !Leaves(Play(w, ins[..j]).m, ins[j].ev)
  }

  lemma WentBareLast(w: World, ins: seq<Input>)
    requires |ins| > 0
    ensures
      var n := |ins| - 1;
      var v := Play(w, ins[..n]).m;
      (exists k: nat :: WentBare(w, ins, k)) <==>
        (Stale(v) && Configures(v, ins[n].ev)) || ((exists k: nat :: WentBare(w, ins[..n], k)) && !Leaves(v, ins[n].ev))
  {
    hide Play, Leaves, Configures, Stale;
    var n := |ins| - 1;
    var v := Play(w, ins[..n]).m;
    forall j | 0 <= j < n ensures ins[..n][..j] == ins[..j] {
    }
    if exists k: nat :: WentBare(w, ins, k) {
      var k: nat :| WentBare(w, ins, k);
      if k < n {
        assert WentBare(w, ins[..n], k);
      }
    }
    if Stale(v) && Configures(v, ins[n].ev) {
      assert WentBare(w, ins, n);
    } else if (exists k: nat :: WentBare(w, ins[..n], k)) && !Leaves(v, ins[n].ev) {
      var k: nat :| WentBare(w, ins[..n], k);
      assert WentBare(w, ins, k);
    }
  }

  /** Over every run, the client is bound without a lease exactly when some
      Information-request ended aside from a lease that had gone, and nothing
      has taken it out of BOUND since. */
  lemma {:induction false} BareIff(w: World, ins: seq<Input>)
    requires Inv(w.m, w.e) && !Bare(w.m) && Legal(w, ins)
    ensures Bare(Play(w, ins).m) <==> exists k: nat :: WentBare(w, ins, k)
  {
    hide Inv, Next, Bare, Stale, Configures, Leaves, Admissible, WentBare;
    if ins == [] {
      assert forall k: nat :: !WentBare(w, [], k) by { NothingWentBare(w); }
    } else {
      var n := |ins| - 1;
      LegalPrefix(w, ins, n);
      BareIff(w, ins[..n]);
      PlayKeepsInv(w, ins[..n]);
      BareStep(Play(w, ins[..n]), ins[n]);
      WentBareLast(w, ins);
    }
  }

  lemma NothingWentBare(w: World)
    ensures forall k: nat :: !WentBare(w, [], k)
  {
  }

  /** While an Information-request lasts, its being a detour does not change. */
  lemma DetourFixed(w: World, i: Input)
    requires w.m.state == InfoRequesting && Next(w, i).m.state == InfoRequesting
    ensures Next(w, i).m.reconfDetour == w.m.reconfDetour
  {
    hide Executed, Halt, TakeReconfigure, ExpireLease, StartExchangeFor, StepStopped, StepInit, StepSelecting,
         StepRequesting, StepConfirming, StepInfoRequesting, StepChecking, StepBound, StepRenewal;
    var c := Begun(w.m, Deliver(w.m, w.e, i.now, i.ev));
    HaltStops(Emit(c.(m := c.m.(sendFailures := c.m.sendFailures + 1)), Failed(ReasonTransport)), ReasonTransport);
    if i.ev == TimerFired(TimerExpire) {
      ExpiryKeepsDetour(c, i.rnd);
    } else if IsReconfigure(i.ev) {
      ReconfigureKeepsDetour(c, i.rnd, i.ev);
    } else if !i.ev.RouterAdvert? && !i.ev.SetHostname? && !i.ev.ActionFailed? && !i.ev.ARPReceived?
              && !i.ev.ConflictDetected? {
      InfoKeepsDetour(c, i.rnd, i.ev);
    }
  }

  lemma ExpiryKeepsDetour(c: Ctx, rnd: Entropy)
    requires c.m.state == InfoRequesting
    ensures ExpireLease(c, rnd).m.reconfDetour == c.m.reconfDetour
  {
    hide Executed, Vouches, Trusts, ArmExpiry, AllEnded, RestartDiscovery;
  }

  lemma ReconfigureKeepsDetour(c: Ctx, rnd: Entropy, ev: Event)
    requires IsReconfigure(ev) && c.m.state == InfoRequesting
    ensures TakeReconfigure(c, rnd, ev.msg.value, ev.raw, ev.dst).m.reconfDetour == c.m.reconfDetour
  {
    hide Executed, EnterRenewing, EnterRebinding, StartExchangeFor, IsUnicast;
    var d := c.(m := c.m.(reconfDetour := c.m.reconfDetour || c.m.state == Bound));
    ExchangeKeepsDetour(d, rnd, InformationRequest, ev.msg.value.Server());
  }

  lemma ExchangeKeepsDetour(c: Ctx, rnd: Entropy, t: Kind, sid: Duid)
    ensures StartExchangeFor(c, rnd, t, sid).m.reconfDetour == c.m.reconfDetour
  {
    hide Executed, StartExchangeFor, Schedule, Backoff6.Retransmit.First;
    StartExchangeAside(c, rnd, t, sid);
  }

  lemma InfoKeepsDetour(c: Ctx, rnd: Entropy, ev: Event)
    requires c.m.state == InfoRequesting && StepInfoRequesting(c, rnd, ev).m.state == InfoRequesting
    ensures StepInfoRequesting(c, rnd, ev).m.reconfDetour == c.m.reconfDetour
  {
    hide Executed, Halt, EnterRenewing, EnterRebinding, StartExchangeFor, Resend, RandomDelay, Ceilings, RefusalCode,
         Admits, Refuse, TakeConfig;
    match ev {
      case Received(msg, _, _) =>
        if Admits(c.m, msg) {
          AdmitsSome(c.m, msg);
          var d := ApplyMaxRT(c, msg.value);
          var code := RefusalCode(msg.value.status, NoStatus);
          RefuseState(d, code);
          if msg.value.kind == Reply && !msg.value.status.BadStatus? && code.None? {
            ConfigKeepsDetour(d, rnd, msg.value);
          }
        }
      case TimerFired(t) => InfoTimerKeepsDetour(c, rnd, t);
      case Stop => HaltStops(c, ReasonStopped);
      case LinkDown => HaltStops(c, ReasonLinkDown);
      case Release => HaltStops(c, ReasonReleased);
      case _ =>
    }
  }

  lemma InfoTimerKeepsDetour(c: Ctx, rnd: Entropy, t: TimerID)
    requires c.m.state == InfoRequesting && StepInfoRequesting(c, rnd, TimerFired(t)).m.state == InfoRequesting
    ensures StepInfoRequesting(c, rnd, TimerFired(t)).m.reconfDetour == c.m.reconfDetour
  {
    hide Executed, EnterRenewing, EnterRebinding, StartExchangeFor, Resend, RandomDelay;
    var d := c.(m := c.m.(reconfDetour := false));
    EnterRenewingLeaves(d, rnd);
    EnterRebindingLeaves(d, rnd);
    ExchangeKeepsDetour(c, rnd, InformationRequest, []);
    ResendKeepsDetour(c, rnd);
  }

  lemma ResendKeepsDetour(c: Ctx, rnd: Entropy)
    ensures Resend(c, rnd).m.reconfDetour == c.m.reconfDetour
  {
    hide Executed, Transmit, Backoff6.Retransmit.Next;
    TransmitAside(c.(m := c.m.(rt := c.m.sched.Next(c.m.rt, rnd))));
  }

  lemma ConfigKeepsDetour(c: Ctx, rnd: Entropy, msg: Message)
    requires c.m.state == InfoRequesting && TakeConfig(c, rnd, msg).m.state == InfoRequesting
    ensures TakeConfig(c, rnd, msg).m.reconfDetour == c.m.reconfDetour
  {
    hide Executed, NoteKey, RefreshTime, AnnounceHostname;
    var d := RefreshTime(c.m.params, msg.refresh);
    var k := NoteKey(Cancel(c.(m := c.m.(refresh := d, refreshOwed := false, msgType := None)), TimerRetransmit), msg);
    var x := Emit(EndDetour(k), Configured(msg.config, d));
    AnnounceHostnameSeats(if d == INFINITE then Cancel(x, TimerRefresh) else Set(x, TimerRefresh, d), rnd);
  }

  /** So the flag a request ends with is the one it was begun with. */
  lemma {:induction false} DetourSince(w: World, ins: seq<Input>) returns (s: nat)
    requires w.m.state != InfoRequesting && Play(w, ins).m.state == InfoRequesting && Play(w, ins).m.reconfDetour
    ensures s < |ins| && Play(w, ins[..s]).m.state != InfoRequesting
    ensures forall j :: s < j <= |ins| ==>
              Play(w, ins[..j]).m.state == InfoRequesting && Play(w, ins[..j]).m.reconfDetour
  {
    hide Next;
    var n := |ins| - 1;
    assert ins[..n + 1] == ins;
    if Play(w, ins[..n]).m.state == InfoRequesting {
      DetourFixed(Play(w, ins[..n]), ins[n]);
      s := DetourSince(w, ins[..n]);
      forall j | 0 <= j <= n ensures ins[..n][..j] == ins[..j] {
      }
    } else {
      s := n;
    }
  }

  /** No state is without a way forward, but one. Each that waits has the timer
      armed that ends its wait; a stopped client holds nothing; a client that
      has its configuration asks again unless it was given for good; and BOUND
      holds a lease unless a detour outlived it. */
  lemma NeverStalls(p: Params, start: Instant, ins: seq<Input>)
    requires p.Valid() && Legal(Initial(p, start), ins)
    ensures
      var w := Play(Initial(p, start), ins);
      match w.m.state
      case Stopped => w.m.lease.None?
      case Init => w.e.armed.delay.Some?
      case Selecting => w.e.armed.retransmit.Some?
      case Requesting => w.e.armed.retransmit.Some?
      case Confirming => w.e.armed.retransmit.Some?
      case Checking => w.e.armed.dad.Some? || (w.m.msgType == Some(Decline) && w.e.armed.retransmit.Some?)
      case Renewing => w.e.armed.retransmit.Some?
      case Rebinding => w.e.armed.retransmit.Some?
      case InfoRequesting => w.e.armed.retransmit.Some? || RefreshComes(w.m, w.e)
      case Bound => w.m.lease.Some? || (RefreshComes(w.m, w.e) && exists k: nat :: WentBare(Initial(p, start), ins, k))
  {
    hide Play, Legal, Sound, WentBare;
    NewInv(p, start);
    Reachable(p, start, ins);
    BareIff(Initial(p, start), ins);
  }

  // ------------------------------------------------------------- the dead end --

  /** Bound, without a lease and without a timer. */
  predicate Dead(w: World) { Bare(w.m) && w.e.armed == NO_TIMERS }

  /** The timers that survive the end of an Information-request. */
  function Surviving(t: Timers): Timers { t.(retransmit := None, refresh := None) }

  /** What the end of a stale Information-request leaves running. */
  lemma BareFrom(w: World, i: Input)
    requires Stale(w.m) && Configures(w.m, i.ev)
    ensures
      var d := RefreshTime(w.m.params, i.ev.msg.value.refresh);
      && Next(w, i).m.refresh == d
      && Next(w, i).e.armed
         == Surviving(w.e.armed).(refresh := if d == INFINITE then None else Some(i.now + d))
  {
    hide Executed, TakeConfig, RefusalCode, Admits, Refuse;
    var c := Begun(w.m, Deliver(w.m, w.e, i.now, i.ev));
    AdmitsSome(w.m, i.ev.msg);
    DetourOutlivesLease(ApplyMaxRT(c, i.ev.msg.value), i.rnd, i.ev.msg.value);
    ApplyMaxRTStays(c, i.ev.msg.value);
  }

  /** Bound without a lease, an event that does not end that does no more than
      let the timer that fired go, or put off the refresh it asks for. */
  lemma BareQuiet(w: World, i: Input)
    requires Bare(w.m) && !Leaves(w.m, i.ev)
    ensures
      var r := Next(w, i);
      && Bare(r.m) && r.m.refresh == w.m.refresh && r.e.mail == w.e.mail
      && (if i.ev == TimerFired(TimerRefresh) then
            r.e.armed.delay.Some? && r.e.armed == w.e.armed.(refresh := None, delay := r.e.armed.delay)
          else r.e.armed == if i.ev.TimerFired? then w.e.armed.With(i.ev.timer, None) else w.e.armed)
  {
    hide Executed, StepBody, Leaves;
    AnsweredTimers(w.m, w.e, i.now, i.ev);
    DeliverQuiet(w.m, w.e, i.now, i.ev);
    BodyQuiet(Begun(w.m, Deliver(w.m, w.e, i.now, i.ev)), i.rnd, i.ev);
  }

  lemma BodyQuiet(c: Ctx, rnd: Entropy, ev: Event)
    requires Bare(c.m) && !Leaves(c.m, ev)
    ensures
      var r := StepBody(c, rnd, ev);
      && Bare(r.m) && r.m.refresh == c.m.refresh && r.env().mail == c.env().mail
      && (if ev == TimerFired(TimerRefresh) then
            r.env().armed.delay.Some? && r.env().armed == c.env().armed.(delay := r.env().armed.delay)
          else r.env().armed == if ev == TimerFired(TimerExpire) then c.env().armed.(expire := None) else c.env().armed)
  {
    hide Executed, StepBody, TakeReconfigure, StepBound, Leaves;
    BareBody(c, rnd, ev);
    if IsReconfigure(ev) {
      RefusedQuiet(c, rnd, ev);
    } else {
      BoundQuiet(c, rnd, ev);
    }
  }

  /** What a step comes to where there is no lease to expire or to name. */
  lemma BareBody(c: Ctx, rnd: Entropy, ev: Event)
    requires Bare(c.m)
    ensures
      var r := StepBody(c, rnd, ev);
      r == if ev.RouterAdvert? || ev.ARPReceived? || ev.ConflictDetected? then c
           else if ev == TimerFired(TimerExpire) then Cancel(c, TimerExpire)
           else if ev.SetHostname? then c.(m := c.m.(hostname := r.m.hostname))
           else if ev.ActionFailed? then c.(m := c.m.(sendFailures := r.m.sendFailures))
           else if IsReconfigure(ev) then TakeReconfigure(c, rnd, ev.msg.value, ev.raw, ev.dst)
           else StepBound(c, rnd, ev)
  {
    hide Executed, Halt, TakeReconfigure, StepBound, ExpireLease, StartExchangeFor, EnterRenewing, Emit;
    NoLeaseToExpire(c, rnd);
  }

  lemma NoLeaseToExpire(c: Ctx, rnd: Entropy)
    requires c.m.lease.None?
    ensures ExpireLease(c, rnd) == Cancel(c, TimerExpire)
  {
  }

  lemma RefusedQuiet(c: Ctx, rnd: Entropy, ev: Event)
    requires IsReconfigure(ev) && !Leaves(c.m, ev)
    ensures
      var r := TakeReconfigure(c, rnd, ev.msg.value, ev.raw, ev.dst);
      r == c.(m := c.m.(counts := r.m.counts))
  {
    hide Executed, Respond, ReconfigureFault;
  }

  lemma DeliverQuiet(m: Client, e: Env, now: Instant, ev: Event)
    ensures Deliver(m, e, now, ev).mail == e.mail
  {
  }

  lemma BoundQuiet(c: Ctx, rnd: Entropy, ev: Event)
    requires Bare(c.m) && !Leaves(c.m, ev) && !IsReconfigure(ev)
    ensures
      var r := StepBound(c, rnd, ev);
      && Bare(r.m) && r.m.refresh == c.m.refresh && r.env().mail == c.env().mail
      && (if ev == TimerFired(TimerRefresh) then
            r.env().armed.delay.Some? && r.env().armed == c.env().armed.(delay := r.env().armed.delay)
          else r == c)
  {
    hide Executed, Halt, EnterRenewing, EnterRebinding, StartExchangeFor, DeclineHeld, Release6, RandomDelay;
  }

  predicate StaysBare(w: World, ins: seq<Input>) {
    forall j :: 0 <= j < |ins| ==> !Leaves(Play(w, ins[..j]).m, ins[j].ev)
  }

  predicate Fires(ins: seq<Input>, t: TimerID) { exists j :: 0 <= j < |ins| && ins[j].ev == TimerFired(t) }

  /** Where no refresh is to come, the timers only run out. */
  lemma {:induction false} TimersRunOut(w: World, ins: seq<Input>, t: TimerID)
    requires Bare(w.m) && w.e.armed.refresh.None? && StaysBare(w, ins) && Legal(w, ins)
    ensures
      var r := Play(w, ins);
      && Bare(r.m) && r.e.armed.refresh.None?
      && (r.e.armed.At(t).Some? <==> w.e.armed.At(t).Some? && !Fires(ins, t))
  {
    hide Next, Leaves, Bare, Admissible, Fires;
    NothingFires(t);
    if ins != [] {
      var n := |ins| - 1;
      LegalPrefix(w, ins, n);
      forall j | 0 <= j < n ensures !Leaves(Play(w, ins[..n][..j]).m, ins[..n][j].ev) {
        assert ins[..n][..j] == ins[..j];
      }
      TimersRunOut(w, ins[..n], t);
      TimerRunsOut(Play(w, ins[..n]), ins[n], t);
      FiresLast(ins, t);
    }
  }

  lemma TimerRunsOut(w: World, i: Input, t: TimerID)
    requires Bare(w.m) && w.e.armed.refresh.None? && !Leaves(w.m, i.ev) && Admissible(w.e, i.now, i.ev)
    ensures
      var r := Next(w, i);
      && Bare(r.m) && r.e.armed.refresh.None?
      && (r.e.armed.At(t).Some? <==> w.e.armed.At(t).Some? && i.ev != TimerFired(t))
  {
    hide Next, Leaves, Bare;
    BareQuiet(w, i);
  }

  lemma NothingFires(t: TimerID)
    ensures !Fires([], t)
  {
  }

  lemma FiresLast(ins: seq<Input>, t: TimerID)
    requires |ins| > 0
    ensures Fires(ins, t) <==> Fires(ins[..|ins| - 1], t) || ins[|ins| - 1].ev == TimerFired(t)
  {
    var n := |ins| - 1;
    if Fires(ins[..n], t) {
      var j :| 0 <= j < n && ins[..n][j].ev == TimerFired(t);
      assert ins[j].ev == TimerFired(t);
    }
    if Fires(ins, t) {
      var j :| 0 <= j <= n && ins[j].ev == TimerFired(t);
      assert j < n ==> ins[..n][j].ev == TimerFired(t);
    }
  }

  /** The refresh a client bound without a lease goes by stays the one it was given. */
  lemma {:induction false} RefreshStays(w: World, ins: seq<Input>)
    requires Bare(w.m) && StaysBare(w, ins)
    ensures Bare(Play(w, ins).m) && Play(w, ins).m.refresh == w.m.refresh
  {
    hide Next, Leaves, Bare;
    if ins != [] {
      var n := |ins| - 1;
      forall j | 0 <= j < n ensures !Leaves(Play(w, ins[..n][..j]).m, ins[..n][j].ev) {
        assert ins[..n][..j] == ins[..j];
      }
      RefreshStays(w, ins[..n]);
      BareQuiet(Play(w, ins[..n]), ins[n]);
    }
  }

  lemma {:induction false} PlaySplit(w: World, ins: seq<Input>, k: nat)
    requires k <= |ins|
    ensures Play(w, ins) == Play(Play(w, ins[..k]), ins[k..])
    decreases |ins|
  {
    hide Next;
    if k < |ins| {
      var n := |ins| - 1;
      PlaySplit(w, ins[..n], k);
      assert ins[..n][..k] == ins[..k] && ins[..n][k..] == ins[k..][..n - k];
    } else {
      assert ins[..k] == ins;
    }
  }

  /** What follows the step at k, as a run of its own. */
  lemma RestOfRun(w: World, ins: seq<Input>, k: nat)
    requires WentBare(w, ins, k) && Legal(w, ins)
    ensures
      var v, rest := Play(w, ins[..k + 1]), ins[k + 1..];
      Play(w, ins) == Play(v, rest) && StaysBare(v, rest) && Legal(v, rest)
  {
    hide Play, Leaves, Stale, Configures, Admissible;
    var v, rest := Play(w, ins[..k + 1]), ins[k + 1..];
    PlaySplit(w, ins, k + 1);
    forall j | 0 <= j < |rest| ensures Play(v, rest[..j]) == Play(w, ins[..k + 1 + j]) {
      var part := ins[..k + 1 + j];
      PlaySplit(w, part, k + 1);
      assert part[..k + 1] == ins[..k + 1] && part[k + 1..] == rest[..j];
    }
  }

  /** The Information-request that ended at k gave a configuration for good,
      and each timer that survived it has since run out. */
  predicate DiedAt(w: World, ins: seq<Input>, k: nat) {
    && WentBare(w, ins, k)
    && var v := Play(w, ins[..k]);
       && RefreshTime(v.m.params, ins[k].ev.msg.value.refresh) == INFINITE
       && forall t :: Surviving(v.e.armed).At(t).Some? ==> Fires(ins[k + 1..], t)
  }

  lemma DeadFrom(w: World, ins: seq<Input>, k: nat)
    requires Inv(w.m, w.e) && Legal(w, ins) && WentBare(w, ins, k)
    ensures Dead(Play(w, ins)) <==> DiedAt(w, ins, k)
  {
    hide Next, Leaves, Inv, Admissible, Play;
    var v, i := Play(w, ins[..k]), ins[k];
    var u, rest := Play(w, ins[..k + 1]), ins[k + 1..];
    PlayOnce(w, ins, k);
    LegalPrefix(w, ins, k);
    PlayKeepsInv(w, ins[..k]);
    RestOfRun(w, ins, k);
    BareFrom(v, i);
    BareStep(v, i);
    RefreshStays(u, rest);
    if u.m.refresh == INFINITE {
      forall t ensures Play(u, rest).e.armed.At(t).Some? <==> Surviving(v.e.armed).At(t).Some? && !Fires(rest, t) {
        TimersRunOut(u, rest, t);
        assert u.e.armed == Surviving(v.e.armed);
      }
      AllQuiet(Play(u, rest).e.armed);
    } else {
      PlayKeepsInv(w, ins);
      assert RefreshComes(Play(w, ins).m, Play(w, ins).e) by { BareRefreshes(Play(w, ins)); }
    }
  }

  lemma PlayOnce(w: World, ins: seq<Input>, k: nat)
    requires k < |ins|
    ensures Play(w, ins[..k + 1]) == Next(Play(w, ins[..k]), ins[k])
  {
    assert ins[..k + 1][..k] == ins[..k];
  }

  lemma AllQuiet(t: Timers)
    ensures t == NO_TIMERS <==> forall id :: t.At(id).None?
  {
    assert t.At(TimerRetransmit) == t.retransmit && t.At(TimerDelay) == t.delay && t.At(TimerExpire) == t.expire
           && t.At(TimerRenew) == t.renew && t.At(TimerRebind) == t.rebind && t.At(TimerDAD) == t.dad
           && t.At(TimerRefresh) == t.refresh;
  }

  lemma BareRefreshes(w: World)
    requires Inv(w.m, w.e) && Bare(w.m)
    ensures RefreshComes(w.m, w.e)
  {
  }

  /** Over every run: BOUND is left with neither a lease nor a timer exactly
      when an Information-request begun aside from a lease that has gone gave
      a configuration for good, nothing has taken the client out of BOUND
      since, and whatever else was running then has run out. */
  lemma DeadIff(w: World, ins: seq<Input>)
    requires Inv(w.m, w.e) && !Bare(w.m) && Legal(w, ins)
    ensures Dead(Play(w, ins)) <==> exists k: nat :: DiedAt(w, ins, k)
  {
    hide Play, Inv, Bare, WentBare, Legal;
    BareIff(w, ins);
    if Dead(Play(w, ins)) {
      var k: nat :| WentBare(w, ins, k);
      DeadFrom(w, ins, k);
    }
    if exists k: nat :: DiedAt(w, ins, k) {
      var k: nat :| DiedAt(w, ins, k);
      DeadFrom(w, ins, k);
    }
  }

  /** From there nothing the environment does of itself moves it: no timer can
      fire, and but for the caller's own events and an authenticated
      Reconfigure every event leaves it as it is and sends nothing. */
  lemma DeadStays(w: World, i: Input)
    requires Dead(w) && Admissible(w.e, i.now, i.ev) && !Leaves(w.m, i.ev)
    ensures !i.ev.TimerFired? && Dead(Next(w, i)) && Next(w, i).e.mail == w.e.mail
  {
    hide Next, Leaves;
    BareQuiet(w, i);
  }
}
