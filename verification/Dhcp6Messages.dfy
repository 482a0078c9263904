/** What the client puts on the wire, sections 16 and 18.2 of RFC 9915: whom
    each message names, which addresses, and when it will be sent again. */
module Dhcp6Messages {
  import opened Clock
  import opened Lease
  import opened Lease6
  import opened Dhcp6
  import opened Dhcp6Invariant
  import opened Dhcp6Steps
  import opened Dhcp6Runs
  import Backoff6

  /** The message names exactly the usable ones of these bindings. */
  ghost predicate Names(s: seq<Addr>, bs: seq<Addr6>) { forall a :: a in s <==> Usable(a) && Has(bs, a) }

  predicate Confirmable(m: Client) { m.resume.Some? && m.resume.value.Live() }

  /** The state in which a client waits for the answer to a message. */
  predicate AnsweredIn(t: Kind, s: State) {
    match t
    case Solicit => s.Selecting?
    case Request => s.Requesting?
    case Confirm => s.Confirming?
    case InformationRequest => s.InfoRequesting?
    case Renew => s.Renewing?
    case Rebind => s.Rebinding?
    case Release => s.Stopped?
    case Decline => s.Checking?
    case _ => false
  }

  /** What a message may be built from. */
  predicate Ripe(m: Client, t: Kind) {
    match t
    case Solicit => true
    case Request => m.server != []
    case Confirm => Confirmable(m)
    case InformationRequest => true
    case Renew => m.lease.Some? && m.server != [] && m.server == m.lease.value.server
    case Rebind => true
    case Release => m.server != [] && m.lease.None?
    case Decline => m.server != [] && forall a :: a in m.declining ==> a in m.declined
    case _ => false
  }

  /** The exchange in flight runs on the schedule of its message, whose ceiling
      alone a server may have moved since; and its timeout is in that
      schedule's band, for parameters whose band fits a machine word. */
  predicate Scheduled(m: Client) {
    m.msgType.Some? ==>
      && m.xid < 0x100_0000
      && var t := m.msgType.value;
         && m.sched == Schedule(m.params, t).(mrt := m.sched.mrt)
         && (t == Request || t == Confirm || t == Renew || t == Rebind ==> m.sched == Schedule(m.params, t))
         && (Backoff6.Bounded(m.sched) ==> InBand(m.sched, t, m.rt))
  }

  /** The first Solicit's timeout is made to exceed its initial value. */
  predicate InBand(s: Backoff6.Retransmit, t: Kind, rt: Duration) {
    Backoff6.Low(s) <= rt <= Backoff6.High(s) + if t == Solicit then 1 else 0
  }

  /** What the state will need when it next sends. */
  predicate Prepared(m: Client) {
    && Scheduled(m)
    && (m.state == Init && m.pendingType == Confirm ==> Confirmable(m))
    && (m.msgType.Some? && AnsweredIn(m.msgType.value, m.state) ==> Ripe(m, m.msgType.value))
    && (m.state == Bound ==> m.msgType.None?)
  }

  /** A message the client may have sent on reaching this state. Only a server
      that has to act on a binding is named, and then the one that holds it or
      advertised it; no address is asked for that was found in use. */
  ghost predicate Proper(r: Client, x: Outgoing) {
    && r.msgType == Some(x.kind) && AnsweredIn(x.kind, r.state) && x.xid == r.xid && x.xid < 0x100_0000
    && match x.kind
       case Solicit => x.server == [] && x.temps == [] && forall a :: a in x.addrs ==> Usable(a) && a !in r.declined
       case Request =>
         && x.server == r.server && x.server != [] && Names(x.addrs, r.pending.addrs)
         && (if r.params.temporary then Names(x.temps, r.pending.temps) else x.temps == [])
       case Confirm =>
         && x.server == [] && x.temps == [] && x.addrs != []
         && r.resume.Some? && Names(x.addrs, r.resume.value.addrs)
       case InformationRequest => x.server == r.reconfServerID && x.addrs == [] && x.temps == []
       case Renew =>
         && r.lease.Some? && x.server == r.lease.value.server && x.server != [] && x.temps == []
         && Names(x.addrs, r.lease.value.addrs)
       case Rebind => x.server == [] && x.temps == [] && Names(x.addrs, r.Held().addrs)
       case Release => x.server == r.server && x.server != [] && r.lease.None? && Usables(x.addrs, r.releasing)
       case Decline =>
         && x.server == r.server && x.server != [] && Usables(x.addrs, r.declining)
         && forall a :: a in x.addrs ==> a in r.declined
       case _ => false
  }

  ghost predicate Usables(s: seq<Addr>, all: seq<Addr>) { forall a :: a in s <==> Usable(a) && a in all }

  /** One message more, a proper one, that will be sent again when its timeout is over. */
  ghost predicate Wrote(c: Ctx, r: Ctx) {
    var was, mail := |c.env().mail|, r.env().mail;
    && |mail| == was + 1 && mail[..was] == c.env().mail && Proper(r.m, mail[was]) && Prepared(r.m)
    && r.env().armed.retransmit == Some(c.now() + r.m.rt)
  }

  /** Nothing sent so far, and no exchange begun. */
  ghost predicate Mute(c: Ctx, r: Ctx) {
    && r.env().mail == c.env().mail && r.now() == c.now()
    && (r.m.msgType.Some? ==>
          r.m.msgType == c.m.msgType && r.m.xid == c.m.xid && r.m.rt == c.m.rt && r.m.sched == c.m.sched)
  }

  ghost predicate Spoke(c: Ctx, r: Ctx) { Wrote(c, r) || (Mute(c, r) && Prepared(r.m)) }

  /** What happens after a silent beginning happens to the whole. */
  lemma After(c: Ctx, d: Ctx, r: Ctx)
    requires Mute(c, d)
    ensures Spoke(d, r) ==> Spoke(c, r)
    ensures Wrote(d, r) ==> Wrote(c, r)
  {
    hide Executed, Proper, Prepared;
  }

  // ------------------------------------------------------------ composition --

  lemma {:induction false} UsableMembers(s: seq<Addr>)
    ensures Usables(UsableAddrs(s), s)
  {
    if s != [] {
      var n := |s| - 1;
      UsableMembers(s[..n]);
      assert s == s[..n] + [s[n]];
    }
  }

  lemma UsableNames(bs: seq<Addr6>)
    ensures Names(UsableAddrs(Addrs(bs)), bs)
  {
    hide UsableAddrs;
    UsableMembers(Addrs(bs));
    forall a ensures a in Addrs(bs) <==> Has(bs, a) {
      if a in Addrs(bs) {
        var i :| 0 <= i < |bs| && Addrs(bs)[i] == a;
        assert bs[i].addr == a;
      }
      if Has(bs, a) {
        var i :| 0 <= i < |bs| && bs[i].addr == a;
        assert Addrs(bs)[i] == a;
      }
    }
  }

  /** What is composed from a ripe client is proper for it. */
  lemma ComposeProper(m: Client, t: Kind)
    requires Ripe(m, t) && m.msgType == Some(t) && AnsweredIn(t, m.state) && m.xid < 0x100_0000
    ensures Proper(m, Compose(m, t))
    ensures NeedsServer(t) ==> m.server != []
  {
    hide UsableAddrs, Names, Usables;
    UsableNames(m.pending.addrs);
    UsableNames(m.pending.temps);
    UsableNames(m.Held().addrs);
    UsableMembers(m.releasing);
    UsableMembers(m.declining);
    if m.resume.Some? {
      UsableNames(m.resume.value.addrs);
    }
    ComposeConfirm(m, t);
    ComposeDecline(m, t);
  }

  lemma ComposeConfirm(m: Client, t: Kind)
    requires Ripe(m, t)
    ensures t == Confirm ==> BuildAddrs(m, t) != []
  {
    hide UsableAddrs;
    if t == Confirm {
      var bs := m.resume.value.addrs;
      UsableNames(bs);
      var i :| 0 <= i < |bs| && Usable(bs[i].addr);
      assert Has(bs, bs[i].addr);
      assert bs[i].addr in UsableAddrs(Addrs(bs));
    }
  }

  lemma ComposeDecline(m: Client, t: Kind)
    requires Ripe(m, t)
    ensures t == Decline ==> forall a :: a in BuildAddrs(m, t) ==> a in m.declined
  {
    hide UsableAddrs;
    UsableMembers(m.declining);
  }

  lemma TransmitWrites(c: Ctx, t: Kind)
    requires c.m.msgType == Some(t) && Ripe(c.m, t) && AnsweredIn(t, c.m.state) && Prepared(c.m)
    ensures Wrote(c, Transmit(c))
  {
    hide Executed, Compose, Proper;
    ComposeProper(c.m, t);
    var d := c.(m := Sent(c.m, t));
    SentAlike(c.m, d.m, Transmit(c).m, Compose(c.m, t));
  }

  /** Counting a message sent changes nothing it was composed from. */
  lemma SentAlike(m: Client, d: Client, r: Client, x: Outgoing)
    requires Proper(m, x) && Prepared(m)
    requires r == m.(transmits := r.transmits, nameOnWire := r.nameOnWire, nextAction := r.nextAction)
    ensures Proper(r, x) && Prepared(r)
  {
    hide Names, Usables;
  }

  lemma FirstInBand(s: Backoff6.Retransmit, t: Kind, rnd: Entropy)
    ensures
      var rt := s.First(rnd);
      Backoff6.Bounded(s) ==> InBand(s, t, if t == Solicit && rt <= s.irt then s.irt + 1 else rt)
  {
    if Backoff6.Bounded(s) {
      Backoff6.ScaleRandExact(s.irt, Backoff6.RandFactor(rnd));
    }
  }

  lemma NextInBand(s: Backoff6.Retransmit, t: Kind, prev: Duration, rnd: Entropy)
    ensures Backoff6.Bounded(s) && InBand(s, t, prev) ==> InBand(s, t, s.Next(prev, rnd))
  {
    if Backoff6.Bounded(s) && InBand(s, t, prev) {
      Backoff6.ScaleRandExact(prev, Backoff6.RandFactor(rnd));
      Backoff6.ScaleRandExact(s.mrt, Backoff6.RandFactor(rnd));
    }
  }

  /** What an exchange may be started from. */
  predicate MayStart(m: Client, t: Kind) {
    && Ripe(m, t)
    && (t == Kind.Release ==> m.state == Stopped) && (t == Decline ==> m.state == Checking)
  }

  lemma StartExchangeWrites(c: Ctx, rnd: Entropy, t: Kind, sid: Duid)
    requires MayStart(c.m, t)
    ensures Wrote(c, StartExchangeFor(c, rnd, t, sid))
  {
    hide Executed, Transmit, Schedule, Backoff6.Retransmit.First, Proper, Backoff6.Bounded, InBand;
    var d := c.(m := Opened(c.m, c.now(), rnd, t, sid));
    FirstInBand(Schedule(c.m.params, t), t, rnd);
    TransmitWrites(d, t);
    SameMail(c, d, Transmit(d));
  }

  lemma SameMail(c: Ctx, d: Ctx, r: Ctx)
    requires Wrote(d, r) && d.env() == c.env()
    ensures Wrote(c, r)
  {
    hide Executed, Proper, Prepared;
  }

  lemma ResendWrites(c: Ctx, rnd: Entropy, t: Kind)
    requires c.m.msgType == Some(t) && AnsweredIn(t, c.m.state) && Prepared(c.m)
    ensures Wrote(c, Resend(c, rnd)) && Resend(c, rnd).m.xid == c.m.xid
  {
    hide Executed, Transmit, Backoff6.Retransmit.Next, Proper, Schedule, Backoff6.Bounded, InBand;
    var d := c.(m := c.m.(rt := c.m.sched.Next(c.m.rt, rnd)));
    NextInBand(c.m.sched, t, c.m.rt, rnd);
    TransmitWrites(d, t);
    TransmitAside(d);
    SameMail(c, d, Transmit(d));
  }

  // ------------------------------------------------------- the transitions --

  /** A transition that sends nothing and leaves what is in flight, if anything, alone. */
  ghost predicate Passes(c: Ctx, r: Ctx) {
    && Mute(c, r) && r.m.resume == c.m.resume && r.m.declined == c.m.declined && r.m.server == c.m.server
    && r.m.state == c.m.state && r.m.pendingType == c.m.pendingType && r.m.declining == c.m.declining
    && (r.m.lease == c.m.lease || r.m.lease.None?)
  }

  lemma LoseLeasePasses(c: Ctx, why: Reason)
    ensures Passes(c, LoseLease(c, why)) && LoseLease(c, why).m.lease.None?
    ensures LoseLease(c, why).m == c.m.(lease := None, nextAction := LoseLease(c, why).m.nextAction)
  {
    hide Executed;
  }

  lemma HaltSpeaks(c: Ctx, why: Reason)
    ensures Spoke(c, Halt(c, why))
  {
    hide Executed, LoseLease, CancelAll;
    LoseLeasePasses(c, why);
  }

  lemma BeginSpeaks(c: Ctx, rnd: Entropy)
    requires Scheduled(c.m)
    ensures Spoke(c, Begin(c, rnd))
  {
    hide Executed, RandomDelay;
  }

  lemma RestartDiscoverySpeaks(c: Ctx, rnd: Entropy)
    requires Scheduled(c.m)
    ensures Spoke(c, RestartDiscovery(c, rnd))
  {
    hide Executed, Begin;
    var d := Cancel(Cancel(c.(m := c.m.(resume := None)), TimerRenew), TimerRebind);
    var x := if d.m.lease.None? then Cancel(d, TimerExpire) else d;
    BeginSpeaks(x, rnd);
    After(c, x, Begin(x, rnd));
  }

  lemma EnterRebindingWrites(c: Ctx, rnd: Entropy)
    ensures Wrote(c, EnterRebinding(c, rnd))
  {
    hide Executed, StartExchangeFor;
    var d := AbandonRefreshDelay(c);
    var x := d.(m := d.m.(server := []));
    StartExchangeWrites(x, rnd, Rebind, []);
    assert Mute(c, x);
    After(c, x, StartExchangeFor(x, rnd, Rebind, []));
  }

  lemma EnterRenewingWrites(c: Ctx, rnd: Entropy)
    ensures Wrote(c, EnterRenewing(c, rnd))
  {
    hide Executed, StartExchangeFor, EnterRebinding;
    var d := AbandonRefreshDelay(c);
    if d.m.Held().server == [] {
      EnterRebindingWrites(d, rnd);
      After(c, d, EnterRebinding(d, rnd));
    } else {
      var x := d.(m := d.m.(server := d.m.Held().server));
      StartExchangeWrites(x, rnd, Renew, []);
      After(c, x, StartExchangeFor(x, rnd, Renew, []));
    }
  }

  lemma AnnounceHostnameSpeaks(c: Ctx, rnd: Entropy)
    requires Prepared(c.m) && (c.m.state == Renewing ==> Ripe(c.m, Renew))
    ensures Spoke(c, AnnounceHostname(c, rnd))
  {
    hide Executed, StartExchangeFor, EnterRenewing;
    match c.m.state {
      case Bound => EnterRenewingWrites(c, rnd);
      case Renewing => StartExchangeWrites(c, rnd, Renew, []);
      case Rebinding => StartExchangeWrites(c, rnd, Rebind, []);
      case _ =>
    }
  }

  lemma TakeHostnameSpeaks(c: Ctx, rnd: Entropy, name: string)
    requires Prepared(c.m) && (c.m.state == Renewing ==> Ripe(c.m, Renew))
    ensures Spoke(c, TakeHostname(c, rnd, name))
  {
    hide Executed, AnnounceHostname;
    if ValidHostname(name) {
      var d := c.(m := c.m.(hostname := name));
      AnnounceHostnameSpeaks(d, rnd);
      After(c, d, AnnounceHostname(d, rnd));
    }
  }

  lemma EnterBoundSpeaks(c: Ctx, rnd: Entropy, l: Lease6)
    ensures Spoke(c, EnterBound(c, rnd, l))
  {
    hide Executed, AnnounceHostname, ArmRenewal, ArmExpiry, AnnounceLease, RandomDelay;
    var k := Cancel(c, TimerRetransmit);
    var d := AnnounceLease(k.(m := Adopt(k.m, l)), c.m.lease);
    AnnounceLeaseMute(k.(m := Adopt(k.m, l)), c.m.lease);
    ArmRenewalQuiet(d);
    var x := ArmOwedRefresh(ArmExpiry(ArmRenewal(d)), rnd);
    assert x.env().mail == c.env().mail && x.m.msgType.None? && x.m.state == Bound;
    AnnounceHostnameSpeaks(x, rnd);
    After(c, x, AnnounceHostname(x, rnd));
  }

  lemma AnnounceLeaseMute(c: Ctx, prev: Option<Lease6>)
    ensures
      var r := AnnounceLease(c, prev);
      r.env().mail == c.env().mail && r.m == c.m.(nextAction := r.m.nextAction) && r.now() == c.now()
  {
    hide Executed, Vouches, Trusts, Lease6.Equal;
  }

  lemma DropEndedMute(c: Ctx)
    requires c.m.lease.Some?
    ensures
      var r := DropEnded(c);
      && r.env().mail == c.env().mail && r.m.lease.Some? && r.m.lease.value.server == c.m.lease.value.server
      && r.m == c.m.(lease := r.m.lease, nextAction := r.m.nextAction)
  {
    hide Executed, Vouches, Trusts, ArmExpiry, Unended;
  }

  lemma ExpireLeaseSpeaks(c: Ctx, rnd: Entropy)
    requires Prepared(c.m)
    ensures Spoke(c, ExpireLease(c, rnd))
  {
    hide Executed, DropEnded, LoseLease, RestartDiscovery, AllEnded;
    if c.m.lease.Some? {
      if AllEnded(c.m.lease.value, c.now()) {
        var d := LoseLease(Cancel(c, TimerExpire), ReasonExpired);
        LoseLeasePasses(Cancel(c, TimerExpire), ReasonExpired);
        RestartDiscoverySpeaks(d, rnd);
        After(c, d, RestartDiscovery(d, rnd));
      } else {
        DropEndedMute(c);
      }
    }
  }

  lemma SelectAndRequestSpeaks(c: Ctx, rnd: Entropy)
    requires forall i :: 0 <= i < |c.m.adverts| ==> c.m.adverts[i].server != []
    ensures SelectAndRequest(c, rnd).1 ==> Wrote(c, SelectAndRequest(c, rnd).0)
    ensures !SelectAndRequest(c, rnd).1 ==> SelectAndRequest(c, rnd).0 == c
  {
    hide Executed, StartExchangeFor, Best;
    var best := Best(c.m.adverts, c.m.tried);
    if best.Some? {
      var a := c.m.adverts[best.value];
      var l := Lease6(c.m.params.iaid, a.addrs, a.temps, a.server, a.t1, a.t2, 0, 0, None);
      var d := c.(m := c.m.(server := a.server, pending := l));
      StartExchangeWrites(d, rnd, Request, []);
      After(c, d, StartExchangeFor(d, rnd, Request, []));
    }
  }

  lemma TryNextSpeaks(c: Ctx, rnd: Entropy)
    requires Prepared(c.m) && forall i :: 0 <= i < |c.m.adverts| ==> c.m.adverts[i].server != []
    ensures Spoke(c, TryNext(c, rnd))
  {
    hide Executed, SelectAndRequest, RestartDiscovery;
    var d := c.(m := c.m.(tried := c.m.tried + [c.m.server]));
    SelectAndRequestSpeaks(d, rnd);
    RestartDiscoverySpeaks(d, rnd);
    After(c, d, SelectAndRequest(d, rnd).0);
    After(c, d, RestartDiscovery(d, rnd));
  }

  lemma StartCheckingSpeaks(c: Ctx, asked: seq<Addr>)
    requires c.m.msgType.None?
    ensures Spoke(c, StartChecking(c, asked))
  {
    hide Executed, AskAll;
    AskAllHolds(c.(m := c.m.(dadWait := asked, dadBad := [], state := Checking)), asked);
  }

  lemma ContinueSpeaks(c: Ctx, rnd: Entropy, k: Continuation)
    requires Scheduled(c.m)
    ensures Spoke(c, Continue(c, rnd, k))
  {
    hide Executed, RestartDiscovery, EnterBound;
    match k {
      case Restart => RestartDiscoverySpeaks(c, rnd);
      case BindKept =>
        var d := c.(m := DropPending(c.m));
        EnterBoundSpeaks(d, rnd, c.m.pending);
        After(c, d, EnterBound(d, rnd, c.m.pending));
    }
  }

  lemma {:induction false} RememberKeeps(declined: seq<Addr>, addrs: seq<Addr>)
    ensures forall a :: a in Remember(declined, addrs) <==> a in declined || a in addrs
  {
    if addrs != [] {
      var n := |addrs| - 1;
      RememberKeeps(declined, addrs[..n]);
      assert addrs == addrs[..n] + [addrs[n]];
    }
  }

  lemma DeclineSetSpeaks(c: Ctx, rnd: Entropy, server: Duid, addrs: seq<Addr>, temps: seq<Addr>, k: Continuation)
    requires Scheduled(c.m)
    ensures Spoke(c, DeclineSet(c, rnd, server, addrs, temps, k))
  {
    hide Executed, Continue, StartExchangeFor, Remember, Spoke;
    var d := c.(m := c.m.(declined := Remember(c.m.declined, addrs)));
    if |addrs| + |temps| == 0 {
      ContinueSpeaks(c, rnd, k);
    } else if server == [] {
      ContinueSpeaks(d, rnd, k);
      After(c, d, Continue(d, rnd, k));
    } else {
      RememberKeeps(c.m.declined, addrs);
      var m := d.m.(server := server, declining := addrs, decliningTA := temps, afterDecline := Some(k),
                    state := Checking);
      DeclineWrites(c, d.(m := m), rnd);
    }
  }

  lemma DeclineWrites(c: Ctx, d: Ctx, rnd: Entropy)
    requires Mute(c, d) && d.m.state == Checking && Ripe(d.m, Decline)
    ensures Spoke(c, StartExchange(Cancel(d, TimerDAD), rnd, Decline))
  {
    hide Executed, StartExchangeFor;
    var x := Cancel(d, TimerDAD);
    StartExchangeWrites(x, rnd, Decline, []);
    After(c, x, StartExchangeFor(x, rnd, Decline, []));
  }

  lemma FinishDeclineSpeaks(c: Ctx, rnd: Entropy)
    ensures Spoke(c, FinishDecline(c, rnd))
  {
    hide Executed, RestartDiscovery, Continue;
    var d := EndExchange(c);
    RestartDiscoverySpeaks(d, rnd);
    After(c, d, RestartDiscovery(d, rnd));
    if c.m.afterDecline.Some? {
      ContinueSpeaks(d, rnd, c.m.afterDecline.value);
      After(c, d, Continue(d, rnd, c.m.afterDecline.value));
    }
  }

  lemma CheckedSpeaks(c: Ctx, rnd: Entropy)
    requires c.m.msgType.None?
    ensures Spoke(c, Checked(c, rnd))
  {
    hide Executed, EnterBound, DeclineSet, Temporary, Excluding, NotHeld;
    var l, bad := c.m.pending, c.m.dadBad;
    if bad == [] {
      var d := c.(m := DropPending(c.m));
      EnterBoundSpeaks(d, rnd, l);
      After(c, d, EnterBound(d, rnd, l));
    } else {
      var temps := Temporary(l, bad);
      if |temps| == |bad| {
        var d := c.(m := c.m.(pending := l.(temps := Excluding(l.temps, temps)), dadWait := [], dadBad := []));
        DeclineSetSpeaks(d, rnd, l.server, [], temps, BindKept);
        After(c, d, DeclineSet(d, rnd, l.server, [], temps, BindKept));
      } else {
        var p := c.(m := DropPending(c.m));
        var d := if c.m.lease.Some? then p else Emit(p, Failed(ReasonConflict));
        var granted, unheld := Addrs(Excluding(l.addrs, c.m.carried)), NotHeld(l.temps, c.m.Held().temps);
        DeclineSetSpeaks(d, rnd, l.server, granted, unheld, Restart);
        After(c, d, DeclineSet(d, rnd, l.server, granted, unheld, Restart));
      }
    }
  }

  lemma TakeDADResultSpeaks(c: Ctx, rnd: Entropy, a: Addr, duplicate: bool)
    requires Prepared(c.m) && c.m.state == Checking && (a in c.m.dadWait ==> c.m.msgType.None?)
    ensures Spoke(c, TakeDADResult(c, rnd, a, duplicate))
  {
    hide Executed, Checked, Without;
    if a in c.m.dadWait {
      var d := c.(m := c.m.(dadWait := Without(c.m.dadWait, a),
                            dadBad := if duplicate then c.m.dadBad + [a] else c.m.dadBad));
      var x := Cancel(d, TimerDAD);
      CheckedSpeaks(x, rnd);
      After(c, x, Checked(x, rnd));
    }
  }

  // ---------------------------------------------------------------- answers --

  /** Only reports and the ceilings of later exchanges have changed, which no message is made of. */
  lemma StaysPasses(c: Ctx, r: Ctx)
    requires Stays(c, r)
    ensures Mute(c, r) && (Prepared(c.m) ==> Prepared(r.m))
  {
    hide Executed;
  }

  lemma TakeNothingSpeaks(c: Ctx, rnd: Entropy, code: Option<nat>)
    requires Prepared(c.m) && forall i :: 0 <= i < |c.m.adverts| ==> c.m.adverts[i].server != []
    ensures Spoke(c, TakeNothing(c, rnd, code))
  {
    hide Executed, RestartDiscovery, TryNext, Refuse;
    var d := Refuse(c, code);
    RefuseStays(c, c, code);
    StaysPasses(c, d);
    RestartDiscoverySpeaks(d, rnd);
    TryNextSpeaks(d, rnd);
    After(c, d, RestartDiscovery(d, rnd));
    After(c, d, TryNext(d, rnd));
  }

  lemma RequestHeldWrites(c: Ctx, rnd: Entropy, server: Duid)
    requires server != []
    ensures Wrote(c, RequestHeld(c, rnd, server))
  {
    hide Executed, StartExchangeFor;
    var held := NO_LEASE.(iaid := c.m.params.iaid, addrs := c.m.Held().addrs, temps := c.m.Held().temps);
    var d := c.(m := c.m.(server := server, pending := held));
    StartExchangeWrites(d, rnd, Request, []);
    After(c, d, StartExchangeFor(d, rnd, Request, []));
  }

  lemma TakeGrantSpeaks(c: Ctx, rnd: Entropy, msg: Message, l: Lease6, zeroed: seq<Addr>)
    ensures Spoke(c, TakeGrant(c, rnd, msg, l, zeroed))
  {
    hide Executed, Merged, CarriedAddrs, NoteKey, EnterBound, StartChecking, NotHeld;
    var d := NoteKey(Pend(c, msg, l, zeroed), msg);
    assert Mute(c, d) && d.m.msgType.None?;
    EnterBoundSpeaks(d, rnd, d.m.pending);
    StartCheckingSpeaks(d, Unchecked(d.m, d.m.pending));
    After(c, d, Settle(d, rnd));
  }

  lemma TakeIASpeaks(c: Ctx, rnd: Entropy, msg: Message)
    requires Prepared(c.m) && msg.Server() != [] && forall i :: 0 <= i < |c.m.adverts| ==> c.m.adverts[i].server != []
    ensures Spoke(c, TakeIA(c, rnd, msg))
  {
    hide Executed, TakeNothing, TakeGrant, RequestHeld, ReadIA, RefusalCode;
    var (l, res) := LeaseFromReply(c.m, msg);
    RequestHeldWrites(c, rnd, msg.Server());
    TakeNothingSpeaks(c, rnd, RefusalCode(if res.found then res.status else NoStatus, msg.status));
    TakeGrantSpeaks(c, rnd, msg, l, res.zeroed);
  }

  lemma TakeReplySpeaks(c: Ctx, rnd: Entropy, msg: Message)
    requires Prepared(c.m) && msg.Server() != [] && forall i :: 0 <= i < |c.m.adverts| ==> c.m.adverts[i].server != []
    ensures Spoke(c, TakeReply(c, rnd, msg))
  {
    hide Executed, ApplyMaxRT, TakeIA, RestartDiscovery, LoseLease, Refuse;
    var d := ApplyMaxRT(c, msg);
    var top := TopCode(msg.status);
    ApplyMaxRTStays(c, msg);
    StaysPasses(c, d);
    if msg.status.BadStatus? {
    } else if top == UNSPEC_FAIL {
      RefuseStays(c, d, Some(top));
      StaysPasses(c, Refuse(d, Some(top)));
    } else if top == NOT_ON_LINK {
      NotOnLinkSpeaks(d, rnd);
      After(c, d, RestartDiscovery(Refuse(LoseLease(d, ReasonNak), Some(top)), rnd));
    } else {
      TakeIASpeaks(d, rnd, msg);
      After(c, d, TakeIA(d, rnd, msg));
    }
  }

  lemma NotOnLinkSpeaks(c: Ctx, rnd: Entropy)
    requires Prepared(c.m)
    ensures Spoke(c, RestartDiscovery(Refuse(LoseLease(c, ReasonNak), Some(NOT_ON_LINK)), rnd))
    ensures Spoke(c, RestartDiscovery(Refuse(c, Some(NOT_ON_LINK)), rnd))
  {
    hide Executed, RestartDiscovery, LoseLease;
    LoseLeasePasses(c, ReasonNak);
    var d, x := Refuse(LoseLease(c, ReasonNak), Some(NOT_ON_LINK)), Refuse(c, Some(NOT_ON_LINK));
    RestartDiscoverySpeaks(d, rnd);
    RestartDiscoverySpeaks(x, rnd);
    After(c, d, RestartDiscovery(d, rnd));
    After(c, x, RestartDiscovery(x, rnd));
  }

  lemma TakeAdvertiseSpeaks(c: Ctx, rnd: Entropy, msg: Message)
    requires Prepared(c.m) && msg.Server() != [] && forall i :: 0 <= i < |c.m.adverts| ==> c.m.adverts[i].server != []
    ensures Spoke(c, TakeAdvertise(c, rnd, msg))
  {
    hide Executed, ApplyMaxRT, SelectAndRequest, Refuse, ReadIA, ReadTemporary, RefusalCode, Prepared;
    var d := ApplyMaxRT(c, msg);
    ApplyMaxRTStays(c, msg);
    StaysPasses(c, d);
    var res := ReadIA(msg.nas, d.m.params.iaid);
    RefuseStays(c, d, Some(TopCode(msg.status)));
    StaysPasses(c, Refuse(d, Some(TopCode(msg.status))));
    RefuseStays(c, d, RefusalCode(res.status, NoStatus));
    StaysPasses(c, Refuse(d, RefusalCode(res.status, NoStatus)));
    var temps := if d.m.params.temporary then ReadTemporary(msg.tas, d.m.params.iaid, res.addrs) else [];
    var a := Advert(msg.Server(), msg.preference, res.addrs, temps, res.t1, res.t2);
    AdvertSpeaks(c, d, rnd, a, true);
    AdvertSpeaks(c, d, rnd, a, false);
  }

  lemma AdvertSpeaks(c: Ctx, d: Ctx, rnd: Entropy, a: Advert, now: bool)
    requires Mute(c, d) && Prepared(d.m) && a.server != []
    requires forall i :: 0 <= i < |d.m.adverts| ==> d.m.adverts[i].server != []
    ensures
      var m := d.m.(adverts := d.m.adverts + [a]);
      var x := d.(m := if now then m.(windowDone := true) else m);
      Spoke(c, SelectAndRequest(x, rnd).0) && Spoke(c, x)
  {
    hide Executed, SelectAndRequest;
    var m := d.m.(adverts := d.m.adverts + [a]);
    var x := d.(m := if now then m.(windowDone := true) else m);
    SelectAndRequestSpeaks(x, rnd);
    After(c, x, SelectAndRequest(x, rnd).0);
  }

  lemma ContinueFromResumeSpeaks(c: Ctx, rnd: Entropy)
    requires Prepared(c.m)
    ensures Spoke(c, ContinueFromResume(c, rnd))
  {
    hide Executed, RestartDiscovery, StartChecking;
    RestartDiscoverySpeaks(c, rnd);
    if c.m.resume.Some? && c.m.resume.value.Live() {
      var s := c.m.resume.value;
      var l := Lease6(c.m.params.iaid, s.addrs, [], s.server, s.t1, s.t2, c.now(), s.config, None);
      var d := Cancel(c.(m := c.m.(pending := l, msgType := None)), TimerRetransmit);
      StartCheckingSpeaks(d, Addrs(l.addrs));
      After(c, d, StartChecking(d, Addrs(l.addrs)));
    }
  }

  lemma TakeConfirmationSpeaks(c: Ctx, rnd: Entropy, msg: Message)
    requires Prepared(c.m)
    ensures Spoke(c, TakeConfirmation(c, rnd, msg))
  {
    hide Executed, ApplyMaxRT, RestartDiscovery, ContinueFromResume, Refuse, Prepared;
    var d := ApplyMaxRT(c, msg);
    ApplyMaxRTStays(c, msg);
    StaysPasses(c, d);
    NotOnLinkSpeaks(d, rnd);
    ContinueFromResumeSpeaks(d, rnd);
    After(c, d, RestartDiscovery(Refuse(d, Some(NOT_ON_LINK)), rnd));
    After(c, d, ContinueFromResume(d, rnd));
  }

  lemma TakeInformationSpeaks(c: Ctx, rnd: Entropy, msg: Message)
    requires Prepared(c.m) && c.m.state == InfoRequesting
    ensures Spoke(c, TakeInformation(c, rnd, msg))
  {
    hide Executed, ApplyMaxRT, Refuse, TakeConfig, RefusalCode, Prepared;
    var d := ApplyMaxRT(c, msg);
    ApplyMaxRTStays(c, msg);
    StaysPasses(c, d);
    RefuseStays(c, d, RefusalCode(msg.status, NoStatus));
    StaysPasses(c, Refuse(d, RefusalCode(msg.status, NoStatus)));
    TakeConfigSpeaks(d, rnd, msg);
    After(c, d, TakeConfig(d, rnd, msg));
  }

  lemma TakeConfigSpeaks(c: Ctx, rnd: Entropy, msg: Message)
    requires c.m.state == InfoRequesting
    ensures Spoke(c, TakeConfig(c, rnd, msg))
  {
    hide Executed, RefreshTime, NoteKey, AnnounceHostname;
    var d := RefreshTime(c.m.params, msg.refresh);
    var k := NoteKey(Cancel(c.(m := c.m.(refresh := d, refreshOwed := false, msgType := None)), TimerRetransmit), msg);
    var x := Emit(EndDetour(k), Configured(msg.config, d));
    var y := if d == INFINITE then Cancel(x, TimerRefresh) else Set(x, TimerRefresh, d);
    AnnounceHostnameSpeaks(y, rnd);
    After(c, y, AnnounceHostname(y, rnd));
  }

  // ------------------------------------------------------- giving things up --

  lemma DeclineHeldSpeaks(c: Ctx, rnd: Entropy)
    requires Prepared(c.m)
    ensures Spoke(c, DeclineHeld(c, rnd))
  {
    hide Executed, LoseLease, DeclineSet;
    var l := c.m.Held();
    LoseLeasePasses(c, ReasonConflict);
    var d := LoseLease(c, ReasonConflict);
    DeclineSetSpeaks(d, rnd, l.server, Addrs(l.addrs), [], Restart);
    After(c, d, DeclineSet(d, rnd, l.server, Addrs(l.addrs), [], Restart));
  }

  lemma Release6Speaks(c: Ctx, rnd: Entropy)
    requires Prepared(c.m) && c.m.msgType != Some(Kind.Release)
    ensures Spoke(c, Release6(c, rnd))
  {
    hide Executed, Halt, LoseLease, StartExchangeFor, CancelAll, UsableAddrs, Addrs, Proper, Vouches, Trusts;
    if c.m.lease.None? {
      HaltSpeaks(c, ReasonReleased);
    } else {
      var l := c.m.lease.value;
      var k := c.(m := c.m.(server := l.server));
      LoseLeasePasses(k, ReasonReleased);
      var d := Cancel(Cancel(Cancel(LoseLease(k, ReasonReleased), TimerRenew), TimerRebind), TimerExpire);
      var x := d.(m := d.m.(releasing := Addrs(l.addrs), releasingTA := UsableAddrs(Addrs(l.temps)), state := Stopped));
      assert Mute(c, x);
      if l.server != [] {
        StartExchangeWrites(x, rnd, Kind.Release, []);
        After(c, x, StartExchangeFor(x, rnd, Kind.Release, []));
      }
    }
  }

  lemma NoteActionFailedSpeaks(c: Ctx)
    requires Prepared(c.m)
    ensures Spoke(c, NoteActionFailed(c))
  {
    hide Executed, Halt, Wrote;
    var x := c.(m := c.m.(sendFailures := c.m.sendFailures + 1));
    var d := Emit(x, Failed(ReasonTransport));
    HaltSpeaks(d, ReasonTransport);
    After(c, d, Halt(d, ReasonTransport));
    assert Mute(c, x) && Prepared(x.m);
  }

  lemma ObserveRouterSpeaks(c: Ctx, rnd: Entropy, managed: bool, other: bool)
    requires Prepared(c.m)
    ensures Spoke(c, ObserveRouter(c, rnd, managed, other))
  {
    hide Executed, StartExchangeFor;
    if !managed && other && c.m.state == Selecting {
      var d := Cancel(c.(m := c.m.(adverts := [], windowDone := false)), TimerRetransmit);
      StartExchangeWrites(d, rnd, InformationRequest, []);
      After(c, d, StartExchangeFor(d, rnd, InformationRequest, []));
    }
  }

  lemma RespondWrites(c: Ctx, rnd: Entropy, kind: Kind, sid: Duid)
    ensures Wrote(c, Respond(c, rnd, kind, sid))
  {
    hide Executed, StartExchangeFor, EnterRenewing, EnterRebinding;
    EnterRenewingWrites(c, rnd);
    EnterRebindingWrites(c, rnd);
    var d := c.(m := c.m.(reconfDetour := c.m.reconfDetour || c.m.state == Bound));
    StartExchangeWrites(d, rnd, InformationRequest, sid);
    After(c, d, StartExchangeFor(d, rnd, InformationRequest, sid));
  }

  lemma TakeReconfigureSpeaks(c: Ctx, rnd: Entropy, msg: Message, raw: Frame, dst: Option<Addr>)
    requires Prepared(c.m)
    ensures Spoke(c, TakeReconfigure(c, rnd, msg, raw, dst))
  {
    hide Executed, Respond, IsUnicast, Proper, Prepared;
    if ReconfigureFault(c.m, msg, raw, dst).None? {
      var d := Respond(c, rnd, msg.reconfigure.kind, msg.Server());
      RespondWrites(c, rnd, msg.reconfigure.kind, msg.Server());
      CountedAlike(d.m, TakeReconfigure(c, rnd, msg, raw, dst).m, d.env().mail[|c.env().mail|]);
    } else {
      CountedPrepared(c.m, TakeReconfigure(c, rnd, msg, raw, dst).m);
    }
  }

  lemma CountedPrepared(m: Client, r: Client)
    requires Prepared(m) && r == m.(counts := r.counts)
    ensures Prepared(r)
  {
  }

  /** What authenticates later messages is no part of this one. */
  lemma CountedAlike(m: Client, r: Client, x: Outgoing)
    requires Proper(m, x) && Prepared(m) && r == m.(reconf := r.reconf, counts := r.counts)
    ensures Proper(r, x) && Prepared(r)
  {
    hide Names, Usables;
  }

  // ------------------------------------------------------------ each state --

  /** What every state makes of being told to stop, and of what it does not act on. */
  lemma EndsSpeak(c: Ctx)
    requires Prepared(c.m)
    ensures Spoke(c, Halt(c, ReasonStopped)) && Spoke(c, Halt(c, ReasonLinkDown)) && Spoke(c, Halt(c, ReasonReleased))
    ensures Spoke(c, c)
  {
    hide Executed, Halt, Wrote, Prepared;
    HaltSpeaks(c, ReasonStopped);
    HaltSpeaks(c, ReasonLinkDown);
    HaltSpeaks(c, ReasonReleased);
  }

  /** What the invariant and a delivered answer say that a message rests on. */
  lemma DeliveredFacts(c: Ctx, e: Env, ev: Event)
    requires Delivered(c, e, ev)
    ensures forall i :: 0 <= i < |c.m.adverts| ==> c.m.adverts[i].server != []
    ensures ev.Received? && Admits(c.m, ev.msg) ==> ev.msg.value.Server() != []
    ensures c.m.state == Renewing ==> c.m.msgType == Some(Renew)
    ensures c.m.state == Rebinding ==> c.m.msgType == Some(Rebind)
    ensures c.m.state == Selecting ==> c.m.msgType == Some(Solicit)
    ensures c.m.state == Requesting ==> c.m.msgType == Some(Request)
    ensures c.m.state == Confirming ==> c.m.msgType == Some(Confirm)
    ensures c.m.state == Init ==> c.m.pendingType == Solicit || c.m.pendingType == Confirm
    ensures c.m.state == Checking && c.m.dadWait != [] ==> c.m.msgType.None?
    ensures c.m.state == InfoRequesting && ev == TimerFired(TimerRetransmit) ==> c.m.msgType == Some(InformationRequest)
  {
    hide Executed, Fit, ExpiryRule, PendingRule, SidesKept;
  }

  lemma StoppedSpeaks(c: Ctx, e: Env, rnd: Entropy, ev: Event)
    requires Delivered(c, e, ev) && Prepared(c.m) && c.m.state == Stopped
    ensures Spoke(c, StepStopped(c, rnd, ev))
  {
    hide Executed, Begin, Resend, Delivered, Admits, GivesUp, Wrote;
    EndsSpeak(c);
    BeginSpeaks(c, rnd);
    if c.m.msgType == Some(Kind.Release) {
      ResendWrites(c, rnd, Kind.Release);
      assert Spoke(c, EndExchange(c));
    }
  }

  lemma InitSpeaks(c: Ctx, e: Env, rnd: Entropy, ev: Event)
    requires Delivered(c, e, ev) && Prepared(c.m) && c.m.state == Init
    ensures Spoke(c, StepInit(c, rnd, ev))
  {
    hide Executed, Halt, StartExchangeFor, Delivered, Wrote, Mute;
    EndsSpeak(c);
    DeliveredFacts(c, e, ev);
    StartExchangeWrites(c, rnd, c.m.pendingType, []);
  }

  lemma SelectingSpeaks(c: Ctx, e: Env, rnd: Entropy, ev: Event)
    requires Delivered(c, e, ev) && Prepared(c.m) && c.m.state == Selecting
    ensures Spoke(c, StepSelecting(c, rnd, ev))
  {
    hide Executed, Halt, TakeAdvertise, CollectionEnds, Delivered, Wrote, Mute, Prepared, Admits;
    EndsSpeak(c);
    DeliveredFacts(c, e, ev);
    if ev.Received? && Admits(c.m, ev.msg) {
      AdmitsSome(c.m, ev.msg);
      TakeAdvertiseSpeaks(c, rnd, ev.msg.value);
    } else if ev == TimerFired(TimerRetransmit) {
      CollectionEndsSpeaks(c, rnd);
    }
  }

  lemma AdmitsSome(m: Client, msg: Option<Message>)
    requires Admits(m, msg)
    ensures msg.Some? && m.msgType.Some?
  {
  }

  lemma CollectionEndsSpeaks(c: Ctx, rnd: Entropy)
    requires Prepared(c.m) && c.m.state == Selecting && c.m.msgType == Some(Solicit)
    requires forall i :: 0 <= i < |c.m.adverts| ==> c.m.adverts[i].server != []
    ensures Spoke(c, CollectionEnds(c, rnd))
  {
    hide Executed, SelectAndRequest, Resend, Wrote;
    ResendWrites(c, rnd, Solicit);
    var d := c.(m := c.m.(windowDone := true));
    SelectAndRequestSpeaks(d, rnd);
    ResendWrites(d, rnd, Solicit);
    After(c, d, SelectAndRequest(d, rnd).0);
    After(c, d, Resend(d, rnd));
  }

  lemma RequestingSpeaks(c: Ctx, e: Env, rnd: Entropy, ev: Event)
    requires Delivered(c, e, ev) && Prepared(c.m) && c.m.state == Requesting
    ensures Spoke(c, StepRequesting(c, rnd, ev))
  {
    hide Executed, Halt, TakeReply, TryNext, Resend, GivesUp, Delivered, Wrote, Mute, Prepared, Admits;
    EndsSpeak(c);
    DeliveredFacts(c, e, ev);
    if ev.Received? && Admits(c.m, ev.msg) {
      AdmitsSome(c.m, ev.msg);
      TakeReplySpeaks(c, rnd, ev.msg.value);
    } else if ev == TimerFired(TimerRetransmit) {
      TryNextSpeaks(c, rnd);
      ResendWrites(c, rnd, Request);
    }
  }

  lemma ConfirmingSpeaks(c: Ctx, e: Env, rnd: Entropy, ev: Event)
    requires Delivered(c, e, ev) && Prepared(c.m) && c.m.state == Confirming
    ensures Spoke(c, StepConfirming(c, rnd, ev))
  {
    hide Executed, Halt, TakeConfirmation, ContinueFromResume, Resend, GivesUp, Delivered, Wrote, Mute, Prepared,
         Admits;
    EndsSpeak(c);
    DeliveredFacts(c, e, ev);
    if ev.Received? && Admits(c.m, ev.msg) {
      AdmitsSome(c.m, ev.msg);
      TakeConfirmationSpeaks(c, rnd, ev.msg.value);
    } else if ev == TimerFired(TimerRetransmit) {
      ContinueFromResumeSpeaks(c, rnd);
      ResendWrites(c, rnd, Confirm);
    }
  }

  lemma InfoRequestingSpeaks(c: Ctx, e: Env, rnd: Entropy, ev: Event)
    requires Delivered(c, e, ev) && Prepared(c.m) && c.m.state == InfoRequesting
    ensures Spoke(c, StepInfoRequesting(c, rnd, ev))
  {
    hide Executed, Halt, TakeInformation, EnterRenewing, EnterRebinding, StartExchangeFor, Resend, Delivered, Wrote,
         Mute, Prepared, Admits, RandomDelay;
    EndsSpeak(c);
    DeliveredFacts(c, e, ev);
    match ev {
      case Received(msg, _, _) =>
        if Admits(c.m, msg) {
          AdmitsSome(c.m, msg);
          TakeInformationSpeaks(c, rnd, msg.value);
        }
      case TimerFired(t) => InfoTimerSpeaks(c, rnd, t);
      case _ =>
    }
  }

  lemma InfoTimerSpeaks(c: Ctx, rnd: Entropy, t: TimerID)
    requires Prepared(c.m) && c.m.state == InfoRequesting
    requires t == TimerRetransmit ==> c.m.msgType == Some(InformationRequest)
    ensures Spoke(c, StepInfoRequesting(c, rnd, TimerFired(t)))
  {
    hide Executed, EnterRenewing, EnterRebinding, StartExchangeFor, Resend, RandomDelay, Wrote;
    var d := c.(m := c.m.(reconfDetour := false));
    match t {
      case TimerRetransmit => ResendWrites(c, rnd, InformationRequest);
      case TimerDelay => StartExchangeWrites(c, rnd, InformationRequest, []);
      case TimerRenew =>
        EnterRenewingWrites(d, rnd);
        After(c, d, EnterRenewing(d, rnd));
      case TimerRebind =>
        EnterRebindingWrites(d, rnd);
        After(c, d, EnterRebinding(d, rnd));
      case _ =>
    }
  }

  lemma CheckingSpeaks(c: Ctx, e: Env, rnd: Entropy, ev: Event)
    requires Delivered(c, e, ev) && Prepared(c.m) && c.m.state == Checking
    ensures Spoke(c, StepChecking(c, rnd, ev))
  {
    hide Executed, Halt, TakeDADResult, RestartDiscovery, FinishDecline, Resend, GivesUp, Delivered, Wrote, Mute,
         Admits, Prepared;
    EndsSpeak(c);
    DeliveredFacts(c, e, ev);
    match ev {
      case DADResult(a, duplicate) => TakeDADResultSpeaks(c, rnd, a, duplicate);
      case TimerFired(t) =>
        AbandonedSpeaks(c, rnd);
        if c.m.msgType == Some(Decline) {
          FinishDeclineSpeaks(c, rnd);
          ResendWrites(c, rnd, Decline);
        }
      case Received(_, _, _) => FinishDeclineSpeaks(c, rnd);
      case AddressLost => AbandonedSpeaks(c, rnd);
      case _ =>
    }
  }

  lemma AbandonedSpeaks(c: Ctx, rnd: Entropy)
    requires Prepared(c.m)
    ensures Spoke(c, RestartDiscovery(c.(m := DropPending(c.m)), rnd))
    ensures
      var d := Emit(Cancel(c, TimerDAD), Failed(ReasonDADIncomplete));
      Spoke(c, RestartDiscovery(d.(m := DropPending(d.m)), rnd))
  {
    hide Executed, RestartDiscovery;
    var d := Emit(Cancel(c, TimerDAD), Failed(ReasonDADIncomplete));
    var x, y := c.(m := DropPending(c.m)), d.(m := DropPending(d.m));
    RestartDiscoverySpeaks(x, rnd);
    RestartDiscoverySpeaks(y, rnd);
    After(c, x, RestartDiscovery(x, rnd));
    After(c, y, RestartDiscovery(y, rnd));
  }

  lemma BoundSpeaks(c: Ctx, e: Env, rnd: Entropy, ev: Event)
    requires Delivered(c, e, ev) && Prepared(c.m) && c.m.state == Bound
    ensures Spoke(c, StepBound(c, rnd, ev))
  {
    hide Executed, Halt, EnterRenewing, EnterRebinding, StartExchangeFor, DeclineHeld, Release6, RandomDelay,
         Delivered, Wrote;
    EndsSpeak(c);
    match ev {
      case TimerFired(TimerRenew) => EnterRenewingWrites(c, rnd);
      case TimerFired(TimerRebind) => EnterRebindingWrites(c, rnd);
      case TimerFired(TimerDelay) => StartExchangeWrites(c, rnd, InformationRequest, []);
      case AddressLost => DeclineHeldSpeaks(c, rnd);
      case DADResult(_, _) => DeclineHeldSpeaks(c, rnd);
      case Release => Release6Speaks(c, rnd);
      case _ =>
    }
  }

  lemma RenewalSpeaks(c: Ctx, e: Env, rnd: Entropy, ev: Event)
    requires Delivered(c, e, ev) && Prepared(c.m) && IsRenewal(c.m)
    ensures Spoke(c, StepRenewal(c, rnd, ev))
  {
    hide Executed, Halt, TakeReply, EnterRebinding, DeclineHeld, Release6, Resend, Delivered, Wrote, Mute, Prepared,
         Admits;
    EndsSpeak(c);
    DeliveredFacts(c, e, ev);
    match ev {
      case Received(msg, _, _) =>
        if Admits(c.m, msg) {
          AdmitsSome(c.m, msg);
          TakeReplySpeaks(c, rnd, msg.value);
        }
      case TimerFired(TimerRetransmit) => ResendWrites(c, rnd, c.m.msgType.value);
      case TimerFired(TimerRebind) => EnterRebindingWrites(c, rnd);
      case AddressLost => DeclineHeldSpeaks(c, rnd);
      case Release => Release6Speaks(c, rnd);
      case _ =>
    }
  }

  lemma StateSpeaks(c: Ctx, e: Env, rnd: Entropy, ev: Event)
    requires Delivered(c, e, ev) && Prepared(c.m)
    ensures Spoke(c, StepState(c, rnd, ev))
  {
    hide Executed, Delivered, Spoke, Prepared, StepStopped, StepInit, StepSelecting, StepRequesting, StepConfirming,
         StepInfoRequesting, StepChecking, StepBound, StepRenewal;
    match c.m.state {
      case Stopped => StoppedSpeaks(c, e, rnd, ev);
      case Init => InitSpeaks(c, e, rnd, ev);
      case Selecting => SelectingSpeaks(c, e, rnd, ev);
      case Requesting => RequestingSpeaks(c, e, rnd, ev);
      case Confirming => ConfirmingSpeaks(c, e, rnd, ev);
      case InfoRequesting => InfoRequestingSpeaks(c, e, rnd, ev);
      case Checking => CheckingSpeaks(c, e, rnd, ev);
      case Bound => BoundSpeaks(c, e, rnd, ev);
      case Renewing => RenewalSpeaks(c, e, rnd, ev);
      case Rebinding => RenewalSpeaks(c, e, rnd, ev);
    }
  }

  // ------------------------------------------------------------- every step --

  lemma RenewingIsRipe(m: Client, e: Env)
    requires Inv(m, e) && Prepared(m)
    ensures m.state == Renewing ==> Ripe(m, Renew)
  {
    hide Fit, ExpiryRule;
  }

  lemma StepDelivered(w: World, i: Input)
    requires Inv(w.m, w.e) && Admissible(w.e, i.now, i.ev)
    ensures Delivered(Begun(w.m, Deliver(w.m, w.e, i.now, i.ev)), w.e, i.ev)
  {
    hide Executed, Inv;
  }

  lemma BodySpeaks(c: Ctx, e: Env, rnd: Entropy, ev: Event)
    requires Delivered(c, e, ev) && Prepared(c.m) && (c.m.state == Renewing ==> Ripe(c.m, Renew))
    ensures Spoke(c, StepBody(c, rnd, ev))
  {
    hide Executed, Delivered, Spoke, Prepared, Ripe, ExpireLease, TakeHostname, NoteActionFailed, TakeReconfigure,
         ObserveRouter, StepState;
    if ev.RouterAdvert? {
      ObserveRouterSpeaks(c, rnd, ev.managed, ev.other);
    } else if ev == TimerFired(TimerExpire) {
      ExpireLeaseSpeaks(c, rnd);
    } else if ev.SetHostname? {
      TakeHostnameSpeaks(c, rnd, ev.name);
    } else if ev.ActionFailed? {
      NoteActionFailedSpeaks(c);
    } else if IsReconfigure(ev) {
      TakeReconfigureSpeaks(c, rnd, ev.msg.value, ev.raw, ev.dst);
    } else {
      EndsSpeak(c);
      StateSpeaks(c, e, rnd, ev);
    }
  }

  /** Every step sends at most one message. That one is proper for the state
      the step ends in and has its retransmission armed; and no exchange is
      begun without one. */
  lemma StepSpeaks(w: World, i: Input)
    requires Inv(w.m, w.e) && Admissible(w.e, i.now, i.ev) && Prepared(w.m)
    ensures Spoke(Begun(w.m, Deliver(w.m, w.e, i.now, i.ev)), Advance(w.m, w.e, i.now, i.rnd, i.ev))
  {
    hide Executed, Inv, Admissible, Delivered, Deliver, Spoke, Prepared, Ripe, StepBody;
    RenewingIsRipe(w.m, w.e);
    StepDelivered(w, i);
    BodySpeaks(Begun(w.m, Deliver(w.m, w.e, i.now, i.ev)), w.e, i.rnd, i.ev);
  }

  /** The world after a step has one message more, a proper one, that will be
      sent again after a timeout in its schedule's band. */
  ghost predicate Posted(w: World, i: Input, u: World) {
    var n := |w.e.mail|;
    && |u.e.mail| == n + 1 && u.e.mail[..n] == w.e.mail && Proper(u.m, u.e.mail[n])
    && u.e.armed.retransmit == Some(i.now + u.m.rt) && Scheduled(u.m)
  }

  lemma StepPosts(w: World, i: Input)
    requires Inv(w.m, w.e) && Admissible(w.e, i.now, i.ev) && Prepared(w.m)
    ensures Next(w, i).e.mail == w.e.mail || Posted(w, i, Next(w, i))
    ensures Prepared(Next(w, i).m)
  {
    hide Executed, Inv, Admissible, StepBody, Proper, Scheduled;
    StepSpeaks(w, i);
    assert Deliver(w.m, w.e, i.now, i.ev).mail == w.e.mail;
  }

  lemma {:induction false} PlayPrepared(w: World, ins: seq<Input>)
    requires Inv(w.m, w.e) && Prepared(w.m) && Legal(w, ins)
    ensures Prepared(Play(w, ins).m)
  {
    hide Inv, Admissible, Next, Prepared, Posted;
    if ins != [] {
      var k := |ins| - 1;
      LegalPrefix(w, ins, k);
      PlayKeepsInv(w, ins[..k]);
      PlayPrepared(w, ins[..k]);
      StepPosts(Play(w, ins[..k]), ins[k]);
    }
  }

  /** The step that sent the message at index n of everything sent. */
  ghost predicate SentBy(w: World, ins: seq<Input>, n: nat, k: nat) {
    && k < |ins| && n < |Play(w, ins).e.mail|
    && var v, u := Play(w, ins[..k]), Play(w, ins[..k + 1]);
       |v.e.mail| == n && Posted(v, ins[k], u) && u.e.mail[n] == Play(w, ins).e.mail[n]
  }

  /** Every message of every run was sent by some step, proper for where the
      step left the client, and set to be sent again in time. */
  lemma {:induction false} EveryMessageProper(p: Params, start: Instant, ins: seq<Input>, n: nat) returns (k: nat)
    requires p.Valid() && Legal(Initial(p, start), ins) && n < |Play(Initial(p, start), ins).e.mail|
    ensures SentBy(Initial(p, start), ins, n, k)
  {
    hide Inv, Admissible, Next, Proper, Prepared;
    var w, last := Initial(p, start), |ins| - 1;
    NewInv(p, start);
    assert Prepared(w.m) by { NewPrepared(p); }
    LegalPrefix(w, ins, last);
    PlayKeepsInv(w, ins[..last]);
    PlayPrepared(w, ins[..last]);
    StepPosts(Play(w, ins[..last]), ins[last]);
    assert ins[..last + 1] == ins;
    if n == |Play(w, ins[..last]).e.mail| {
      k := last;
    } else {
      k := EveryMessageProper(p, start, ins[..last], n);
      assert ins[..last][..k] == ins[..k] && ins[..last][..k + 1] == ins[..k + 1];
    }
  }

  lemma NewPrepared(p: Params)
    ensures Prepared(New(p))
  {
  }

  // -------------------------------------------------------------- selection --

  /** An advertisement no other untried one is preferred to, and the first to
      arrive of those that are equal. */
  predicate Preferred(adverts: seq<Advert>, tried: seq<Duid>, k: nat) {
    && k < |adverts| && adverts[k].server !in tried
    && forall i :: 0 <= i < |adverts| && adverts[i].server !in tried ==>
         if i < k then adverts[i].preference < adverts[k].preference else adverts[i].preference <= adverts[k].preference
  }

  /** A client asks the server it should prefer for exactly what that server
      advertised, and asks none exactly when it has tried them all. */
  lemma RequestsThePreferred(c: Ctx, rnd: Entropy) returns (k: nat)
    requires forall i :: 0 <= i < |c.m.adverts| ==> c.m.adverts[i].server != []
    ensures
      var (r, asked) := SelectAndRequest(c, rnd);
      && (!asked <==> forall i :: 0 <= i < |c.m.adverts| ==> c.m.adverts[i].server in c.m.tried)
      && (!asked ==> r == c)
      && (asked ==>
            && Preferred(c.m.adverts, c.m.tried, k) && |r.env().mail| == |c.env().mail| + 1
            && var x := r.env().mail[|c.env().mail|];
               && x.kind == Request && x.server == c.m.adverts[k].server && Names(x.addrs, c.m.adverts[k].addrs)
               && if c.m.params.temporary then Names(x.temps, c.m.adverts[k].temps) else x.temps == [])
  {
    hide Executed, StartExchangeFor, Best, Names, UsableAddrs, Addrs;
    k := 0;
    var best := Best(c.m.adverts, c.m.tried);
    if best.Some? {
      k := best.value;
      var a := c.m.adverts[k];
      var l := Lease6(c.m.params.iaid, a.addrs, a.temps, a.server, a.t1, a.t2, 0, 0, None);
      var d := c.(m := c.m.(server := a.server, pending := l));
      StartExchangeCompose(d, rnd, Request);
      OpenedFacts(d.m, d.now(), rnd, Request, []);
      UsableNames(a.addrs);
      UsableNames(a.temps);
    }
  }

  /** A server that answers a renewal with NoBinding is asked itself, at once,
      for the usable addresses the client still holds. */
  lemma NoBindingAsksAgain(c: Ctx, rnd: Entropy, msg: Message)
    requires IsRenewal(c.m) && LeaseFromReply(c.m, msg).1.status == Code(NO_BINDING)
    ensures
      var r := TakeIA(c, rnd, msg);
      && r.m.lease == c.m.lease && r.m.state == Requesting
      && (msg.Server() != [] ==>
            && |r.env().mail| == |c.env().mail| + 1
            && var x := r.env().mail[|c.env().mail|];
               && x.kind == Request && x.server == msg.Server() && Names(x.addrs, c.m.Held().addrs)
               && if c.m.params.temporary then Names(x.temps, c.m.Held().temps) else x.temps == [])
  {
    hide Executed, StartExchangeFor, ReadIA, Names, UsableAddrs, Addrs;
    var h := c.m.Held();
    var held := NO_LEASE.(iaid := c.m.params.iaid, addrs := h.addrs, temps := h.temps);
    var d := c.(m := c.m.(server := msg.Server(), pending := held));
    if msg.Server() != [] {
      StartExchangeCompose(d, rnd, Request);
    }
    StartExchangeAside(d, rnd, Request, []);
    OpenedFacts(d.m, d.now(), rnd, Request, []);
    UsableNames(h.addrs);
    UsableNames(h.temps);
  }

  // ---------------------------------------------------- what is given up --

  /** Releasing a lease names its server and every usable address of it, and
      nothing of it is held any longer. */
  lemma ReleaseNamesTheLease(c: Ctx, rnd: Entropy)
    requires Prepared(c.m) && c.m.msgType != Some(Kind.Release) && c.m.lease.Some? && c.m.lease.value.server != []
    ensures
      var r, l := Release6(c, rnd), c.m.lease.value;
      && |r.env().mail| == |c.env().mail| + 1 && r.m.lease.None?
      && var x := r.env().mail[|c.env().mail|];
         x.kind == Kind.Release && x.server == l.server && Names(x.addrs, l.addrs) && Names(x.temps, l.temps)
  {
    hide Executed, LoseLease, StartExchangeFor, UsableAddrs, Addrs;
    var l := c.m.lease.value;
    var k := c.(m := c.m.(server := l.server));
    LoseLeasePasses(k, ReasonReleased);
    var d := Cancel(Cancel(Cancel(LoseLease(k, ReasonReleased), TimerRenew), TimerRebind), TimerExpire);
    var x := d.(m := d.m.(releasing := Addrs(l.addrs), releasingTA := UsableAddrs(Addrs(l.temps)), state := Stopped));
    StartExchangeCompose(x, rnd, Kind.Release);
    OpenedFacts(x.m, x.now(), rnd, Kind.Release, []);
    UsableNames(l.addrs);
    UsableNames(l.temps);
    UsableTwice(Addrs(l.temps));
  }

  lemma StartExchangeCompose(c: Ctx, rnd: Entropy, t: Kind)
    requires c.m.server != []
    ensures
      var r := StartExchange(c, rnd, t);
      && r.env().mail == c.env().mail + [Compose(Opened(c.m, c.now(), rnd, t, []), t)] && r.m.lease == c.m.lease
  {
    hide Executed, Compose, Schedule, Backoff6.Retransmit.First, Opened;
    var d := c.(m := Opened(c.m, c.now(), rnd, t, []));
    OpenedFacts(c.m, c.now(), rnd, t, []);
  }

  lemma {:induction false} UsableTwice(s: seq<Addr>)
    ensures UsableAddrs(UsableAddrs(s)) == UsableAddrs(s)
  {
    if s != [] {
      var n := |s| - 1;
      UsableTwice(s[..n]);
      var before := UsableAddrs(s[..n]);
      if Usable(s[n]) {
        assert (before + [s[n]])[..|before|] == before;
      } else {
        assert before + [] == before;
      }
    }
  }
}
