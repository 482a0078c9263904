/** The DHCPv6 client as the program runs it: one object whose record of fields
    is updated in place, and the list of actions of the step under way. Each
    method is the transition of the same name. */
module Machine6 {
  import opened Clock
  import opened Lease
  import opened Lease6
  import opened Dhcp6
  import Backoff6

  class Machine {
    var m: Client
    var out: seq<Stamped>
    ghost var start: Env

    ghost function View(): Ctx
      reads this
    {
      Ctx(m, out, start)
    }

    ghost predicate At(now: Instant)
      reads this
    {
      start.now == now
    }

    constructor (p: Params)
      requires p.Valid()
      ensures m == New(p) && out == []
    {
      m, out := New(p), [];
    }

    /** One event in, a list of actions out. */
    method Step(now: Instant, rnd: Entropy, ev: Event, ghost e: Env) returns (acts: seq<Stamped>)
      requires e.now == now
      modifies this
      ensures
        var c := StepBody(Begun(old(m), e), rnd, ev);
        m == c.m && acts == c.out
    {
      hide Executed, Execute, StepState, Dhcp6.ExpireLease, Dhcp6.TakeHostname, Dhcp6.NoteActionFailed,
           Dhcp6.TakeReconfigure, Dhcp6.ObserveRouter;
      out, start := [], e;
      if ev.RouterAdvert? {
        ObserveRouter(now, rnd, ev.managed, ev.other);
      } else if ev == TimerFired(TimerExpire) {
        ExpireLease(now, rnd);
      } else if ev.SetHostname? {
        TakeHostname(now, rnd, ev.name);
      } else if ev.ActionFailed? {
        NoteActionFailed();
      } else if IsReconfigure(ev) {
        TakeReconfigure(now, rnd, ev.msg.value, ev.raw, ev.dst);
      } else if !ev.ARPReceived? && !ev.ConflictDetected? {
        DispatchState(now, rnd, ev);
      }
      return out;
    }

    method DispatchState(now: Instant, rnd: Entropy, ev: Event)
      requires At(now)
      modifies this
      ensures View() == StepState(old(View()), rnd, ev) && start == old(start)
    {
      hide Executed, Execute, Dhcp6.StepStopped, Dhcp6.StepInit, Dhcp6.StepSelecting, Dhcp6.StepRequesting,
           Dhcp6.StepConfirming, Dhcp6.StepInfoRequesting, Dhcp6.StepChecking, Dhcp6.StepBound, Dhcp6.StepRenewal,
           Keeps, KeepsFloors;
      match m.state {
        case Checking => StepChecking(now, rnd, ev);
        case Bound => StepBound(now, rnd, ev);
        case Renewing => StepRenewal(now, rnd, ev);
        case Rebinding => StepRenewal(now, rnd, ev);
        case _ => DispatchSearch(now, rnd, ev);
      }
    }

    method DispatchSearch(now: Instant, rnd: Entropy, ev: Event)
      requires At(now) && !m.state.Checking? && !m.state.Bound? && !m.state.Renewing? && !m.state.Rebinding?
      modifies this
      ensures View() == StepState(old(View()), rnd, ev) && start == old(start)
    {
      hide Executed, Execute, Dhcp6.StepStopped, Dhcp6.StepInit, Dhcp6.StepSelecting, Dhcp6.StepRequesting,
           Dhcp6.StepConfirming, Dhcp6.StepInfoRequesting, Dhcp6.StepChecking, Dhcp6.StepBound, Dhcp6.StepRenewal,
           Keeps, KeepsFloors;
      match m.state {
        case Stopped => StepStopped(now, rnd, ev);
        case Init => StepInit(now, rnd, ev);
        case Selecting => StepSelecting(now, rnd, ev);
        case Requesting => StepRequesting(now, rnd, ev);
        case Confirming => StepConfirming(now, rnd, ev);
        case InfoRequesting => StepInfoRequesting(now, rnd, ev);
      }
    }

    // ----------------------------------------------------------- actions --

    method Tell(a: Action)
      modifies this
      ensures View() == Emit(old(View()), a) && start == old(start)
    {
      out := out + [Stamped(m.nextAction, a)];
      m := m.(nextAction := m.nextAction + 1);
    }

    method Set(t: TimerID, d: Duration)
      modifies this
      ensures View() == Dhcp6.Set(old(View()), t, d) && start == old(start)
    {
      Tell(SetTimer(t, d));
    }

    method Cancel(t: TimerID)
      modifies this
      ensures View() == Dhcp6.Cancel(old(View()), t) && start == old(start)
    {
      Tell(CancelTimer(t));
    }

    method CancelAll()
      modifies this
      ensures View() == Dhcp6.CancelAll(old(View())) && start == old(start)
    {
      hide Executed, Execute;
      var n := 0;
      while n < |ALL_TIMERS|
        invariant n <= |ALL_TIMERS|
        invariant View() == CancelMany(old(View()), n) && start == old(start)
      {
        Cancel(ALL_TIMERS[n]);
        n := n + 1;
      }
    }

    method Refuse(code: Option<nat>)
      modifies this
      ensures View() == Dhcp6.Refuse(old(View()), code) && start == old(start)
    {
      if code.Some? {
        Tell(Refused(code.value));
      }
    }

    // --------------------------------------------------------- exchanges --

    method Compose(t: Kind) returns (msg: Outgoing)
      ensures msg == Dhcp6.Compose(m, t)
    {
      hide BuildAddrs, BuildTemps;
      var server := [];
      if NeedsServer(t) {
        server := m.server;
      } else if t == InformationRequest {
        server := m.reconfServerID;
      }
      var name := "";
      if CarriesName(t) {
        name := m.exchangeName;
      }
      msg := Outgoing(t, m.xid, server, BuildAddrs(m, t), BuildTemps(m, t), name);
    }

    method Transmit()
      modifies this
      ensures View() == Dhcp6.Transmit(old(View())) && start == old(start)
    {
      hide Executed, Execute, Emit, Keeps, Dhcp6.Compose, Sent;
      var t := if m.msgType.Some? then m.msgType.value else OtherKind;
      if NeedsServer(t) && m.server == [] {
        Tell(Failed(ReasonTransport));
        return;
      }
      var msg := Compose(t);
      var rt := m.rt;
      m := Sent(m, t);
      Tell(Send(msg));
      Set(TimerRetransmit, rt);
    }

    method StartExchangeFor(now: Instant, rnd: Entropy, t: Kind, sid: Duid)
      requires At(now)
      modifies this
      ensures View() == Dhcp6.StartExchangeFor(old(View()), rnd, t, sid) && start == old(start)
    {
      hide Executed, Execute, Dhcp6.Transmit, Schedule, Backoff6.Retransmit.First;
      m := m.(reconfServerID := sid, msgType := Some(t), exchangeName := m.hostname, xid := rnd % 0x1_0000_00,
              exchangeStart := now, transmits := 0, sched := Schedule(m.params, t));
      m := m.(rt := m.sched.First(rnd));
      match t {
        case Solicit =>
          if m.rt <= m.sched.irt {
            m := m.(rt := m.sched.irt + 1);
          }
          m := m.(state := Selecting, windowDone := false, adverts := []);
        case Request => m := m.(state := Requesting);
        case Confirm => m := m.(state := Confirming);
        case InformationRequest => m := m.(state := InfoRequesting);
        case Renew => m := m.(state := Renewing);
        case Rebind => m := m.(state := Rebinding);
        case _ =>
      }
      Transmit();
    }

    method StartExchange(now: Instant, rnd: Entropy, t: Kind)
      requires At(now)
      modifies this
      ensures View() == Dhcp6.StartExchange(old(View()), rnd, t) && start == old(start)
    {
      hide Executed, Execute, Dhcp6.StartExchangeFor;
      StartExchangeFor(now, rnd, t, []);
    }

    method Resend(rnd: Entropy)
      modifies this
      ensures View() == Dhcp6.Resend(old(View()), rnd) && start == old(start)
    {
      hide Executed, Execute, Dhcp6.Transmit, Backoff6.Retransmit.Next;
      m := m.(rt := m.sched.Next(m.rt, rnd));
      Transmit();
    }

    method EndExchange()
      modifies this
      ensures View() == Dhcp6.EndExchange(old(View())) && start == old(start)
    {
      m := m.(msgType := None, declining := [], decliningTA := [], afterDecline := None);
      Cancel(TimerRetransmit);
    }

    // ------------------------------------------------------- transitions --

    method LoseLease(why: Reason)
      modifies this
      ensures View() == Dhcp6.LoseLease(old(View()), why) && start == old(start)
    {
      if m.lease.None? {
        return;
      }
      var l := m.lease.value;
      m := m.(lease := None);
      Tell(LeaseLost(why, l));
    }

    method Halt(why: Reason)
      modifies this
      ensures View() == Dhcp6.Halt(old(View()), why) && start == old(start)
    {
      hide Executed, Execute, Dhcp6.LoseLease, Dhcp6.CancelAll;
      LoseLease(why);
      m := DropPending(m);
      m := m.(msgType := None, declining := [], decliningTA := [], afterDecline := None, state := Stopped);
      CancelAll();
    }

    method Begin(rnd: Entropy)
      modifies this
      ensures View() == Dhcp6.Begin(old(View()), rnd) && start == old(start)
    {
      hide Executed, Execute, RandomDelay;
      m := m.(adverts := [], windowDone := false, tried := [], sendFailures := 0);
      var t, max := Solicit, m.params.table.solMaxDelay;
      if m.resume.Some? && m.resume.value.Live() {
        t, max := Confirm, m.params.table.cnfMaxDelay;
      }
      m := m.(pendingType := t, state := Init);
      Set(TimerDelay, RandomDelay(max, rnd));
    }

    method RestartDiscovery(rnd: Entropy)
      modifies this
      ensures View() == Dhcp6.RestartDiscovery(old(View()), rnd) && start == old(start)
    {
      hide Executed, Execute, Dhcp6.Begin;
      m := m.(resume := None);
      Cancel(TimerRenew);
      Cancel(TimerRebind);
      if m.lease.None? {
        Cancel(TimerExpire);
      }
      Begin(rnd);
    }

    method ArmDeadline(now: Instant, t: TimerID, at: Option<Instant>)
      requires At(now)
      modifies this
      ensures View() == Dhcp6.ArmDeadline(old(View()), t, at) && start == old(start)
    {
      hide Executed, Execute, Emit;
      if at.None? {
        Cancel(t);
        return;
      }
      var d := at.value - now;
      if d < 0 {
        d := 0;
      }
      Set(t, d);
    }

    method ArmExpiry(now: Instant)
      requires At(now)
      modifies this
      ensures View() == Dhcp6.ArmExpiry(old(View())) && start == old(start)
    {
      hide Executed, Execute, Dhcp6.ArmDeadline, Lease6.Deadlines, Lease6.NextEnd;
      var at := m.Held().Deadlines().expire;
      var next := ComputeNextEnd(m.Held());
      if next.Some? && (at.None? || next.value < at.value) {
        at := next;
      }
      ArmDeadline(now, TimerExpire, at);
    }

    method ArmRenewal(now: Instant)
      requires At(now)
      modifies this
      ensures View() == Dhcp6.ArmRenewal(old(View())) && start == old(start)
    {
      hide Executed, Execute, Dhcp6.ArmDeadline, Lease6.Deadlines;
      var d := m.Held().Deadlines();
      ArmDeadline(now, TimerRenew, d.renew);
      ArmDeadline(now, TimerRebind, d.rebind);
    }

    method ArmOwedRefresh(rnd: Entropy)
      modifies this
      ensures View() == Dhcp6.ArmOwedRefresh(old(View()), rnd) && start == old(start)
    {
      if m.refreshOwed {
        m := m.(reconfDetour := true, pendingType := InformationRequest);
        Set(TimerDelay, RandomDelay(m.params.table.infMaxDelay, rnd));
      }
    }

    method AnnounceLease(prev: Option<Lease6>)
      modifies this
      ensures View() == Dhcp6.AnnounceLease(old(View()), prev) && start == old(start)
    {
      hide Executed, Execute, Lease6.Equal;
      var l := m.Held();
      if prev.None? {
        Tell(LeaseAcquired(l));
        return;
      }
      Tell(LeaseRenewed(l));
      if !prev.value.Equal(l) {
        Tell(LeaseChanged(l));
      }
    }

    method EnterBound(now: Instant, rnd: Entropy, l: Lease6)
      requires At(now)
      modifies this
      ensures View() == Dhcp6.EnterBound(old(View()), rnd, l) && start == old(start)
    {
      hide Executed, Execute, Emit, Keeps, Dhcp6.ArmRenewal, Dhcp6.ArmExpiry, Dhcp6.ArmOwedRefresh,
           Dhcp6.AnnounceHostname, Dhcp6.AnnounceLease, Adopt;
      var prev := m.lease;
      Cancel(TimerRetransmit);
      m := Adopt(m, l);
      AnnounceLease(prev);
      ArmRenewal(now);
      ArmExpiry(now);
      ArmOwedRefresh(rnd);
      AnnounceHostname(now, rnd);
    }

    method AbandonRefreshDelay()
      modifies this
      ensures View() == Dhcp6.AbandonRefreshDelay(old(View())) && start == old(start)
    {
      if !m.refreshOwed || m.state != Bound {
        return;
      }
      m := m.(reconfDetour := false);
      Cancel(TimerDelay);
    }

    method EnterRebinding(now: Instant, rnd: Entropy)
      requires At(now)
      modifies this
      ensures View() == Dhcp6.EnterRebinding(old(View()), rnd) && start == old(start)
    {
      hide Executed, Execute, Dhcp6.StartExchange, Dhcp6.AbandonRefreshDelay;
      AbandonRefreshDelay();
      m := m.(server := []);
      StartExchange(now, rnd, Rebind);
    }

    method EnterRenewing(now: Instant, rnd: Entropy)
      requires At(now)
      modifies this
      ensures View() == Dhcp6.EnterRenewing(old(View()), rnd) && start == old(start)
    {
      hide Executed, Execute, Dhcp6.StartExchange, Dhcp6.AbandonRefreshDelay, Dhcp6.EnterRebinding;
      AbandonRefreshDelay();
      if m.Held().server == [] {
        EnterRebinding(now, rnd);
        return;
      }
      m := m.(server := m.Held().server);
      StartExchange(now, rnd, Renew);
    }

    method AnnounceHostname(now: Instant, rnd: Entropy)
      requires At(now)
      modifies this
      ensures View() == Dhcp6.AnnounceHostname(old(View()), rnd) && start == old(start)
    {
      hide Executed, Execute, Dhcp6.StartExchange, Dhcp6.EnterRenewing;
      if m.hostname == "" || m.hostname == m.nameOnWire {
        return;
      }
      match m.state {
        case Bound =>
          if m.lease.Some? {
            EnterRenewing(now, rnd);
          }
        case Renewing => StartExchange(now, rnd, Renew);
        case Rebinding => StartExchange(now, rnd, Rebind);
        case _ =>
      }
    }

    method TakeHostname(now: Instant, rnd: Entropy, name: string)
      requires At(now)
      modifies this
      ensures View() == Dhcp6.TakeHostname(old(View()), rnd, name) && start == old(start)
    {
      hide Executed, Execute, Dhcp6.AnnounceHostname;
      if ValidHostname(name) {
        m := m.(hostname := name);
        AnnounceHostname(now, rnd);
      }
    }

    // ------------------------------------------------------------ expiry --

    method DropEnded(now: Instant)
      requires At(now) && m.lease.Some?
      modifies this
      ensures View() == Dhcp6.DropEnded(old(View())) && start == old(start)
    {
      hide Executed, Execute, Dhcp6.ArmExpiry, Lease6.WithoutEnded;
      var l, n := ComputeWithoutEnded(m.lease.value, now);
      if n == 0 {
        ArmExpiry(now);
        return;
      }
      m := m.(lease := Some(l));
      ArmExpiry(now);
      Tell(LeaseChanged(l));
    }

    method ExpireLease(now: Instant, rnd: Entropy)
      requires At(now)
      modifies this
      ensures View() == Dhcp6.ExpireLease(old(View()), rnd) && start == old(start)
    {
      hide Executed, Execute, Dhcp6.DropEnded, Dhcp6.LoseLease, Dhcp6.RestartDiscovery, AllEnded;
      if m.lease.None? {
        Cancel(TimerExpire);
        return;
      }
      if !AllEnded(m.lease.value, now) {
        DropEnded(now);
        return;
      }
      Cancel(TimerExpire);
      LoseLease(ReasonExpired);
      if m.state == Bound || m.state == Renewing || m.state == Rebinding {
        RestartDiscovery(rnd);
      }
    }

    // ----------------------------------------------------------- replies --

    method ApplyMaxRT(msg: Message)
      modifies this
      ensures View() == Dhcp6.ApplyMaxRT(old(View()), msg) && start == old(start)
    {
      var t := m.params.table;
      if msg.solMaxRT.Some? {
        t := t.ApplySolMaxRT(msg.solMaxRT.value);
      }
      if msg.infMaxRT.Some? {
        t := t.ApplyInfMaxRT(msg.infMaxRT.value);
      }
      m := m.(params := m.params.(table := t));
    }

    /** The first IA of the list that is this client's, if there is one. */
    static method ComputeReadFirst(ias: seq<IA>, iaid: nat, timed: bool) returns (r: IAResult)
      ensures r == ReadFirst(ias, iaid, timed)
    {
      hide ReadOne;
      r := NO_IA;
      var i := 0;
      while i < |ias|
        invariant 0 <= i <= |ias|
        invariant r == ReadFirst(ias[..i], iaid, timed)
      {
        assert ias[..i + 1][..i] == ias[..i];
        if !r.found && IsOurs(ias[i], iaid, timed) {
          r := ReadOne(ias[i]);
        }
        i := i + 1;
      }
      assert ias[..i] == ias;
    }

    method TakeAdvertise(now: Instant, rnd: Entropy, msg: Message)
      requires At(now)
      modifies this
      ensures View() == Dhcp6.TakeAdvertise(old(View()), rnd, msg) && start == old(start)
    {
      hide Executed, Execute, Dhcp6.ApplyMaxRT, Dhcp6.SelectAndRequest, ReadFirst, ReadTemporary, RefusalCode,
           Dhcp6.Refuse;
      ApplyMaxRT(msg);
      if msg.status.BadStatus? {
        return;
      }
      if TopCode(msg.status) != SUCCESS {
        Refuse(Some(TopCode(msg.status)));
        return;
      }
      var res := NO_IA;
      if msg.nas.Some? {
        res := ComputeReadFirst(msg.nas.value, m.params.iaid, true);
      }
      var code := RefusalCode(res.status, NoStatus);
      if code.Some? {
        Refuse(code);
        return;
      }
      if res.addrs == [] {
        return;
      }
      var temps := [];
      if m.params.temporary {
        temps := ReadTemporary(msg.tas, m.params.iaid, res.addrs);
      }
      m := m.(adverts := m.adverts + [Advert(msg.Server(), msg.preference, res.addrs, temps, res.t1, res.t2)]);
      if msg.preference == 255 {
        m := m.(windowDone := true);
        var _ := SelectAndRequest(now, rnd);
      } else if m.windowDone {
        var _ := SelectAndRequest(now, rnd);
      }
    }

    /** One pass over the advertisements for the best not tried. */
    static method ComputeBest(adverts: seq<Advert>, tried: seq<Duid>) returns (best: Option<nat>)
      ensures best == Best(adverts, tried)
    {
      best := None;
      var i := 0;
      while i < |adverts|
        invariant 0 <= i <= |adverts|
        invariant best == Best(adverts[..i], tried)
      {
        assert adverts[..i + 1][..i] == adverts[..i];
        if adverts[i].server !in tried {
          if best.None? || adverts[i].preference > adverts[best.value].preference {
            best := Some(i);
          }
        }
        i := i + 1;
      }
      assert adverts[..i] == adverts;
    }

    method SelectAndRequest(now: Instant, rnd: Entropy) returns (ok: bool)
      requires At(now)
      modifies this
      ensures (View(), ok) == Dhcp6.SelectAndRequest(old(View()), rnd) && start == old(start)
    {
      hide Executed, Execute, Dhcp6.StartExchange, Best;
      var best := ComputeBest(m.adverts, m.tried);
      if best.None? {
        return false;
      }
      var a := m.adverts[best.value];
      m := m.(server := a.server, pending := Lease6(m.params.iaid, a.addrs, a.temps, a.server, a.t1, a.t2, 0, 0, None));
      StartExchange(now, rnd, Request);
      return true;
    }

    method TryNext(now: Instant, rnd: Entropy)
      requires At(now)
      modifies this
      ensures View() == Dhcp6.TryNext(old(View()), rnd) && start == old(start)
    {
      hide Executed, Execute, Dhcp6.SelectAndRequest, Dhcp6.RestartDiscovery;
      m := m.(tried := m.tried + [m.server]);
      ghost var c := View();
      var ok := SelectAndRequest(now, rnd);
      if !ok {
        NothingSelected(c, rnd);
        RestartDiscovery(rnd);
      }
    }

    static lemma NothingSelected(c: Ctx, rnd: Entropy)
      ensures !Dhcp6.SelectAndRequest(c, rnd).1 ==> Dhcp6.SelectAndRequest(c, rnd).0 == c
    {
      hide Executed;
    }

    // ----------------------------------------- duplicate address detection --

    method StartChecking(addrs: seq<Addr>)
      modifies this
      ensures View() == Dhcp6.StartChecking(old(View()), addrs) && start == old(start)
    {
      hide Executed, Execute;
      m := m.(dadWait := addrs, dadBad := [], state := Checking);
      ghost var c := View();
      var i := 0;
      while i < |addrs|
        invariant 0 <= i <= |addrs|
        invariant View() == AskAll(c, addrs[..i]) && start == old(start)
      {
        assert addrs[..i + 1][..i] == addrs[..i];
        Tell(StartDAD(addrs[i]));
        i := i + 1;
      }
      assert addrs[..i] == addrs;
      Set(TimerDAD, m.params.DADTimeout());
    }

    /** The place of an address in the list of those waited for. */
    static method FindAddr(s: seq<Addr>, a: Addr) returns (k: Option<nat>)
      ensures k.None? <==> a !in s
      ensures k.Some? ==> k.value < |s| && s[k.value] == a && a !in s[..k.value]
    {
      var i := 0;
      while i < |s|
        invariant 0 <= i <= |s| && a !in s[..i]
      {
        if s[i] == a {
          return Some(i);
        }
        i := i + 1;
      }
      return None;
    }

    static lemma {:induction false} WithoutAt(s: seq<Addr>, a: Addr, k: nat)
      requires k < |s| && s[k] == a && a !in s[..k]
      ensures Without(s, a) == s[..k] + s[k + 1..]
    {
      if k > 0 {
        assert s[0] in s[..k];
        assert a !in s[1..][..k - 1] by {
          assert s[1..][..k - 1] == s[1..k];
          assert forall x :: x in s[1..k] ==> x in s[..k];
        }
        WithoutAt(s[1..], a, k - 1);
        assert s[..k] + s[k + 1..] == [s[0]] + (s[1..][..k - 1] + s[1..][k..]);
      } else {
        assert s[..0] + s[1..] == s[1..];
      }
    }

    method TakeDADResult(now: Instant, rnd: Entropy, a: Addr, duplicate: bool)
      requires At(now)
      modifies this
      ensures View() == Dhcp6.TakeDADResult(old(View()), rnd, a, duplicate) && start == old(start)
    {
      hide Executed, Execute, Dhcp6.Checked, Without;
      var k := FindAddr(m.dadWait, a);
      if k.None? {
        return;
      }
      WithoutAt(m.dadWait, a, k.value);
      m := m.(dadWait := m.dadWait[..k.value] + m.dadWait[k.value + 1..]);
      if duplicate {
        m := m.(dadBad := m.dadBad + [a]);
      }
      if m.dadWait != [] {
        return;
      }
      Cancel(TimerDAD);
      Checked(now, rnd);
    }

    method Checked(now: Instant, rnd: Entropy)
      requires At(now)
      modifies this
      ensures View() == Dhcp6.Checked(old(View()), rnd) && start == old(start)
    {
      hide Executed, Execute, Dhcp6.EnterBound, Dhcp6.DeclineSet, Temporary, Excluding, NotHeld, Addrs;
      var l, bad := m.pending, m.dadBad;
      if bad == [] {
        m := DropPending(m);
        EnterBound(now, rnd, l);
        return;
      }
      var temps := ComputeTemporary(l, bad);
      if |temps| == |bad| {
        m := m.(pending := l.(temps := Excluding(l.temps, temps)), dadWait := [], dadBad := []);
        DeclineSet(now, rnd, l.server, [], temps, BindKept);
        return;
      }
      var granted := Excluding(l.addrs, m.carried);
      var untried := NotHeld(l.temps, m.Held().temps);
      var held := m.lease.Some?;
      m := DropPending(m);
      if !held {
        Tell(Failed(ReasonConflict));
      }
      DeclineSet(now, rnd, l.server, Addrs(granted), untried, Restart);
    }

    /** Which of the addresses in use are temporary ones. */
    static method ComputeTemporary(l: Lease6, s: seq<Addr>) returns (r: seq<Addr>)
      ensures r == Temporary(l, s)
    {
      r := [];
      var i := 0;
      while i < |s|
        invariant 0 <= i <= |s|
        invariant r == Temporary(l, s[..i])
      {
        assert s[..i + 1][..i] == s[..i];
        if Has(l.temps, s[i]) {
          r := r + [s[i]];
        }
        i := i + 1;
      }
      assert s[..i] == s;
    }

    method RememberDeclined(addrs: seq<Addr>)
      modifies this
      ensures View() == old(View()).(m := old(m).(declined := Remember(old(m).declined, addrs)))
    {
      var i := 0;
      while i < |addrs|
        invariant 0 <= i <= |addrs|
        invariant View() == old(View()).(m := old(m).(declined := Remember(old(m).declined, addrs[..i])))
      {
        assert addrs[..i + 1][..i] == addrs[..i];
        if addrs[i] !in m.declined {
          m := m.(declined := m.declined + [addrs[i]]);
        }
        i := i + 1;
      }
      assert addrs[..i] == addrs;
    }

    method Continue(now: Instant, rnd: Entropy, k: Continuation)
      requires At(now)
      modifies this
      ensures View() == Dhcp6.Continue(old(View()), rnd, k) && start == old(start)
    {
      hide Executed, Execute, Dhcp6.RestartDiscovery, Dhcp6.EnterBound;
      match k {
        case Restart => RestartDiscovery(rnd);
        case BindKept =>
          var kept := m.pending;
          m := DropPending(m);
          EnterBound(now, rnd, kept);
      }
    }

    method DeclineSet(now: Instant, rnd: Entropy, server: Duid, addrs: seq<Addr>, temps: seq<Addr>, k: Continuation)
      requires At(now)
      modifies this
      ensures View() == Dhcp6.DeclineSet(old(View()), rnd, server, addrs, temps, k) && start == old(start)
    {
      hide Executed, Execute, Dhcp6.Continue, Dhcp6.StartExchange, Remember;
      if |addrs| + |temps| == 0 {
        Continue(now, rnd, k);
        return;
      }
      RememberDeclined(addrs);
      if server == [] {
        Continue(now, rnd, k);
        return;
      }
      m := m.(server := server, declining := addrs, decliningTA := temps, afterDecline := Some(k), state := Checking);
      Cancel(TimerDAD);
      StartExchange(now, rnd, Decline);
    }

    method FinishDecline(now: Instant, rnd: Entropy)
      requires At(now)
      modifies this
      ensures View() == Dhcp6.FinishDecline(old(View()), rnd) && start == old(start)
    {
      hide Executed, Execute, Dhcp6.Continue, Dhcp6.RestartDiscovery, Dhcp6.EndExchange;
      var next := m.afterDecline;
      EndExchange();
      if next.None? {
        RestartDiscovery(rnd);
        return;
      }
      Continue(now, rnd, next.value);
    }

    // ------------------------------------------------------------- reply --

    method TakeReply(now: Instant, rnd: Entropy, msg: Message)
      requires At(now)
      modifies this
      ensures View() == Dhcp6.TakeReply(old(View()), rnd, msg) && start == old(start)
    {
      hide Executed, Execute, Dhcp6.ApplyMaxRT, Dhcp6.TakeIA, Dhcp6.RestartDiscovery, Dhcp6.LoseLease, Dhcp6.Refuse;
      ApplyMaxRT(msg);
      var top := TopCode(msg.status);
      if msg.status.BadStatus? {
        return;
      }
      if top == UNSPEC_FAIL {
        Refuse(Some(top));
        return;
      }
      if top == NOT_ON_LINK {
        LoseLease(ReasonNak);
        Refuse(Some(top));
        RestartDiscovery(rnd);
        return;
      }
      TakeIA(now, rnd, msg);
    }

    method TakeIA(now: Instant, rnd: Entropy, msg: Message)
      requires At(now)
      modifies this
      ensures View() == Dhcp6.TakeIA(old(View()), rnd, msg) && start == old(start)
    {
      hide Executed, Execute, ReadFirst, RefusalCode, Dhcp6.RequestHeld, Dhcp6.TakeNothing, Dhcp6.TakeGrant;
      var res := NO_IA;
      if msg.nas.Some? {
        res := ComputeReadFirst(msg.nas.value, m.params.iaid, true);
      }
      var addrs := res.addrs;
      if res.status == Code(NO_ADDRS_AVAIL) {
        addrs := [];
      }
      var l := Lease6(m.params.iaid, addrs, [], msg.Server(), res.t1, res.t2, m.exchangeStart, msg.config, None);
      if IsRenewal(m) && res.status == Code(NO_BINDING) {
        RequestHeld(now, rnd, msg.Server());
      } else if l.addrs == [] {
        TakeNothing(now, rnd, RefusalCode(if res.found then res.status else NoStatus, msg.status));
      } else {
        TakeGrant(now, rnd, msg, l, res.zeroed);
      }
    }

    method RequestHeld(now: Instant, rnd: Entropy, server: Duid)
      requires At(now)
      modifies this
      ensures View() == Dhcp6.RequestHeld(old(View()), rnd, server) && start == old(start)
    {
      hide Executed, Execute, Dhcp6.StartExchange;
      var held := NO_LEASE.(iaid := m.params.iaid, addrs := m.Held().addrs, temps := m.Held().temps);
      m := m.(server := server, pending := held);
      StartExchange(now, rnd, Request);
    }

    method TakeNothing(now: Instant, rnd: Entropy, code: Option<nat>)
      requires At(now)
      modifies this
      ensures View() == Dhcp6.TakeNothing(old(View()), rnd, code) && start == old(start)
    {
      hide Executed, Execute, Dhcp6.TryNext, Dhcp6.RestartDiscovery, Dhcp6.Refuse;
      Refuse(code);
      if IsRenewal(m) {
        RestartDiscovery(rnd);
      } else {
        TryNext(now, rnd);
      }
    }

    method TakeGrant(now: Instant, rnd: Entropy, msg: Message, l: Lease6, zeroed: seq<Addr>)
      requires At(now)
      modifies this
      ensures View() == Dhcp6.TakeGrant(old(View()), rnd, msg, l, zeroed) && start == old(start)
    {
      hide Executed, Execute, Dhcp6.Settle, Dhcp6.NoteKey, RenewedAddrs, FromHeld, ReadTemporary, CarriedAddrs;
      var merged := l;
      var carried := [];
      if IsRenewal(m) {
        if m.lease.Some? {
          var h := m.lease.value;
          var addrs := MergeRenewal(h.addrs, h.start, l.addrs, zeroed, l.start, now);
          merged := l.(addrs := addrs, temps := CarriedTemps(h.temps, h.start, l.start, now));
          carried := CarriedAddrs(h.addrs, l.addrs, addrs);
        }
      } else if m.params.temporary {
        merged := l.(temps := ReadTemporary(msg.tas, m.params.iaid, l.addrs));
      }
      m := m.(server := l.server, pending := merged, carried := carried);
      Cancel(TimerRetransmit);
      m := m.(msgType := None);
      NoteKey(msg);
      Settle(now, rnd);
    }

    method Settle(now: Instant, rnd: Entropy)
      requires At(now)
      modifies this
      ensures View() == Dhcp6.Settle(old(View()), rnd) && start == old(start)
    {
      hide Executed, Execute, Dhcp6.EnterBound, Dhcp6.StartChecking, Unchecked;
      var asked := Unchecked(m, m.pending);
      if asked == [] {
        EnterBound(now, rnd, m.pending);
        return;
      }
      StartChecking(asked);
    }

    method ContinueFromResume(now: Instant, rnd: Entropy)
      requires At(now)
      modifies this
      ensures View() == Dhcp6.ContinueFromResume(old(View()), rnd) && start == old(start)
    {
      hide Executed, Execute, Dhcp6.RestartDiscovery, Dhcp6.StartChecking, Addrs;
      if m.resume.None? || !m.resume.value.Live() {
        RestartDiscovery(rnd);
        return;
      }
      var s := m.resume.value;
      m := m.(pending := Lease6(m.params.iaid, s.addrs, [], s.server, s.t1, s.t2, now, s.config, None),
              msgType := None);
      Cancel(TimerRetransmit);
      StartChecking(Addrs(s.addrs));
    }

    method Release6(now: Instant, rnd: Entropy)
      requires At(now)
      modifies this
      ensures View() == Dhcp6.Release6(old(View()), rnd) && start == old(start)
    {
      hide Executed, Execute, Emit, Dhcp6.Cancel, Dhcp6.Halt, Dhcp6.LoseLease, Dhcp6.StartExchange, Dhcp6.CancelAll,
           UsableAddrs, Addrs;
      if m.lease.None? {
        Halt(ReasonReleased);
        return;
      }
      var l := m.lease.value;
      m := m.(server := l.server);
      LoseLease(ReasonReleased);
      Cancel(TimerRenew);
      Cancel(TimerRebind);
      Cancel(TimerExpire);
      m := m.(releasing := Addrs(l.addrs), releasingTA := UsableAddrs(Addrs(l.temps)), state := Stopped);
      if l.server == [] {
        CancelAll();
        return;
      }
      StartExchange(now, rnd, Kind.Release);
    }

    method DeclineHeld(now: Instant, rnd: Entropy)
      requires At(now)
      modifies this
      ensures View() == Dhcp6.DeclineHeld(old(View()), rnd) && start == old(start)
    {
      hide Executed, Execute, Dhcp6.LoseLease, Dhcp6.DeclineSet, Addrs;
      var l := m.Held();
      LoseLease(ReasonConflict);
      DeclineSet(now, rnd, l.server, Addrs(l.addrs), [], Restart);
    }

    // ----------------------------------------------------- configuration --

    method TakeConfig(now: Instant, rnd: Entropy, msg: Message)
      requires At(now)
      modifies this
      ensures View() == Dhcp6.TakeConfig(old(View()), rnd, msg) && start == old(start)
    {
      hide Executed, Execute, RefreshTime, Dhcp6.NoteKey, Dhcp6.EndDetour, Dhcp6.AnnounceHostname;
      var d := RefreshTime(m.params, msg.refresh);
      m := m.(refresh := d, refreshOwed := false, msgType := None);
      Cancel(TimerRetransmit);
      NoteKey(msg);
      EndDetour();
      Tell(Configured(msg.config, d));
      if d == INFINITE {
        Cancel(TimerRefresh);
      } else {
        Set(TimerRefresh, d);
      }
      AnnounceHostname(now, rnd);
    }

    method EndDetour()
      modifies this
      ensures View() == Dhcp6.EndDetour(old(View())) && start == old(start)
    {
      m := m.(reconfServerID := []);
      if m.reconfDetour {
        m := m.(reconfDetour := false, state := Bound);
      }
    }

    // ------------------------------------------------------- reconfigure --

    method NoteKey(msg: Message)
      modifies this
      ensures View() == Dhcp6.NoteKey(old(View()), msg) && start == old(start)
    {
      if !msg.auth.RKAP? || !msg.auth.isKey || msg.Server() == [] {
        return;
      }
      var sid := msg.Server();
      var a := Authority(None, 0, false);
      if sid in m.reconf {
        a := m.reconf[sid];
      }
      m := m.(reconf := m.reconf[sid := a.(key := Some(msg.auth.key))]);
    }

    method Respond(now: Instant, rnd: Entropy, kind: Kind, sid: Duid)
      requires At(now)
      modifies this
      ensures View() == Dhcp6.Respond(old(View()), rnd, kind, sid) && start == old(start)
    {
      hide Executed, Execute, Dhcp6.EnterRenewing, Dhcp6.EnterRebinding, Dhcp6.StartExchangeFor;
      match kind {
        case Renew => EnterRenewing(now, rnd);
        case Rebind => EnterRebinding(now, rnd);
        case _ =>
          if m.state == Bound {
            m := m.(reconfDetour := true);
          }
          StartExchangeFor(now, rnd, InformationRequest, sid);
      }
    }

    method TakeReconfigure(now: Instant, rnd: Entropy, msg: Message, raw: Frame, dst: Option<Addr>)
      requires At(now)
      modifies this
      ensures View() == Dhcp6.TakeReconfigure(old(View()), rnd, msg, raw, dst) && start == old(start)
    {
      hide Executed, Execute, ReconfigureFault, Dhcp6.Respond;
      FaultlessIsKnown(m, msg, raw, dst);
      var fault := ReconfigureFault(m, msg, raw, dst);
      if fault.Some? {
        m := m.(counts := m.counts.(refused := m.counts.refused + multiset{fault.value}));
        return;
      }
      var sid := msg.Server();
      Respond(now, rnd, msg.reconfigure.kind, sid);
      m := m.(reconf := m.reconf[sid := m.reconf[sid].(replay := msg.auth.replay, seen := true)]);
      m := m.(counts := m.counts.(accepted := m.counts.accepted + 1));
    }

    static lemma FaultlessIsKnown(m: Client, msg: Message, raw: Frame, dst: Option<Addr>)
      ensures ReconfigureFault(m, msg, raw, dst).None? ==>
                msg.Server() in m.reconf && msg.reconfigure.AsksFor? && msg.auth.RKAP?
    {
    }

    // ------------------------------------------------------------- steps --

    method NoteActionFailed()
      modifies this
      ensures View() == Dhcp6.NoteActionFailed(old(View())) && start == old(start)
    {
      hide Executed, Execute, Dhcp6.Halt;
      m := m.(sendFailures := m.sendFailures + 1);
      if m.state == Renewing || m.state == Rebinding || m.state == Bound {
        return;
      }
      if m.sendFailures >= m.params.MaxSendFailures() {
        Tell(Failed(ReasonTransport));
        Halt(ReasonTransport);
      }
    }

    method ObserveRouter(now: Instant, rnd: Entropy, managed: bool, other: bool)
      requires At(now)
      modifies this
      ensures View() == Dhcp6.ObserveRouter(old(View()), rnd, managed, other) && start == old(start)
    {
      hide Executed, Execute, Dhcp6.StartExchange;
      if managed || !other || m.state != Selecting {
        return;
      }
      m := m.(adverts := [], windowDone := false);
      Cancel(TimerRetransmit);
      StartExchange(now, rnd, InformationRequest);
    }

    method StepStopped(now: Instant, rnd: Entropy, ev: Event)
      requires At(now)
      modifies this
      ensures View() == Dhcp6.StepStopped(old(View()), rnd, ev) && start == old(start)
    {
      hide Executed, Execute, Dhcp6.Begin, Dhcp6.EndExchange, Dhcp6.Resend;
      match ev {
        case Start => Begin(rnd);
        case Received(msg, _, _) =>
          if m.msgType == Some(Kind.Release) && Admits(m, msg) {
            EndExchange();
          }
        case TimerFired(t) =>
          if t == TimerRetransmit && m.msgType == Some(Kind.Release) {
            if m.sched.Exhausted(m.transmits, now - m.exchangeStart) {
              EndExchange();
            } else {
              Resend(rnd);
            }
          }
        case _ =>
      }
    }

    method StepInit(now: Instant, rnd: Entropy, ev: Event)
      requires At(now)
      modifies this
      ensures View() == Dhcp6.StepInit(old(View()), rnd, ev) && start == old(start)
    {
      hide Executed, Execute, Dhcp6.StartExchange, Dhcp6.Halt;
      match ev {
        case TimerFired(t) =>
          if t == TimerDelay {
            StartExchange(now, rnd, m.pendingType);
          }
        case Stop => Halt(ReasonStopped);
        case LinkDown => Halt(ReasonLinkDown);
        case Release => Halt(ReasonReleased);
        case _ =>
      }
    }

    method CollectionEnds(now: Instant, rnd: Entropy)
      requires At(now)
      modifies this
      ensures View() == Dhcp6.CollectionEnds(old(View()), rnd) && start == old(start)
    {
      hide Executed, Execute, Dhcp6.SelectAndRequest, Dhcp6.Resend;
      if !m.windowDone {
        m := m.(windowDone := true);
        if m.adverts != [] {
          var _ := SelectAndRequest(now, rnd);
          return;
        }
      }
      Resend(rnd);
    }

    method StepSelecting(now: Instant, rnd: Entropy, ev: Event)
      requires At(now)
      modifies this
      ensures View() == Dhcp6.StepSelecting(old(View()), rnd, ev) && start == old(start)
    {
      hide Executed, Execute, Dhcp6.TakeAdvertise, Dhcp6.CollectionEnds, Dhcp6.Halt;
      match ev {
        case Received(msg, _, _) =>
          if Admits(m, msg) && msg.value.kind == Advertise {
            TakeAdvertise(now, rnd, msg.value);
          }
        case TimerFired(t) =>
          if t == TimerRetransmit {
            CollectionEnds(now, rnd);
          }
        case Stop => Halt(ReasonStopped);
        case LinkDown => Halt(ReasonLinkDown);
        case Release => Halt(ReasonReleased);
        case _ =>
      }
    }

    method StepRequesting(now: Instant, rnd: Entropy, ev: Event)
      requires At(now)
      modifies this
      ensures View() == Dhcp6.StepRequesting(old(View()), rnd, ev) && start == old(start)
    {
      hide Executed, Execute, Dhcp6.TakeReply, Dhcp6.TryNext, Dhcp6.Resend, Dhcp6.Halt;
      match ev {
        case Received(msg, _, _) =>
          if Admits(m, msg) && msg.value.kind == Reply {
            TakeReply(now, rnd, msg.value);
          }
        case TimerFired(t) =>
          if t == TimerRetransmit {
            if m.sched.Exhausted(m.transmits, now - m.exchangeStart) {
              TryNext(now, rnd);
            } else {
              Resend(rnd);
            }
          }
        case Stop => Halt(ReasonStopped);
        case LinkDown => Halt(ReasonLinkDown);
        case Release => Halt(ReasonReleased);
        case _ =>
      }
    }

    method TakeConfirmation(now: Instant, rnd: Entropy, msg: Message)
      requires At(now)
      modifies this
      ensures View() == Dhcp6.TakeConfirmation(old(View()), rnd, msg) && start == old(start)
    {
      hide Executed, Execute, Dhcp6.ApplyMaxRT, Dhcp6.RestartDiscovery, Dhcp6.ContinueFromResume, Dhcp6.Refuse;
      ApplyMaxRT(msg);
      if msg.status.BadStatus? {
        return;
      }
      if TopCode(msg.status) == NOT_ON_LINK {
        Refuse(Some(NOT_ON_LINK));
        RestartDiscovery(rnd);
        return;
      }
      ContinueFromResume(now, rnd);
    }

    method StepConfirming(now: Instant, rnd: Entropy, ev: Event)
      requires At(now)
      modifies this
      ensures View() == Dhcp6.StepConfirming(old(View()), rnd, ev) && start == old(start)
    {
      hide Executed, Execute, Dhcp6.TakeConfirmation, Dhcp6.ContinueFromResume, Dhcp6.Resend, Dhcp6.Halt;
      match ev {
        case Received(msg, _, _) =>
          if Admits(m, msg) && msg.value.kind == Reply {
            TakeConfirmation(now, rnd, msg.value);
          }
        case TimerFired(t) =>
          if t == TimerRetransmit {
            if m.sched.Exhausted(m.transmits, now - m.exchangeStart) {
              ContinueFromResume(now, rnd);
            } else {
              Resend(rnd);
            }
          }
        case Stop => Halt(ReasonStopped);
        case LinkDown => Halt(ReasonLinkDown);
        case Release => Halt(ReasonReleased);
        case _ =>
      }
    }

    method TakeInformation(now: Instant, rnd: Entropy, msg: Message)
      requires At(now)
      modifies this
      ensures View() == Dhcp6.TakeInformation(old(View()), rnd, msg) && start == old(start)
    {
      hide Executed, Execute, Dhcp6.ApplyMaxRT, Dhcp6.TakeConfig, Dhcp6.Refuse, RefusalCode;
      ApplyMaxRT(msg);
      if msg.status.BadStatus? {
        return;
      }
      var code := RefusalCode(msg.status, NoStatus);
      if code.Some? {
        Refuse(code);
        return;
      }
      TakeConfig(now, rnd, msg);
    }

    method StepInfoRequesting(now: Instant, rnd: Entropy, ev: Event)
      requires At(now)
      modifies this
      ensures View() == Dhcp6.StepInfoRequesting(old(View()), rnd, ev) && start == old(start)
    {
      hide Executed, Execute, Dhcp6.TakeInformation, Dhcp6.Resend, Dhcp6.StartExchange, Dhcp6.EnterRenewing,
           Dhcp6.EnterRebinding, Dhcp6.Halt;
      match ev {
        case Received(msg, _, _) =>
          if Admits(m, msg) && msg.value.kind == Reply {
            TakeInformation(now, rnd, msg.value);
          }
        case TimerFired(t) =>
          match t {
            case TimerRetransmit => Resend(rnd);
            case TimerRefresh =>
              m := m.(pendingType := InformationRequest);
              Set(TimerDelay, RandomDelay(m.params.table.infMaxDelay, rnd));
            case TimerDelay => StartExchange(now, rnd, InformationRequest);
            case TimerRenew =>
              if m.lease.Some? {
                m := m.(reconfDetour := false);
                EnterRenewing(now, rnd);
              }
            case TimerRebind =>
              if m.lease.Some? {
                m := m.(reconfDetour := false);
                EnterRebinding(now, rnd);
              }
            case _ =>
          }
        case Stop => Halt(ReasonStopped);
        case LinkDown => Halt(ReasonLinkDown);
        case Release => Halt(ReasonReleased);
        case _ =>
      }
    }

    method StepChecking(now: Instant, rnd: Entropy, ev: Event)
      requires At(now)
      modifies this
      ensures View() == Dhcp6.StepChecking(old(View()), rnd, ev) && start == old(start)
    {
      hide Executed, Execute, Dhcp6.TakeDADResult, Dhcp6.RestartDiscovery, Dhcp6.FinishDecline, Dhcp6.Resend,
           Dhcp6.Halt;
      match ev {
        case DADResult(a, duplicate) => TakeDADResult(now, rnd, a, duplicate);
        case TimerFired(t) =>
          if t == TimerDAD {
            Cancel(TimerDAD);
            Tell(Failed(ReasonDADIncomplete));
            m := DropPending(m);
            RestartDiscovery(rnd);
          } else if t == TimerRetransmit && m.msgType == Some(Decline) {
            if m.sched.Exhausted(m.transmits, now - m.exchangeStart) {
              FinishDecline(now, rnd);
            } else {
              Resend(rnd);
            }
          }
        case Received(msg, _, _) =>
          if m.msgType == Some(Decline) && Admits(m, msg) && msg.value.kind == Reply {
            FinishDecline(now, rnd);
          }
        case AddressLost =>
          m := DropPending(m);
          RestartDiscovery(rnd);
        case Stop => Halt(ReasonStopped);
        case LinkDown => Halt(ReasonLinkDown);
        case Release => Halt(ReasonReleased);
        case _ =>
      }
    }

    method StepBound(now: Instant, rnd: Entropy, ev: Event)
      requires At(now)
      modifies this
      ensures View() == Dhcp6.StepBound(old(View()), rnd, ev) && start == old(start)
    {
      hide Executed, Execute, Dhcp6.EnterRenewing, Dhcp6.EnterRebinding, Dhcp6.StartExchange, Dhcp6.DeclineHeld,
           Dhcp6.Release6, Dhcp6.Halt;
      match ev {
        case TimerFired(t) =>
          match t {
            case TimerRenew => EnterRenewing(now, rnd);
            case TimerRebind => EnterRebinding(now, rnd);
            case TimerRefresh =>
              m := m.(refreshOwed := true, reconfDetour := true, pendingType := InformationRequest);
              Set(TimerDelay, RandomDelay(m.params.table.infMaxDelay, rnd));
            case TimerDelay => StartExchange(now, rnd, InformationRequest);
            case _ =>
          }
        case AddressLost => DeclineHeld(now, rnd);
        case DADResult(_, duplicate) =>
          if duplicate {
            DeclineHeld(now, rnd);
          }
        case Release => Release6(now, rnd);
        case Stop => Halt(ReasonStopped);
        case LinkDown => Halt(ReasonLinkDown);
        case _ =>
      }
    }

    method StepRenewal(now: Instant, rnd: Entropy, ev: Event)
      requires At(now)
      modifies this
      ensures View() == Dhcp6.StepRenewal(old(View()), rnd, ev) && start == old(start)
    {
      hide Executed, Execute, Dhcp6.TakeReply, Dhcp6.Resend, Dhcp6.EnterRebinding, Dhcp6.DeclineHeld, Dhcp6.Release6,
           Dhcp6.Halt;
      match ev {
        case Received(msg, _, _) =>
          if Admits(m, msg) && msg.value.kind == Reply {
            TakeReply(now, rnd, msg.value);
          }
        case TimerFired(t) =>
          if t == TimerRetransmit {
            Resend(rnd);
          } else if t == TimerRebind && m.state == Renewing {
            EnterRebinding(now, rnd);
          }
        case AddressLost => DeclineHeld(now, rnd);
        case Release => Release6(now, rnd);
        case Stop => Halt(ReasonStopped);
        case LinkDown => Halt(ReasonLinkDown);
        case _ =>
      }
    }
  }
}
