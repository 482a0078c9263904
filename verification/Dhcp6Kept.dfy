/** What becomes of a lease some temporary address of which is in use: the rest
    of it is bound as it stands, and whether that is safe. */
module Dhcp6Kept {
  import opened Clock
  import opened Lease
  import opened Lease6
  import opened Dhcp6
  import opened Dhcp6Invariant
  import opened Dhcp6Steps
  import opened Dhcp6Runs
  import opened Dhcp6Unchecked
  import Backoff6

  /** How an address comes to be listed twice: it is held as temporary, and a
      renewal grants it as stable. */
  lemma SwapListsTwice(m: Client, msg: Message, l: Lease6, zeroed: seq<Addr>, now: Instant, b: Addr6)
    requires IsRenewal(m) && m.lease.Some? && Has(l.addrs, b.addr)
    requires b in m.lease.value.temps && !Ended(m.lease.value.start, b, now)
    ensures
      var merged := Merged(m, msg, l, zeroed, now);
      Has(merged.addrs, b.addr) && Has(merged.temps, b.addr)
  {
    hide FromHeld, RenewedAddrs;
    var h := m.lease.value;
    MergeNames(h.addrs, h.start, l.addrs, zeroed, l.start, now, b.addr);
    CarriedStays(h.temps, h.start, l.start, now, b);
  }

  lemma {:induction false} CarriedStays(temps: seq<Addr6>, oldStart: Instant, newStart: Instant, now: Instant, b: Addr6)
    requires b in temps && !Ended(oldStart, b, now)
    ensures Has(CarriedTemps(temps, oldStart, newStart, now), b.addr)
  {
    var n := |temps| - 1;
    assert temps == temps[..n] + [temps[n]];
    var before, one := CarriedTemps(temps[..n], oldStart, newStart, now),
                       Renewed(temps[n], oldStart, [], [], newStart, now);
    HasEither(before, one, b.addr);
    if b in temps[..n] {
      CarriedStays(temps[..n], oldStart, newStart, now, b);
    } else {
      assert one[0].addr == b.addr;
    }
  }

  /** Only the temporary addresses among those in use are taken out, so one in
      use stays exactly when it is listed as stable too. */
  lemma KeptInUse(l: Lease6, bad: seq<Addr>)
    requires |Temporary(l, bad)| == |bad|
    ensures
      var rest := l.(temps := Excluding(l.temps, Temporary(l, bad)));
      (exists a :: a in bad && (Has(rest.addrs, a) || Has(rest.temps, a))) <==> exists a :: a in bad && Has(l.addrs, a)
  {
    hide Temporary, Excluding;
    AllTemporary(l, bad);
    var temps := Excluding(l.temps, bad);
    forall i | 0 <= i < |temps| ensures temps[i].addr !in bad {
      assert temps[i] in temps;
    }
  }

  // ---------------------------------------------------------- the last answer --

  /** The addresses found in use, the one just answered about included. */
  function InUse(m: Client, ev: Event): seq<Addr>
    requires ev.DADResult?
  {
    if ev.duplicate then m.dadBad + [ev.addr] else m.dadBad
  }

  /** The event is the answer to the one check still open, and what it leaves
      in use is all temporary: the branch that keeps the rest of the lease. */
  predicate KeepsRest(m: Client, ev: Event) {
    && m.state == Checking && ev.DADResult? && m.dadWait == [ev.addr]
    && InUse(m, ev) != [] && |Temporary(m.pending, InUse(m, ev))| == |InUse(m, ev)| && m.pending.server != []
  }

  /** The event ends a Decline in flight: its answer, or the last wait for one. */
  predicate EndsDecline(m: Client, now: Instant, ev: Event) {
    && m.state == Checking && m.msgType == Some(Decline)
    && ((ev.Received? && Admits(m, ev.msg) && ev.msg.value.kind == Reply)
        || (ev == TimerFired(TimerRetransmit) && m.sched.Exhausted(m.transmits, now - m.exchangeStart)))
  }

  /** The Decline is in flight, and the rest of the lease waits for its end. */
  predicate Waits(m: Client) {
    m.state == Checking && m.msgType == Some(Decline) && m.afterDecline == Some(BindKept) && m.dadWait == []
  }

  /** The step that takes the last answer: the rest of the lease waits for the
      Decline to end, and nothing has been announced. */
  lemma LastAnswer(w: World, i: Input)
    requires KeepsRest(w.m, i.ev)
    ensures
      var r, l, e := Next(w, i), w.m.pending, Answered(w.e, i.ev.addr, i.ev.duplicate);
      && Waits(r.m) && r.m.pending == l.(temps := Excluding(l.temps, InUse(w.m, i.ev)))
      && r.e.gated == w.e.gated && r.e.vouched == e.vouched && r.e.moved == e.moved
  {
    hide Executed, TakeDADResult, Temporary, Excluding;
    var c := Begun(w.m, Deliver(w.m, w.e, i.now, i.ev));
    KeepsRestOf(c, i.rnd, i.ev);
    DeliverAnswers(w.m, w.e, i.now, i.ev);
    assert StepBody(c, i.rnd, i.ev) == TakeDADResult(c, i.rnd, i.ev.addr, i.ev.duplicate);
  }

  lemma DeliverAnswers(m: Client, e: Env, now: Instant, ev: Event)
    requires ev.DADResult?
    ensures
      var d, f := Deliver(m, e, now, ev), Answered(e, ev.addr, ev.duplicate);
      d.gated == e.gated && d.vouched == f.vouched && d.moved == f.moved
  {
  }

  /** Nothing is announced, and no check begun. */
  predicate Hushed(c: Ctx, r: Ctx) {
    r.env().gated == c.env().gated && r.env().vouched == c.env().vouched && r.env().moved == c.env().moved
  }

  lemma KeepsRestOf(c: Ctx, rnd: Entropy, ev: Event)
    requires KeepsRest(c.m, ev)
    ensures
      var r, l := TakeDADResult(c, rnd, ev.addr, ev.duplicate), c.m.pending;
      Waits(r.m) && r.m.pending == l.(temps := Excluding(l.temps, InUse(c.m, ev))) && Hushed(c, r)
  {
    hide Executed, Temporary, Excluding, DeclineSet, EnterBound;
    var a, bad, l := ev.addr, InUse(c.m, ev), c.m.pending;
    assert Without([a], a) == [];
    AllTemporary(l, bad);
    var d := Cancel(c.(m := c.m.(dadWait := [], dadBad := bad)), TimerDAD);
    var rest := l.(temps := Excluding(l.temps, bad));
    DeclinesTemporary(d.(m := d.m.(pending := rest, dadWait := [], dadBad := [])), rnd, l.server, bad);
  }

  lemma DeclinesTemporary(c: Ctx, rnd: Entropy, server: Duid, temps: seq<Addr>)
    requires server != [] && temps != [] && c.m.dadWait == []
    ensures
      var r := DeclineSet(c, rnd, server, [], temps, BindKept);
      Waits(r.m) && r.m.pending == c.m.pending && Hushed(c, r)
  {
    hide Executed, StartExchangeFor, Opened;
    var d := c.(m := c.m.(declined := Remember(c.m.declined, [])));
    var m := d.m.(server := server, declining := [], decliningTA := temps, afterDecline := Some(BindKept),
                  state := Checking);
    var x := Cancel(d.(m := m), TimerDAD);
    OpenedFacts(x.m, x.now(), rnd, Decline, []);
    StartExchangeAside(x, rnd, Decline, []);
  }

  lemma DeclineEnds(w: World, j: Input)
    requires Inv(w.m, w.e) && EndsDecline(w.m, j.now, j.ev) && Waits(w.m)
    ensures !Next(w, j).e.gated <==> !w.e.gated || Tainted(w.e, w.m.pending)
  {
    hide Executed, FinishDecline, Resend, Admits, ReconfigureFault, Tainted, Fit;
    var c := Begun(w.m, Deliver(w.m, w.e, j.now, j.ev));
    WaitingIsFit(w.m, w.e);
    TaintedAlike(w.e, c.env(), w.m.pending);
    FinishTells(c, w.e, j.rnd);
  }

  lemma WaitingIsFit(m: Client, e: Env)
    requires Inv(m, e) && Waits(m)
    ensures FitHere(m, e, m.pending)
  {
    hide Fit, Core;
  }

  lemma TaintedAlike(e: Env, f: Env, l: Lease6)
    requires f.vouched == e.vouched && f.moved == e.moved
    ensures Tainted(f, l) <==> Tainted(e, l)
  {
    hide Lease6.Lists;
    forall a ensures e.Loose(a) <==> f.Loose(a) {
    }
  }

  lemma FinishTells(c: Ctx, e: Env, rnd: Entropy)
    requires c.m.afterDecline == Some(BindKept) && FitHere(c.m, e, c.m.pending)
    requires c.env().vouched == e.vouched && c.env().moved == e.moved
    ensures !FinishDecline(c, rnd).env().gated <==> !c.env().gated || Tainted(c.env(), c.m.pending)
  {
    hide Executed, FinishDecline, Tainted, Vouches;
    KeptLeaseGate(c, rnd);
    FitHasAddress(c.m, e, c.m.pending);
    TrustsAlike(e, c.env(), c.m.pending);
    TaintedIff(c.env(), c.m.pending);
  }

  // ------------------------------------------------------- while it waits --

  /** Nothing that leaves the Decline in flight touches what waits for it. */
  lemma WaitsOn(c: Ctx, rnd: Entropy, ev: Event)
    requires Waits(c.m) && Waits(StepBody(c, rnd, ev).m)
    ensures StepBody(c, rnd, ev).m.pending == c.m.pending
  {
    hide Executed, RestartDiscovery, FinishDecline, Resend, Halt, ExpireLease, TakeReconfigure, Admits;
    match ev {
      case RouterAdvert(_, _) =>
      case SetHostname(_) =>
      case ActionFailed(_) => FailureWaits(c);
      case TimerFired(t) =>
        if t == TimerExpire {
          ExpiryWaits(c, rnd);
        } else {
          TimerWaits(c, rnd, t);
        }
      case Received(_, _, _) =>
        if IsReconfigure(ev) {
          ReconfigureWaits(c, rnd, ev);
        } else {
          EndsWaiting(c, rnd);
        }
      case AddressLost => RestartEndsWaiting(c.(m := DropPending(c.m)), rnd);
      case Stop => HaltEndsWaiting(c, ReasonStopped);
      case LinkDown => HaltEndsWaiting(c, ReasonLinkDown);
      case Release => HaltEndsWaiting(c, ReasonReleased);
      case _ =>
    }
  }

  lemma TimerWaits(c: Ctx, rnd: Entropy, t: TimerID)
    requires t != TimerExpire && Waits(c.m) && Waits(StepChecking(c, rnd, TimerFired(t)).m)
    ensures StepChecking(c, rnd, TimerFired(t)).m.pending == c.m.pending
  {
    hide Executed, RestartDiscovery, FinishDecline, Transmit, Backoff6.Retransmit.Next;
    match t {
      case TimerDAD =>
        var d := Emit(Cancel(c, TimerDAD), Failed(ReasonDADIncomplete));
        RestartEndsWaiting(d.(m := DropPending(d.m)), rnd);
      case TimerRetransmit =>
        EndsWaiting(c, rnd);
        TransmitAside(c.(m := c.m.(rt := c.m.sched.Next(c.m.rt, rnd))));
      case _ =>
    }
  }

  lemma ExpiryWaits(c: Ctx, rnd: Entropy)
    requires Waits(c.m)
    ensures ExpireLease(c, rnd).m.pending == c.m.pending
  {
    hide Executed, AllEnded, DropEnded, RestartDiscovery;
    if c.m.lease.Some? {
      DropWaits(c);
    }
  }

  lemma DropWaits(c: Ctx)
    requires c.m.lease.Some?
    ensures DropEnded(c).m.pending == c.m.pending
  {
    hide Executed, ArmExpiry, Vouches, Lease6.WithoutEnded;
  }

  lemma ReconfigureWaits(c: Ctx, rnd: Entropy, ev: Event)
    requires Waits(c.m) && IsReconfigure(ev)
    ensures
      var r := TakeReconfigure(c, rnd, ev.msg.value, ev.raw, ev.dst);
      r.m.pending == c.m.pending
  {
    hide Executed, Respond;
  }

  lemma FailureWaits(c: Ctx)
    requires Waits(c.m) && Waits(NoteActionFailed(c).m)
    ensures NoteActionFailed(c).m.pending == c.m.pending
  {
    hide Executed, Halt;
    var d := c.(m := c.m.(sendFailures := c.m.sendFailures + 1));
    HaltEndsWaiting(Emit(d, Failed(ReasonTransport)), ReasonTransport);
  }

  lemma HaltEndsWaiting(c: Ctx, why: Reason)
    ensures !Waits(Halt(c, why).m)
  {
    hide Executed;
  }

  lemma RestartEndsWaiting(c: Ctx, rnd: Entropy)
    ensures !Waits(RestartDiscovery(c, rnd).m)
  {
    hide Executed, RandomDelay;
  }

  lemma EndsWaiting(c: Ctx, rnd: Entropy)
    ensures !Waits(FinishDecline(c, rnd).m)
  {
    hide Executed, RestartDiscovery, EnterBound;
    var d := EndExchange(c);
    RestartEndsWaiting(d, rnd);
    BoundEndsWaiting(d.(m := DropPending(d.m)), rnd, d.m.pending);
  }

  lemma BoundEndsWaiting(c: Ctx, rnd: Entropy, l: Lease6)
    requires c.m.afterDecline.None?
    ensures !Waits(EnterBound(c, rnd, l).m)
  {
    hide Executed, StartExchangeFor, ArmRenewal, ArmExpiry, Vouches, RandomDelay, WithAuthority, Opened, Lease6.Equal;
    var k := Cancel(c, TimerRetransmit);
    var a := k.(m := Adopt(k.m, l));
    KeptAnnounced(a, c.m.lease);
    ArmRenewalQuiet(AnnounceLease(a, c.m.lease));
    NamesEndNoWait(ArmOwedRefresh(ArmExpiry(ArmRenewal(AnnounceLease(a, c.m.lease))), rnd), rnd);
  }

  lemma NamesEndNoWait(c: Ctx, rnd: Entropy)
    requires c.m.state == Bound
    ensures !Waits(AnnounceHostname(c, rnd).m)
  {
    hide Executed, StartExchangeFor, Opened;
    var d := AbandonRefreshDelay(c);
    var x := AbandonRefreshDelay(d);
    StartExchangeAside(x.(m := x.m.(server := [])), rnd, Rebind, []);
    OpenedFacts(x.m.(server := []), x.now(), rnd, Rebind, []);
    StartExchangeAside(d.(m := d.m.(server := d.m.Held().server)), rnd, Renew, []);
    OpenedFacts(d.m.(server := d.m.Held().server), d.now(), rnd, Renew, []);
  }

  /** A run over which it waits throughout. */
  predicate WaitsThrough(w: World, ins: seq<Input>) { forall k :: 0 <= k <= |ins| ==> Waits(Play(w, ins[..k]).m) }

  lemma {:induction false} WaitKeeps(w: World, ins: seq<Input>)
    requires WaitsThrough(w, ins)
    ensures Waits(Play(w, ins).m) && Play(w, ins).m.pending == w.m.pending
  {
    hide Next, Waits;
    assert ins[..|ins|] == ins;
    if ins != [] {
      var n := |ins| - 1;
      forall k | 0 <= k <= n ensures Waits(Play(w, ins[..n][..k]).m) {
        assert ins[..n][..k] == ins[..k];
      }
      WaitKeeps(w, ins[..n]);
      WaitStep(Play(w, ins[..n]), ins[n]);
    }
  }

  lemma WaitStep(w: World, i: Input)
    requires Waits(w.m) && Waits(Next(w, i).m)
    ensures Next(w, i).m.pending == w.m.pending
  {
    hide Executed, StepBody, Waits;
    WaitsOn(Begun(w.m, Deliver(w.m, w.e, i.now, i.ev)), i.rnd, i.ev);
  }

  /** The last answer in, and the Decline over in its own time, the lease that
      is bound has an unchecked address announced with it exactly when what was
      kept of it names an address asked about while it was held and not found
      free since. */
  lemma KeptLeaseUnchecked(w: World, i: Input, waits: seq<Input>, j: Input)
    requires Inv(w.m, w.e) && KeepsRest(w.m, i.ev) && Admissible(w.e, i.now, i.ev)
    requires Legal(Next(w, i), waits)
    requires WaitsThrough(Next(w, i), waits)
    requires
      var v := Play(Next(w, i), waits);
      v.e.gated && EndsDecline(v.m, j.now, j.ev)
    ensures
      var v, l := Play(Next(w, i), waits), w.m.pending;
      !Next(v, j).e.gated <==> Tainted(v.e, l.(temps := Excluding(l.temps, InUse(w.m, i.ev))))
  {
    hide Next, Temporary, EndsDecline, Play, Excluding, Inv, Admissible, Tainted, Waits;
    var r := Next(w, i);
    LastAnswer(w, i);
    NextInv(w, i);
    PlayKeepsInv(r, waits);
    WaitKeeps(r, waits);
    DeclineEnds(Play(r, waits), j);
  }

  /** An address found in use that the server listed as stable as well stays,
      and taints what is kept unless a later word on it was that it is free. */
  lemma InUseTaints(w: World, i: Input, a: Addr)
    requires Inv(w.m, w.e) && KeepsRest(w.m, i.ev) && a in InUse(w.m, i.ev) && Has(w.m.pending.addrs, a)
    requires a !in Answered(w.e, i.ev.addr, i.ev.duplicate).vouched
    ensures Answered(w.e, i.ev.addr, i.ev.duplicate).Loose(a)
    ensures w.m.pending.(temps := Excluding(w.m.pending.temps, InUse(w.m, i.ev))).Lists(a)
  {
    hide Temporary, Excluding, Fit, ExpiryRule;
    AllTemporary(w.m.pending, InUse(w.m, i.ev));
    var l := w.m.pending;
    var n :| 0 <= n < |l.temps| && l.temps[n].addr == a;
  }

  /** Where nothing else of the lease is in doubt, what is kept is tainted exactly
      when some address found in use was listed as stable too. */
  lemma TaintIsInUse(w: World, i: Input)
    requires Inv(w.m, w.e) && KeepsRest(w.m, i.ev)
    requires forall a :: w.m.pending.Lists(a) ==>
                           (a in InUse(w.m, i.ev) <==> a !in Answered(w.e, i.ev.addr, i.ev.duplicate).vouched)
    ensures
      var l, bad := w.m.pending, InUse(w.m, i.ev);
      Tainted(Answered(w.e, i.ev.addr, i.ev.duplicate), l.(temps := Excluding(l.temps, bad))) <==>
      exists a :: a in bad && Has(l.addrs, a)
  {
    hide Temporary, Inv, Answered;
    var l, bad, e := w.m.pending, InUse(w.m, i.ev), Answered(w.e, i.ev.addr, i.ev.duplicate);
    var kept := l.(temps := Excluding(l.temps, bad));
    if exists a :: a in bad && Has(l.addrs, a) {
      var a :| a in bad && Has(l.addrs, a);
      InUseTaints(w, i, a);
    }
    if Tainted(e, kept) {
      var a :| kept.Lists(a) && e.Loose(a);
      TakenOut(l, bad, a);
      assert Has(l.addrs, a);
    }
  }

  lemma TakenOut(l: Lease6, bad: seq<Addr>, a: Addr)
    ensures Has(Excluding(l.temps, bad), a) ==> Has(l.temps, a) && a !in bad
  {
    hide Excluding;
    var kept := Excluding(l.temps, bad);
    if Has(kept, a) {
      var n :| 0 <= n < |kept| && kept[n].addr == a;
      assert kept[n] in kept;
      var j :| 0 <= j < |l.temps| && l.temps[j] == kept[n];
    }
  }
}
