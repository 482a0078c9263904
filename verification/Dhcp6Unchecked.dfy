/** The addresses a DHCPv6 client announces without their having passed a check:
    over every run, exactly those it asked about while it held them. */
module Dhcp6Unchecked {
  import opened Clock
  import opened Lease
  import opened Lease6
  import opened Dhcp6
  import opened Dhcp6Invariant
  import opened Dhcp6Steps
  import opened Dhcp6Runs

  // ---------------------------------------------------------- one step's effect --

  /** The last question about the address comes while the lease the caller was
      told of names it. */
  predicate AskedHeld(e: Env, acts: seq<Stamped>, a: Addr) {
    exists k :: 0 <= k < |acts| && AsksHeldAt(e, acts, k, a)
  }

  predicate AsksHeldAt(e: Env, acts: seq<Stamped>, k: nat, a: Addr)
    requires k < |acts|
  {
    && acts[k].act == StartDAD(a) && !AsksAbout(acts[k + 1..], a)
    && var held := Executed(e, acts[..k]).held; held.Some? && held.value.Lists(a)
  }

  lemma {:induction false} ExecutedMoved(e: Env, acts: seq<Stamped>, a: Addr)
    ensures a in Executed(e, acts).moved <==> if AsksAbout(acts, a) then AskedHeld(e, acts, a) else a in e.moved
  {
    hide AsksAbout, AskedHeld, Vouches, Trusts, Lease6.Lists;
    if acts == [] {
      AsksNothing(a);
    } else {
      ExecutedMoved(e, acts[..|acts| - 1], a);
      AsksLast(acts, a);
      AskedHeldLast(e, acts, a);
    }
  }

  lemma AskedHeldLast(e: Env, acts: seq<Stamped>, a: Addr)
    requires acts != []
    ensures
      var n := |acts| - 1;
      var held := Executed(e, acts[..n]).held;
      AskedHeld(e, acts, a) <==>
      if acts[n].act == StartDAD(a) then held.Some? && held.value.Lists(a) else AskedHeld(e, acts[..n], a)
  {
    hide Executed, Lease6.Lists;
    var n := |acts| - 1;
    if acts[n].act == StartDAD(a) {
      assert acts[n + 1..] == [];
      AsksNothing(a);
      assert AskedHeld(e, acts, a) <==> AsksHeldAt(e, acts, n, a) by {
        forall k | 0 <= k < n ensures !AsksHeldAt(e, acts, k, a) {
          assert acts[k + 1..][n - k - 1] == acts[n];
        }
      }
    } else {
      forall k | 0 <= k < n ensures AsksHeldAt(e, acts, k, a) <==> AsksHeldAt(e, acts[..n], k, a) {
        AsksLast(acts[k + 1..], a);
        assert acts[k + 1..][..n - k - 1] == acts[..n][k + 1..];
        assert acts[..n][..k] == acts[..k];
      }
    }
  }

  /** The step asks about the address, the last time while it is held. */
  predicate AsksWhileHeld(w: World, i: Input, a: Addr) {
    var c := Advance(w.m, w.e, i.now, i.rnd, i.ev);
    AskedHeld(c.start, c.out, a)
  }

  /** One step's effect on what is known of the checks. */
  lemma StepKnows(w: World, i: Input, a: Addr)
    ensures
      var r, e := Next(w, i), Deliver(w.m, w.e, i.now, i.ev);
      && (a in r.e.awaiting <==> a in e.awaiting || Asks(w, i, a))
      && (a in r.e.vouched <==> a in e.vouched && !Asks(w, i, a))
      && (a in r.e.moved <==> if Asks(w, i, a) then AsksWhileHeld(w, i, a) else a in w.e.moved)
  {
    hide StepBody, Executed, AskedHeld;
    var c := Advance(w.m, w.e, i.now, i.rnd, i.ev);
    StepChecks(w, i, a);
    ExecutedMoved(c.start, c.out, a);
  }

  // --------------------------------------------------------------- over runs --

  /** The step at k asks about the address, and none since has. */
  predicate LastAsked(w: World, ins: seq<Input>, k: nat, a: Addr) {
    && k < |ins| && Asks(Play(w, ins[..k]), ins[k], a)
    && forall j :: k < j < |ins| ==> !Asks(Play(w, ins[..j]), ins[j], a)
  }

  predicate Unheard(ins: seq<Input>, k: nat, a: Addr) { forall j :: k < j < |ins| ==> !HearsAbout(ins[j].ev, a) }

  /** The first word on the address since the step at k is that it is free. */
  predicate FoundFree(ins: seq<Input>, k: nat, a: Addr) {
    exists j :: k < j < |ins| && ins[j].ev == DADResult(a, false) && Unheard(ins[..j], k, a)
  }

  lemma UnheardLast(ins: seq<Input>, k: nat, a: Addr)
    requires k < |ins| - 1
    ensures
      var n := |ins| - 1;
      Unheard(ins, k, a) <==> Unheard(ins[..n], k, a) && !HearsAbout(ins[n].ev, a)
  {
    var n := |ins| - 1;
    forall j | k < j < n ensures ins[..n][j] == ins[j] {
    }
  }

  lemma FoundFreeLast(ins: seq<Input>, k: nat, a: Addr)
    requires k < |ins| - 1
    ensures
      var n := |ins| - 1;
      FoundFree(ins, k, a) <==>
      FoundFree(ins[..n], k, a) || (ins[n].ev == DADResult(a, false) && Unheard(ins[..n], k, a))
  {
    hide Unheard;
    var n := |ins| - 1;
    forall j | k < j < n ensures ins[..n][..j] == ins[..j] && ins[..n][j] == ins[j] {
    }
    if FoundFree(ins[..n], k, a) {
      var j :| k < j < n && ins[..n][j].ev == DADResult(a, false) && Unheard(ins[..n][..j], k, a);
      assert ins[j].ev == DADResult(a, false) && Unheard(ins[..j], k, a);
    }
    if FoundFree(ins, k, a) {
      var j :| k < j < |ins| && ins[j].ev == DADResult(a, false) && Unheard(ins[..j], k, a);
      if j < n {
        assert ins[..n][j].ev == DADResult(a, false) && Unheard(ins[..n][..j], k, a);
      }
    }
  }

  /** What is known of an address, from the last question about it on: whether
      it was held then, whether an answer is awaited, and whether that was
      that it is free. */
  lemma {:induction false} SinceAsked(w: World, ins: seq<Input>, k: nat, a: Addr)
    requires LastAsked(w, ins, k, a)
    ensures
      var r := Play(w, ins).e;
      && (a in r.moved <==> AsksWhileHeld(Play(w, ins[..k]), ins[k], a))
      && (a in r.awaiting <==> Unheard(ins, k, a)) && (a in r.vouched <==> FoundFree(ins, k, a))
  {
    hide Next, Asks, AsksWhileHeld, Unheard, FoundFree;
    var n := |ins| - 1;
    StepKnows(Play(w, ins[..n]), ins[n], a);
    if k == n {
      NothingSince(ins, a);
    } else {
      AskedBefore(w, ins, k, a);
      SinceAsked(w, ins[..n], k, a);
      assert ins[..n][..k] == ins[..k];
      UnheardLast(ins, k, a);
      FoundFreeLast(ins, k, a);
      AwaitedNotFound(ins[..n], k, a);
      DeliverHears(Play(w, ins[..n]), ins[n], a);
    }
  }

  lemma NothingSince(ins: seq<Input>, a: Addr)
    requires ins != []
    ensures Unheard(ins, |ins| - 1, a) && !FoundFree(ins, |ins| - 1, a)
  {
  }

  lemma AskedBefore(w: World, ins: seq<Input>, k: nat, a: Addr)
    requires LastAsked(w, ins, k, a) && k < |ins| - 1
    ensures LastAsked(w, ins[..|ins| - 1], k, a) && !Asks(Play(w, ins[..|ins| - 1]), ins[|ins| - 1], a)
  {
    hide Play, Asks;
    var n := |ins| - 1;
    forall j | 0 <= j < n ensures ins[..n][..j] == ins[..j] {
    }
  }

  /** A question is answered by the first word on the address. */
  lemma DeliverHears(w: World, i: Input, a: Addr)
    ensures
      var d, e := Deliver(w.m, w.e, i.now, i.ev), w.e;
      && (a in d.awaiting <==> a in e.awaiting && !HearsAbout(i.ev, a))
      && (a !in e.awaiting ==> (a in d.vouched <==> a in e.vouched))
      && (a in e.awaiting && a !in e.vouched ==> (a in d.vouched <==> i.ev == DADResult(a, false)))
      && d.moved == e.moved
  {
  }

  /** Where an address counts as moved, it was asked about. */
  lemma {:induction false} MovedWasAsked(w: World, ins: seq<Input>, a: Addr) returns (k: nat)
    requires a !in w.e.moved && a in Play(w, ins).e.moved
    ensures LastAsked(w, ins, k, a)
  {
    hide Next, Asks, AsksWhileHeld;
    var n := |ins| - 1;
    var v := Play(w, ins[..n]);
    StepKnows(v, ins[n], a);
    if Asks(v, ins[n], a) {
      k := n;
    } else {
      k := MovedWasAsked(w, ins[..n], a);
      forall j | 0 <= j < n ensures ins[..n][..j] == ins[..j] {
      }
    }
  }

  /** The step at k asked about the address while it was held, none since has
      asked again, and the answer, if any came, was not that it is free. */
  predicate Strays(w: World, ins: seq<Input>, k: nat, a: Addr) {
    LastAsked(w, ins, k, a) && AsksWhileHeld(Play(w, ins[..k]), ins[k], a) && !FoundFree(ins, k, a)
  }

  lemma LooseIff(w: World, ins: seq<Input>, a: Addr)
    requires a !in w.e.moved
    ensures Play(w, ins).e.Loose(a) <==> exists k: nat :: Strays(w, ins, k, a)
  {
    hide Play, LastAsked, AsksWhileHeld, FoundFree;
    if exists k: nat :: Strays(w, ins, k, a) {
      var k: nat :| Strays(w, ins, k, a);
      SinceAsked(w, ins, k, a);
    }
    if Play(w, ins).e.Loose(a) {
      var k := MovedWasAsked(w, ins, a);
      SinceAsked(w, ins, k, a);
      assert Strays(w, ins, k, a);
    }
  }

  /** Over every run, a held address has passed its check unless it strays: some
      step asked about it while it was held and no free answer came since. */
  lemma HeldUnlessStray(p: Params, start: Instant, ins: seq<Input>, a: Addr)
    requires p.Valid() && Legal(Initial(p, start), ins) && Holds(Play(Initial(p, start), ins).m, a)
    ensures a in Play(Initial(p, start), ins).e.vouched <==> !exists k: nat :: Strays(Initial(p, start), ins, k, a)
  {
    hide Play, Legal, StateRule, Strays;
    Reachable(p, start, ins);
    LooseIff(Initial(p, start), ins, a);
  }

  /** And one that does not stray was asked about, answered free, and not asked
      about since. */
  lemma HeldAddressWasAnswered(p: Params, start: Instant, ins: seq<Input>, a: Addr) returns (asked: nat, answered: nat)
    requires p.Valid() && Legal(Initial(p, start), ins) && Holds(Play(Initial(p, start), ins).m, a)
    requires !exists k: nat :: Strays(Initial(p, start), ins, k, a)
    ensures asked < answered < |ins| && ins[answered].ev == DADResult(a, false)
    ensures AskedAt(Initial(p, start), ins[..answered], asked, a)
    ensures forall j :: answered < j < |ins| ==> !Asks(Play(Initial(p, start), ins[..j]), ins[j], a)
  {
    hide Play, Legal, Asks, AskedAt, Strays, Holds;
    HeldUnlessStray(p, start, ins, a);
    asked, answered := VouchedWasAnswered(Initial(p, start), ins, a);
  }

  /** Where no server moves an address, none strays. */
  lemma NoneMovedNoneStrays(p: Params, start: Instant, ins: seq<Input>, a: Addr)
    requires p.Valid() && Legal(Initial(p, start), ins) && NoneMoved(Initial(p, start), ins)
    ensures !exists k: nat :: Strays(Initial(p, start), ins, k, a)
  {
    hide Play, Legal, StateRule, Strays, NoneMoved;
    Reachable(p, start, ins);
    ApartIff(Initial(p, start), ins);
    LooseIff(Initial(p, start), ins, a);
  }

  // ------------------------------------------------------ what is announced --

  function Announcement(a: Action): Option<Lease6> {
    match a
    case LeaseAcquired(l) => Some(l)
    case LeaseRenewed(l) => Some(l)
    case LeaseChanged(l) => Some(l)
    case _ => None
  }

  /** The action at k announces a lease that names the address. */
  predicate Names(acts: seq<Stamped>, k: nat, a: Addr)
    requires k < |acts|
  {
    Announcement(acts[k].act).Some? && Announcement(acts[k].act).value.Lists(a)
  }

  /** The step announces a lease that names the address. */
  predicate Announces(w: World, i: Input, a: Addr) {
    var acts := Advance(w.m, w.e, i.now, i.rnd, i.ev).out;
    exists k :: 0 <= k < |acts| && Names(acts, k, a)
  }

  lemma VouchesIs(e: Env, l: Lease6)
    ensures Vouches(e, l) == (AllIn(l.addrs, e.vouched) && AllIn(l.temps, e.vouched))
  {
  }

  lemma UnvouchedName(e: Env, l: Lease6)
    ensures !Vouches(e, l) <==> exists a :: l.Lists(a) && a !in e.vouched
  {
    if !AllIn(l.addrs, e.vouched) {
      var i :| 0 <= i < |l.addrs| && l.addrs[i].addr !in e.vouched;
      assert l.Lists(l.addrs[i].addr);
    }
    if !AllIn(l.temps, e.vouched) {
      var i :| 0 <= i < |l.temps| && l.temps[i].addr !in e.vouched;
      assert l.Lists(l.temps[i].addr);
    }
  }

  lemma TrustedName(e: Env, l: Lease6, a: Addr)
    requires Trusts(e, l) && l.Lists(a)
    ensures a in e.Trusted()
  {
  }

  /** One action opens the gate where it announces an address not vouched for. */
  lemma ExecuteGate(e: Env, act: Action)
    ensures
      var l := Announcement(act);
      Execute(e, act).gated == (e.gated && (l.Some? ==> Vouches(e, l.value)))
  {
    hide Vouches, Trusts, Lease6.Lists;
  }

  lemma {:induction false} ExecutedGate(e: Env, acts: seq<Stamped>)
    ensures
      !Executed(e, acts).gated <==>
      || !e.gated
      || exists k, a :: 0 <= k < |acts| && Names(acts, k, a) && a !in Executed(e, acts[..k]).vouched
  {
    hide Names, Execute;
    if acts != [] {
      var n := |acts| - 1;
      var v := Executed(e, acts[..n]);
      ExecutedGate(e, acts[..n]);
      ExecuteGate(v, acts[n].act);
      NamesLast(acts);
      forall k | 0 <= k < n ensures acts[..n][..k] == acts[..k] {
      }
      assert !Executed(e, acts).gated <==> !v.gated || exists a :: Names(acts, n, a) && a !in v.vouched by {
        UnvouchedNames(v, acts, n);
      }
      if exists k, a :: 0 <= k < n && Names(acts[..n], k, a) && a !in Executed(e, acts[..n][..k]).vouched {
        var k, a :| 0 <= k < n && Names(acts[..n], k, a) && a !in Executed(e, acts[..n][..k]).vouched;
        assert Names(acts, k, a) && a !in Executed(e, acts[..k]).vouched;
      }
      if exists k, a :: 0 <= k < |acts| && Names(acts, k, a) && a !in Executed(e, acts[..k]).vouched {
        var k, a :| 0 <= k < |acts| && Names(acts, k, a) && a !in Executed(e, acts[..k]).vouched;
        if k < n {
          assert Names(acts[..n], k, a) && a !in Executed(e, acts[..n][..k]).vouched;
        }
      }
    }
  }

  lemma NamesLast(acts: seq<Stamped>)
    requires acts != []
    ensures forall k, a :: 0 <= k < |acts| - 1 ==> (Names(acts[..|acts| - 1], k, a) <==> Names(acts, k, a))
  {
  }

  lemma UnvouchedNames(e: Env, acts: seq<Stamped>, n: nat)
    requires n < |acts|
    ensures
      var l := Announcement(acts[n].act);
      (exists a :: Names(acts, n, a) && a !in e.vouched) <==> l.Some? && !Vouches(e, l.value)
  {
    hide Vouches, Lease6.Lists;
    var l := Announcement(acts[n].act);
    if l.Some? {
      UnvouchedName(e, l.value);
      forall a ensures Names(acts, n, a) <==> l.value.Lists(a) {
      }
    }
  }

  /** Every announcement of a traced run of actions names only trusted
      addresses, and comes before any question. */
  lemma {:induction false} ExecutedTrace(e: Env, acts: seq<Stamped>, k: nat, a: Addr)
    requires Executed(e, acts).traced && k < |acts| && Names(acts, k, a)
    ensures
      var v := Executed(e, acts[..k]);
      a in v.Trusted() && !v.asks
  {
    hide Names, Trusts, Vouches;
    var n := |acts| - 1;
    if k == n {
      NamesTrusted(Executed(e, acts[..n]), acts, a);
    } else {
      NamesLast(acts);
      assert acts[..n][..k] == acts[..k];
      ExecutedTrace(e, acts[..n], k, a);
    }
  }

  lemma NamesTrusted(e: Env, acts: seq<Stamped>, a: Addr)
    requires acts != [] && Names(acts, |acts| - 1, a) && Execute(e, acts[|acts| - 1].act).traced
    ensures a in e.Trusted() && !e.asks
  {
    hide Vouches, Trusts;
    TrustedName(e, Announcement(acts[|acts| - 1].act).value, a);
  }

  lemma {:induction false} NotAskedYet(e: Env, acts: seq<Stamped>, a: Addr)
    ensures e.asks ==> Executed(e, acts).asks
    ensures !Executed(e, acts).asks ==> !AsksAbout(acts, a)
  {
    hide Vouches, Trusts, AsksAbout, Lease6.Lists;
    if acts == [] {
      AsksNothing(a);
    } else {
      NotAskedYet(e, acts[..|acts| - 1], a);
      AsksLast(acts, a);
    }
  }

  /** One step: an unchecked address is announced exactly when the lease it
      announces names one that was loose when the step began. */
  lemma StepGate(w: World, i: Input)
    requires Inv(w.m, w.e) && Admissible(w.e, i.now, i.ev)
    ensures
      var d := Deliver(w.m, w.e, i.now, i.ev);
      !Next(w, i).e.gated <==> !w.e.gated || exists a :: Announces(w, i, a) && d.Loose(a)
  {
    hide StepBody, Executed, Names, Inv, Asks, Admissible;
    var c, d := Advance(w.m, w.e, i.now, i.rnd, i.ev), Deliver(w.m, w.e, i.now, i.ev);
    NextInv(w, i);
    ExecutedGate(d, c.out);
    assert Executed(d, c.out).traced by { InvTraced(Next(w, i)); }
    forall k, a | 0 <= k < |c.out| && Names(c.out, k, a)
      ensures a !in Executed(d, c.out[..k]).vouched <==> d.Loose(a)
    {
      ExecutedTrace(d, c.out, k, a);
      NotAskedYet(d, c.out[..k], a);
      ExecutedChecks(d, c.out[..k], a);
      ExecutedMoved(d, c.out[..k], a);
    }
    if exists a :: Announces(w, i, a) && d.Loose(a) {
      var a :| Announces(w, i, a) && d.Loose(a);
      var k :| 0 <= k < |c.out| && Names(c.out, k, a);
      assert a !in Executed(d, c.out[..k]).vouched;
    }
    if exists k, a :: 0 <= k < |c.out| && Names(c.out, k, a) && a !in Executed(d, c.out[..k]).vouched {
      var k, a :| 0 <= k < |c.out| && Names(c.out, k, a) && a !in Executed(d, c.out[..k]).vouched;
      assert Announces(w, i, a) && d.Loose(a);
    }
  }

  lemma InvTraced(w: World)
    requires Inv(w.m, w.e)
    ensures w.e.traced
  {
  }

  /** The address strays into the last step: asked about at k, while it was
      held, not again before that step, and not found free since, nor by the
      answer the step begins with. */
  predicate StraysInto(w: World, ins: seq<Input>, k: nat, a: Addr) {
    && ins != [] && LastAsked(w, ins[..|ins| - 1], k, a) && AsksWhileHeld(Play(w, ins[..k]), ins[k], a)
    && !FoundFree(ins, k, a)
  }

  /** The step at n announces a lease naming an address that strays into it. */
  predicate Slips(w: World, ins: seq<Input>, n: nat, k: nat, a: Addr) {
    n < |ins| && Announces(Play(w, ins[..n]), ins[n], a) && StraysInto(w, ins[..n + 1], k, a)
  }

  /** Which addresses are loose when the last step begins. */
  lemma LooseAtLast(w: World, ins: seq<Input>, a: Addr)
    requires ins != [] && a !in w.e.moved
    ensures
      var n := |ins| - 1;
      var v := Play(w, ins[..n]);
      Deliver(v.m, v.e, ins[n].now, ins[n].ev).Loose(a) <==> exists k: nat :: StraysInto(w, ins, k, a)
  {
    hide Play, LastAsked, AsksWhileHeld, FoundFree, Unheard, Deliver;
    var n := |ins| - 1;
    var v := Play(w, ins[..n]);
    DeliverHears(v, ins[n], a);
    forall k: nat | LastAsked(w, ins[..n], k, a)
      ensures Deliver(v.m, v.e, ins[n].now, ins[n].ev).Loose(a) <==> StraysInto(w, ins, k, a)
    {
      AskedInside(w, ins[..n], k, a);
      assert ins[..n][..k] == ins[..k] && ins[..n][k] == ins[k];
      SinceAsked(w, ins[..n], k, a);
      FoundFreeLast(ins, k, a);
      AwaitedNotFound(ins[..n], k, a);
    }
    if a in v.e.moved {
      var k := MovedWasAsked(w, ins[..n], a);
    }
  }

  lemma AskedInside(w: World, ins: seq<Input>, k: nat, a: Addr)
    requires LastAsked(w, ins, k, a)
    ensures k < |ins|
  {
  }

  lemma AwaitedNotFound(ins: seq<Input>, k: nat, a: Addr)
    ensures Unheard(ins, k, a) ==> !FoundFree(ins, k, a)
  {
  }

  /** Over every run: a lease was announced with an address that had not passed
      its check exactly when some step announced one that strayed, that is one
      asked about while it was held and not found free since. */
  lemma UncheckedIff(p: Params, start: Instant, ins: seq<Input>)
    requires p.Valid() && Legal(Initial(p, start), ins)
    ensures
      var w := Initial(p, start);
      !Play(w, ins).e.gated <==> exists n: nat, k: nat, a :: Slips(w, ins, n, k, a)
  {
    hide Play, Legal, Slips;
    NewInv(p, start);
    UncheckedFrom(Initial(p, start), ins);
  }

  lemma {:induction false} UncheckedFrom(w: World, ins: seq<Input>)
    requires Inv(w.m, w.e) && Legal(w, ins) && w.e.gated && w.e.moved == {}
    ensures !Play(w, ins).e.gated <==> exists n: nat, k: nat, a :: Slips(w, ins, n, k, a)
  {
    hide Next, Inv, Admissible, Announces, StraysInto;
    if ins == [] {
    } else {
      var n := |ins| - 1;
      var v := Play(w, ins[..n]);
      LegalPrefix(w, ins, n);
      PlayKeepsInv(w, ins[..n]);
      UncheckedFrom(w, ins[..n]);
      StepGate(v, ins[n]);
      SlipsLast(w, ins);
    }
  }

  lemma SlipsLast(w: World, ins: seq<Input>)
    requires ins != [] && w.e.moved == {}
    ensures
      var last := |ins| - 1;
      var v := Play(w, ins[..last]);
      (exists n: nat, k: nat, a :: Slips(w, ins, n, k, a)) <==>
      || (exists n: nat, k: nat, a :: Slips(w, ins[..last], n, k, a))
      || exists a :: Announces(v, ins[last], a) && Deliver(v.m, v.e, ins[last].now, ins[last].ev).Loose(a)
  {
    hide Play, Announces, StraysInto, Deliver;
    var last := |ins| - 1;
    var v := Play(w, ins[..last]);
    assert ins[..last + 1] == ins;
    forall n: nat, k: nat, a | n < last ensures Slips(w, ins[..last], n, k, a) <==> Slips(w, ins, n, k, a) {
      SlipsPrefix(w, ins, n, k, a);
    }
    if exists n: nat, k: nat, a :: Slips(w, ins, n, k, a) {
      var n: nat, k: nat, a :| Slips(w, ins, n, k, a);
      if n == last {
        LooseAtLast(w, ins, a);
      }
    }
    if exists a :: Announces(v, ins[last], a) && Deliver(v.m, v.e, ins[last].now, ins[last].ev).Loose(a) {
      var a :| Announces(v, ins[last], a) && Deliver(v.m, v.e, ins[last].now, ins[last].ev).Loose(a);
      LooseAtLast(w, ins, a);
      var k: nat :| StraysInto(w, ins, k, a);
      assert Slips(w, ins, last, k, a);
    }
    if exists n: nat, k: nat, a :: Slips(w, ins[..last], n, k, a) {
      var n: nat, k: nat, a :| Slips(w, ins[..last], n, k, a);
      assert Slips(w, ins, n, k, a);
    }
  }

  lemma SlipsPrefix(w: World, ins: seq<Input>, n: nat, k: nat, a: Addr)
    requires n < |ins| - 1
    ensures Slips(w, ins[..|ins| - 1], n, k, a) <==> Slips(w, ins, n, k, a)
  {
    hide Play, Announces, StraysInto;
    var p := ins[..|ins| - 1];
    assert n < |p| ==> p[..n] == ins[..n] && p[..n + 1] == ins[..n + 1] && p[n] == ins[n];
  }

  // ---------------------------------------------------- branch by branch --

  /** Announcing a lease announces an unchecked address exactly when one of it
      has not been vouched for, whatever name is to be told next. */
  lemma EnterBoundGate(c: Ctx, rnd: Entropy, l: Lease6)
    ensures EnterBound(c, rnd, l).env().gated == (c.env().gated && Vouches(c.env(), l))
  {
    hide Executed, ArmRenewal, ArmExpiry, RandomDelay, Vouches, AnnounceLease, AnnounceHostname;
    var k := Cancel(c, TimerRetransmit);
    var a := k.(m := Adopt(k.m, l));
    KeptAnnounced(a, k.m.lease);
    ArmRenewalQuiet(AnnounceLease(a, k.m.lease));
    AnnouncedVouches(c.env(), a.env(), l, a.m.Held());
    HostnameAnnouncesNoLease(ArmOwedRefresh(ArmExpiry(ArmRenewal(AnnounceLease(a, k.m.lease))), rnd), rnd);
  }

  lemma KeptAnnounced(c: Ctx, prev: Option<Lease6>)
    requires c.m.lease.Some?
    ensures
      var r := AnnounceLease(c, prev);
      && r.m == c.m.(nextAction := r.m.nextAction)
      && r.env().gated == (c.env().gated && Vouches(c.env(), c.m.Held()))
  {
    hide Executed, Lease6.Equal;
  }

  lemma AnnouncedVouches(e: Env, f: Env, l: Lease6, r: Lease6)
    requires f.vouched == e.vouched && r.addrs == l.addrs && r.temps == l.temps
    ensures Vouches(f, r) <==> Vouches(e, l)
  {
  }

  lemma HostnameAnnouncesNoLease(c: Ctx, rnd: Entropy)
    ensures AnnounceHostname(c, rnd).env().gated == c.env().gated
  {
    hide Executed, StartExchangeFor;
    match c.m.state {
      case Bound =>
        var d := AbandonRefreshDelay(c);
        var x := AbandonRefreshDelay(d);
        StartExchangeAside(x.(m := x.m.(server := [])), rnd, Rebind, []);
        StartExchangeAside(d.(m := d.m.(server := d.m.Held().server)), rnd, Renew, []);
      case Renewing => StartExchangeAside(c, rnd, Renew, []);
      case Rebinding => StartExchangeAside(c, rnd, Rebind, []);
      case _ =>
    }
  }

  /** The end of a Decline that leaves a lease to be bound. */
  lemma KeptLeaseGate(c: Ctx, rnd: Entropy)
    requires c.m.afterDecline == Some(BindKept)
    ensures FinishDecline(c, rnd).env().gated == (c.env().gated && Vouches(c.env(), c.m.pending))
  {
    hide Executed, EnterBound, Vouches;
    var d := EndExchange(c);
    EnterBoundGate(d.(m := DropPending(d.m)), rnd, c.m.pending);
    AnnouncedVouches(c.env(), d.env(), c.m.pending, c.m.pending);
  }


  /** The lease names an address asked about while it was held and not found
      free since. */
  ghost predicate Tainted(e: Env, l: Lease6) { exists a :: l.Lists(a) && e.Loose(a) }

  lemma TaintedIff(e: Env, l: Lease6)
    requires Trusts(e, l)
    ensures Vouches(e, l) <==> !Tainted(e, l)
  {
    hide Vouches, Trusts, Lease6.Lists;
    UnvouchedName(e, l);
    forall a | l.Lists(a) ensures a in e.Trusted() {
      TrustedName(e, l, a);
    }
  }

  /** A grant with nothing to ask about is bound at once, and announces an
      unchecked address exactly when the lease is tainted. */
  lemma SettleTells(c: Ctx, rnd: Entropy)
    requires Sound(c.m, c.env()) && c.m.dadWait == [] && c.m.pending.addrs != [] && Unchecked(c.m, c.m.pending) == []
    ensures !Settle(c, rnd).env().gated <==> !c.env().gated || Tainted(c.env(), c.m.pending)
  {
    hide Executed, EnterBound, NotHeld, Vouches, Trusts, Tainted, Lease6.NextEnd;
    var p, h := c.m.pending, c.m.Held();
    AskedOrHeld(p.addrs, h.addrs, NotHeld(p.addrs, h.addrs), c.env().Trusted());
    AskedOrHeld(p.temps, h.temps, NotHeld(p.temps, h.temps), c.env().Trusted());
    CoveredTrusts(c.env(), p);
    EnterBoundGate(c, rnd, p);
    TaintedIff(c.env(), p);
  }

  lemma CoveredTrusts(e: Env, l: Lease6)
    requires Covered(l.addrs, [], e.Trusted()) && Covered(l.temps, [], e.Trusted())
    ensures Trusts(e, l)
  {
  }

  /** So is a lease all of whose checks were answered free. */
  lemma CheckedTells(c: Ctx, rnd: Entropy)
    requires PendingRule(c.m, c.env()) && c.m.dadWait == [] && c.m.dadBad == []
    ensures !Checked(c, rnd).env().gated <==> !c.env().gated || Tainted(c.env(), c.m.pending)
  {
    hide Executed, EnterBound, Vouches, Tainted;
    var d := c.(m := DropPending(c.m));
    EnterBoundGate(d, rnd, c.m.pending);
    TaintedIff(c.env(), c.m.pending);
  }

  /** So is what a Decline left of a lease, when it ends. */
  lemma FinishDeclineTells(c: Ctx, rnd: Entropy)
    requires c.m.afterDecline == Some(BindKept) && FitHere(c.m, c.env(), c.m.pending)
    ensures !FinishDecline(c, rnd).env().gated <==> !c.env().gated || Tainted(c.env(), c.m.pending)
  {
    hide Executed, FinishDecline, Vouches, Tainted;
    KeptLeaseGate(c, rnd);
    TaintedIff(c.env(), c.m.pending);
  }

  /** And a held lease that loses an ended binding. */
  lemma TrimTells(c: Ctx, rnd: Entropy)
    requires Core(c.m, c.env()) && c.m.lease.Some?
    requires
      var l := c.m.lease.value;
      exists b :: b in l.addrs && !Ended(l.start, b, c.now())
    ensures
      var l := c.m.lease.value;
      !ExpireLease(c, rnd).env().gated <==>
      || !c.env().gated
      || ((exists b :: b in l.Bindings() && Ended(l.start, b, c.now())) && Tainted(c.env(), l.WithoutEnded(c.now())))
  {
    hide Executed, ExpireLease, Lease6.WithoutEnded, Vouches, Trusts, Tainted, AllEnded;
    var l := c.m.lease.value;
    AllEndedIff(l, c.now());
    WithoutEndedFit(c.m, c.env(), l);
    FitHasAddress(c.m, c.env(), l.WithoutEnded(c.now()));
    TaintedIff(c.env(), l.WithoutEnded(c.now()));
    TrimGate(c, rnd);
    EndedIff(l, c.now());
  }

  lemma TrimGate(c: Ctx, rnd: Entropy)
    requires c.m.lease.Some? && !AllEnded(c.m.lease.value, c.now())
    ensures
      var l := c.m.lease.value;
      var k := l.WithoutEnded(c.now());
      ExpireLease(c, rnd).env().gated == (c.env().gated && (|k.Bindings()| == |l.Bindings()| || Vouches(c.env(), k)))
  {
    hide Executed, ArmExpiry, Vouches, Lease6.WithoutEnded, AllEnded;
    var k := c.m.lease.value.WithoutEnded(c.now());
    AnnouncedVouches(c.env(), ArmExpiry(c.(m := c.m.(lease := Some(k)))).env(), k, k);
  }

  lemma EndedIff(l: Lease6, now: Instant)
    ensures |l.WithoutEnded(now).Bindings()| <= |l.Bindings()|
    ensures
      |l.WithoutEnded(now).Bindings()| < |l.Bindings()| <==> exists b :: b in l.Bindings() && Ended(l.start, b, now)
  {
    hide Unended;
    UnendedShorter(l.start, l.addrs, now);
    UnendedShorter(l.start, l.temps, now);
    UnendedKeeps(l.start, l.addrs, now);
    UnendedKeeps(l.start, l.temps, now);
  }
}
