/** Whole runs of the DHCPv4 client: any entropy, any messages, any order of
    events, with timers that fire only when armed and due. */
module Dhcp4Runs {
  import opened Clock
  import opened Lease
  import opened Dhcp4
  import opened Dhcp4Invariant

  datatype Input = Input(now: Instant, rnd: Entropy, ev: Event)

  datatype World = World(m: Client, e: Env)

  function Initial(p: Params, now: Instant): World {
    World(New(p), Env(now, NO_TIMERS, None, now, true, 0, 0, [], [], []))
  }

  function Next(w: World, i: Input): World {
    var c := Advance(w.m, w.e, i.now, i.rnd, i.ev);
    World(c.m, c.env())
  }

  function Play(w: World, ins: seq<Input>): World {
    if ins == [] then w else Next(Play(w, ins[..|ins| - 1]), ins[|ins| - 1])
  }

  predicate Legal(w: World, ins: seq<Input>) {
    forall k :: 0 <= k < |ins| ==> Admissible(Play(w, ins[..k]).e, ins[k].now, ins[k].ev)
  }

  /** No timer fires late: nothing happens after a deadline before its timer has fired. */
  predicate OnTime(w: World, ins: seq<Input>) {
    forall k :: 0 <= k < |ins| ==> Prompt(Play(w, ins[..k]).e, ins[k].now)
  }

  lemma LegalPrefix(w: World, ins: seq<Input>, k: nat)
    requires Legal(w, ins) && k <= |ins|
    ensures Legal(w, ins[..k]) && (OnTime(w, ins) ==> OnTime(w, ins[..k]))
  {
    forall i | 0 <= i < k ensures ins[..k][..i] == ins[..i] {
    }
  }

  lemma {:induction false} PlayKeepsInv(w: World, ins: seq<Input>)
    requires Inv(w.m, w.e) && Legal(w, ins)
    ensures
      var r := Play(w, ins);
      Inv(r.m, r.e) && r.m.params == w.m.params && w.e.now <= r.e.now
  {
    hide Inv, Admissible, StepBody;
    if ins != [] {
      var k := |ins| - 1;
      LegalPrefix(w, ins, k);
      PlayKeepsInv(w, ins[..k]);
      var v := Play(w, ins[..k]);
      StepKeepsInv(v.m, v.e, ins[k].now, ins[k].rnd, ins[k].ev);
      NextFrame(v, ins[k]);
    }
  }

  lemma NextFrame(w: World, i: Input)
    requires Admissible(w.e, i.now, i.ev)
    ensures Next(w, i).m.params == w.m.params && Next(w, i).e.now == i.now && w.e.now <= i.now
  {
    hide StepBody, Executed;
    StepKeepsFrame(Begin(w.m, Deliver(w.e, i.now, i.ev)), i.rnd, i.ev);
  }

  lemma StepKeepsFrame(c: Ctx, rnd: Entropy, ev: Event)
    ensures
      var r := StepBody(c, rnd, ev);
      r.start == c.start && r.m.params == c.m.params
  {
    hide Executed, StepStopped, StepInit, StepSelecting, StepRequesting, StepRebooting, StepProbing, StepBound,
         StepRenewal, EnterRenewing;
  }

  /** With timers that fire on time, no lease is ever held past its end: at
      every moment the client is held to have a finite lease, that moment is no
      later than the lease's expiry, or than the moment it was taken where the
      server granted one already over. */
  lemma LeaseNeverOutlived(p: Params, start: Instant, ins: seq<Input>, now: Instant)
    requires p.Valid() && Legal(Initial(p, start), ins)
    requires Prompt(Play(Initial(p, start), ins).e, now)
    ensures
      var w := Play(Initial(p, start), ins);
      w.m.lease.Some? && !w.m.lease.value.Infinite() ==>
        w.e.held == w.m.lease && now <= Max(w.m.lease.value.Expire(), w.e.heldAt)
  {
    hide Play, Next, Legal, Lease.Deadlines;
    NewInv(p, start);
    PlayKeepsInv(Initial(p, start), ins);
    var w := Play(Initial(p, start), ins);
    assert w.m.lease.Some? ==> HeldRule(w.m, w.e);
    assert Prompt(w.e, now) ==> w.e.armed.At(TimerExpire).Some? ==> now <= w.e.armed.At(TimerExpire).value;
  }

  /** At every moment of every run the state says which timers run, and with
      them what the client holds: none stopped, one waiting, the check's while
      checking, the retransmission exactly while an answer is awaited, and the
      expiry always for a lease that ends. */
  lemma TimersFollowState(p: Params, start: Instant, ins: seq<Input>)
    requires p.Valid() && Legal(Initial(p, start), ins)
    ensures
      var w := Play(Initial(p, start), ins);
      var m, t := w.m, w.e.armed;
      match m.state
      case Stopped => t == NO_TIMERS && m.lease.None?
      case Init => (Only(w.e, TimerDesync) || Only(w.e, TimerRestart)) && m.lease.None?
      case Selecting => Exactly(w.e, TimerRetransmit) && m.lease.None?
      case Requesting => Exactly(w.e, TimerRetransmit) && m.lease.None?
      case Rebooting => Exactly(w.e, TimerRetransmit) && m.lease.None?
      case Probing => Exactly(w.e, TimerACD) && m.lease.None? && m.probing.Some?
      case _ =>
        && m.lease.Some? && ExpiryArmed(m.lease.value, w.e) && t.desync.None? && t.restart.None?
        && (t.retransmit.Some? <==> !m.state.Bound?)
        && Watching(m, w.e, m.lease.value.addr)
  {
    hide Play, Legal, Watching, ExpiryArmed, Sound;
    NewInv(p, start);
    PlayKeepsInv(Initial(p, start), ins);
  }

  // ------------------------------------------------- what the caller is told --

  /** The lease a caller holds after a list of reports, or None where some
      report contradicts the ones before it: a lease taken while one was held,
      or renewed, changed or lost while none was. */
  function Believes(told: seq<Action>): Option<Option<Lease>> {
    if told == [] then Some(None)
    else
      var before := Believes(told[..|told| - 1]);
      if before.None? then None
      else match told[|told| - 1]
        case LeaseAcquired(l, _) => if before.value.None? then Some(Some(l)) else None
        case LeaseRenewed(l) => if before.value.Some? then Some(Some(l)) else None
        case LeaseChanged(l) => if before.value.Some? then Some(Some(l)) else None
        case LeaseLost(_) => if before.value.Some? then Some(None) else None
        case _ => before
  }

  /** The mirror the environment keeps is what the reports say. */
  predicate Mirrors(e: Env) { e.coherent ==> Believes(e.told) == Some(e.held) }

  lemma ExecuteMirrors(e: Env, a: Action)
    requires Mirrors(e)
    ensures Mirrors(Execute(e, a))
    ensures Execute(e, a).coherent ==> e.coherent
  {
    assert (e.told + [a])[..|e.told|] == e.told;
  }

  lemma {:induction false} ExecutedMirrors(e: Env, acts: seq<Stamped>)
    requires Mirrors(e)
    ensures Mirrors(Executed(e, acts))
  {
    hide Execute, Mirrors;
    if acts != [] {
      ExecutedMirrors(e, acts[..|acts| - 1]);
      ExecuteMirrors(Executed(e, acts[..|acts| - 1]), acts[|acts| - 1].act);
    }
  }

  lemma {:induction false} PlayMirrors(w: World, ins: seq<Input>)
    requires Mirrors(w.e)
    ensures Mirrors(Play(w, ins).e)
  {
    hide StepBody, Mirrors, Executed;
    if ins != [] {
      var k := |ins| - 1;
      PlayMirrors(w, ins[..k]);
      var v := Play(w, ins[..k]);
      var c := Begin(v.m, Deliver(v.e, ins[k].now, ins[k].ev));
      DeliverMirrors(v.e, ins[k].now, ins[k].ev);
      StepKeepsFrame(c, ins[k].rnd, ins[k].ev);
      assert c.start == Deliver(v.e, ins[k].now, ins[k].ev);
      ExecutedMirrors(c.start, StepBody(c, ins[k].rnd, ins[k].ev).out);
    }
  }

  lemma DeliverMirrors(e: Env, now: Instant, ev: Event)
    requires Mirrors(e)
    ensures Mirrors(Deliver(e, now, ev))
  {
  }

  /** Over a whole run the caller is never told anything that contradicts what
      it was told before, and what it believes is the client's own lease:
      leases are taken and lost strictly in turn, and renewed only while held. */
  lemma CallerAgrees(p: Params, start: Instant, ins: seq<Input>)
    requires p.Valid() && Legal(Initial(p, start), ins)
    ensures
      var w := Play(Initial(p, start), ins);
      Believes(w.e.told) == Some(w.m.lease)
  {
    NewInv(p, start);
    PlayKeepsInv(Initial(p, start), ins);
    PlayMirrors(Initial(p, start), ins);
  }

  function Count(told: seq<Action>, acquired: bool): nat {
    if told == [] then 0
    else
      var last := told[|told| - 1];
      Count(told[..|told| - 1], acquired) + if (if acquired then last.LeaseAcquired? else last.LeaseLost?) then 1 else 0
  }

  /** A consistent report list balances: every lease lost was acquired before
      it, and at most one is outstanding, after any number of reports. */
  lemma {:induction false} BelievedBalances(told: seq<Action>)
    requires Believes(told).Some?
    ensures Count(told, true) == Count(told, false) + if Believes(told).value.Some? then 1 else 0
    ensures forall n :: 0 <= n <= |told| ==> Believes(told[..n]).Some?
  {
    if told != [] {
      var k := |told| - 1;
      BelievedBalances(told[..k]);
      forall n | 0 <= n <= |told| ensures Believes(told[..n]).Some? {
        if n <= k {
          assert told[..k][..n] == told[..n];
        } else {
          assert told[..n] == told;
        }
      }
    }
  }
}
