/** Whole runs of the DHCPv6 client: what holds at every moment, whatever the
    entropy, the messages and the order of events. */
module Dhcp6Runs {
  import opened Clock
  import opened Lease
  import opened Lease6
  import opened Dhcp6
  import opened Dhcp6Invariant
  import opened Dhcp6Steps
  import Backoff6

  datatype Input = Input(now: Instant, rnd: Entropy, ev: Event)

  datatype World = World(m: Client, e: Env)

  function Initial(p: Params, now: Instant): World {
    World(New(p), Untold(now))
  }

  function Next(w: World, i: Input): World {
    var c := Advance(w.m, w.e, i.now, i.rnd, i.ev);
    World(c.m, c.env())
  }

  function Play(w: World, ins: seq<Input>): World {
    if ins == [] then w else Next(Play(w, ins[..|ins| - 1]), ins[|ins| - 1])
  }

  predicate Legal(w: World, ins: seq<Input>) {
    forall k :: 0 <= k < |ins| ==> Admissible(Play(w, ins[..k]).e, ins[k].now, ins[k].ev)
  }

  /** No timer fires late: nothing happens after a deadline before its timer has fired. */
  predicate OnTime(w: World, ins: seq<Input>) {
    forall k :: 0 <= k < |ins| ==> Prompt(Play(w, ins[..k]).e, ins[k].now)
  }

  /** No server moves an address between the stable and the temporary ones. */
  predicate NoneMoved(w: World, ins: seq<Input>) {
    forall k :: 0 <= k < |ins| ==> MovesNone(Play(w, ins[..k]).m, ins[k].ev)
  }

  lemma LegalPrefix(w: World, ins: seq<Input>, k: nat)
    requires Legal(w, ins) && k <= |ins|
    ensures Legal(w, ins[..k])
  {
    hide Admissible, Play;
    forall i | 0 <= i < k ensures Admissible(Play(w, ins[..k][..i]).e, ins[..k][i].now, ins[..k][i].ev) {
      assert ins[..k][..i] == ins[..i];
    }
  }

  lemma NextInv(w: World, i: Input)
    requires Inv(w.m, w.e) && Admissible(w.e, i.now, i.ev)
    ensures Inv(Next(w, i).m, Next(w, i).e)
  {
    hide Inv, Executed, StepBody;
    StepKeepsInv(w.m, w.e, i.now, i.rnd, i.ev);
  }

  lemma {:induction false} PlayKeepsInv(w: World, ins: seq<Input>)
    requires Inv(w.m, w.e) && Legal(w, ins)
    ensures Inv(Play(w, ins).m, Play(w, ins).e)
  {
    hide Inv, Next, Admissible;
    if ins != [] {
      var k := |ins| - 1;
      LegalPrefix(w, ins, k);
      PlayKeepsInv(w, ins[..k]);
      NextInv(Play(w, ins[..k]), ins[k]);
    }
  }

  lemma Reachable(p: Params, start: Instant, ins: seq<Input>)
    requires p.Valid() && Legal(Initial(p, start), ins)
    ensures Inv(Play(Initial(p, start), ins).m, Play(Initial(p, start), ins).e)
  {
    hide Play, Legal;
    NewInv(p, start);
    PlayKeepsInv(Initial(p, start), ins);
  }

  /** While timers fire on time no binding is held past its valid lifetime, or
      past the moment it was announced where that came later; and a held lease
      always has an address. Whatever exchange is in flight. */
  lemma NoBindingOutlived(p: Params, start: Instant, ins: seq<Input>, now: Instant)
    requires p.Valid() && Legal(Initial(p, start), ins) && Prompt(Play(Initial(p, start), ins).e, now)
    ensures
      var w := Play(Initial(p, start), ins);
      w.m.lease.Some? ==>
        && w.e.held == w.m.lease && w.m.lease.value.addrs != []
        && var l := w.m.lease.value;
           forall i :: 0 <= i < |l.Bindings()| && l.Bindings()[i].valid != INFINITE ==>
             now <= Max(l.start + l.Bindings()[i].valid, w.e.heldAt)
  {
    hide Play, Legal, EarliestEnd;
    Reachable(p, start, ins);
    var w := Play(Initial(p, start), ins);
    if w.m.lease.Some? {
      var l := w.m.lease.value;
      NextEndIsEarliest(l.start, l.Bindings());
      assert w.e.armed.At(TimerExpire).Some? ==> now <= w.e.armed.At(TimerExpire).value;
    }
  }

  /** The flag says whether a server has moved an address. */
  lemma {:induction false} ApartIff(w: World, ins: seq<Input>)
    requires w.e.apart
    ensures Play(w, ins).e.apart <==> NoneMoved(w, ins)
  {
    hide Next, MovesNone;
    if ins != [] {
      var k := |ins| - 1;
      ApartIff(w, ins[..k]);
      NextApart(Play(w, ins[..k]), ins[k]);
      forall j | 0 <= j < k ensures Play(w, ins[..k][..j]) == Play(w, ins[..j]) {
        assert ins[..k][..j] == ins[..j];
      }
      assert NoneMoved(w, ins) ==> forall j :: 0 <= j < k ==> MovesNone(Play(w, ins[..j]).m, ins[..k][j].ev);
    }
  }

  lemma NextApart(w: World, i: Input)
    ensures Next(w, i).e.apart == (w.e.apart && MovesNone(w.m, i.ev))
  {
    hide StepBody, Executed, MovesNone;
    var c := Advance(w.m, w.e, i.now, i.rnd, i.ev);
    ExecutedApart(c.start, c.out);
  }

  lemma ExecuteApart(e: Env, act: Action)
    ensures Execute(e, act).apart == e.apart
  {
    hide Vouches, Trusts, Lease6.Lists;
  }

  lemma {:induction false} ExecutedApart(e: Env, acts: seq<Stamped>)
    ensures Executed(e, acts).apart == e.apart
  {
    hide Execute;
    if acts != [] {
      var n := |acts| - 1;
      ExecutedApart(e, acts[..n]);
      ExecuteApart(Executed(e, acts[..n]), acts[n].act);
    }
  }

  /** As long as no server moves an address between the sides, which no server
      can for a client without temporary addresses: every address of every
      lease ever announced, stable or temporary, had passed its check when it
      was; and those of the held lease still have. */
  lemma OnlyCheckedAddresses(p: Params, start: Instant, ins: seq<Input>)
    requires p.Valid() && Legal(Initial(p, start), ins) && NoneMoved(Initial(p, start), ins)
    ensures
      var w := Play(Initial(p, start), ins);
      && w.e.gated
      && (w.m.lease.Some? ==> Vouches(w.e, w.m.lease.value))
  {
    hide Play, Legal, StateRule, NoneMoved;
    Reachable(p, start, ins);
    ApartIff(Initial(p, start), ins);
  }

  lemma WithoutTemporaryNoneMoved(p: Params, start: Instant, ins: seq<Input>)
    requires p.Valid() && Legal(Initial(p, start), ins) && !p.temporary
    ensures NoneMoved(Initial(p, start), ins)
  {
    hide Play;
    forall k | 0 <= k < |ins| ensures MovesNone(Play(Initial(p, start), ins[..k]).m, ins[k].ev) {
      ParamsStay(Initial(p, start), ins[..k]);
    }
  }

  lemma {:induction false} ParamsStay(w: World, ins: seq<Input>)
    ensures Play(w, ins).m.params == w.m.params.(table := Play(w, ins).m.params.table)
  {
    hide StepBody, Executed;
    if ins != [] {
      ParamsStay(w, ins[..|ins| - 1]);
    }
  }

  // What being vouched for comes to: a question asked and answered.

  predicate Asks(w: World, i: Input, a: Addr) {
    var c := Advance(w.m, w.e, i.now, i.rnd, i.ev);
    exists k :: 0 <= k < |c.out| && c.out[k].act == StartDAD(a)
  }

  predicate AsksAbout(acts: seq<Stamped>, a: Addr) { exists k :: 0 <= k < |acts| && acts[k].act == StartDAD(a) }

  lemma AsksLast(acts: seq<Stamped>, a: Addr)
    requires acts != []
    ensures AsksAbout(acts, a) <==> AsksAbout(acts[..|acts| - 1], a) || acts[|acts| - 1].act == StartDAD(a)
  {
    var n := |acts| - 1;
    if AsksAbout(acts[..n], a) {
      var k :| 0 <= k < n && acts[..n][k].act == StartDAD(a);
      assert acts[k].act == StartDAD(a);
    }
    if acts[n].act != StartDAD(a) && AsksAbout(acts, a) {
      var k :| 0 <= k < |acts| && acts[k].act == StartDAD(a);
      assert acts[..n][k].act == StartDAD(a);
    }
  }

  lemma ExecuteChecks(e: Env, act: Action, a: Addr)
    ensures
      var r := Execute(e, act);
      && (a in r.awaiting <==> a in e.awaiting || act == StartDAD(a))
      && (a in r.vouched <==> a in e.vouched && act != StartDAD(a))
  {
    hide Vouches, Trusts, Lease6.Lists;
  }

  lemma {:induction false} ExecutedChecks(e: Env, acts: seq<Stamped>, a: Addr)
    ensures
      var r := Executed(e, acts);
      && (a in r.awaiting <==> a in e.awaiting || AsksAbout(acts, a))
      && (a in r.vouched <==> a in e.vouched && !AsksAbout(acts, a))
  {
    hide AsksAbout, Execute;
    if acts != [] {
      var n := |acts| - 1;
      ExecutedChecks(e, acts[..n], a);
      AsksLast(acts, a);
      ExecuteChecks(Executed(e, acts[..n]), acts[n].act, a);
    } else {
      assert !AsksAbout(acts, a) by { AsksNothing(a); }
    }
  }

  lemma AsksNothing(a: Addr)
    ensures !AsksAbout([], a)
  {
  }

  /** One step's effect on what is awaited and vouched for. */
  lemma StepChecks(w: World, i: Input, a: Addr)
    ensures
      var r, e := Next(w, i), Deliver(w.m, w.e, i.now, i.ev);
      && (a in r.e.awaiting <==> a in e.awaiting || Asks(w, i, a))
      && (a in r.e.vouched <==> a in e.vouched && !Asks(w, i, a))
  {
    hide StepBody, Executed;
    var c := Advance(w.m, w.e, i.now, i.rnd, i.ev);
    ExecutedChecks(c.start, c.out, a);
  }

  /** The step at k asks about the address, and no later one hears about it. */
  predicate AskedAt(w: World, ins: seq<Input>, k: nat, a: Addr)
    requires k < |ins|
  {
    Asks(Play(w, ins[..k]), ins[k], a) && forall j :: k < j < |ins| ==> !HearsAbout(ins[j].ev, a)
  }

  predicate HearsAbout(ev: Event, a: Addr) { ev.DADResult? && ev.addr == a }

  /** Where an answer is still awaited, it was asked for. */
  lemma {:induction false} AwaitedWasAsked(w: World, ins: seq<Input>, a: Addr) returns (k: nat)
    requires a !in w.e.awaiting && a in Play(w, ins).e.awaiting
    ensures k < |ins| && AskedAt(w, ins, k, a)
  {
    hide Next, Asks;
    var n := |ins| - 1;
    var v := Play(w, ins[..n]);
    StepChecks(v, ins[n], a);
    if Asks(v, ins[n], a) {
      k := n;
    } else {
      k := AwaitedWasAsked(w, ins[..n], a);
      assert ins[..n][..k] == ins[..k];
    }
  }

  /** An address is vouched for exactly when it was asked about, the next word
      on it was that it is free, and it has not been asked about since. */
  lemma {:induction false} VouchedWasAnswered(w: World, ins: seq<Input>, a: Addr) returns (asked: nat, answered: nat)
    requires a !in w.e.awaiting && a !in w.e.vouched && a in Play(w, ins).e.vouched
    ensures asked < answered < |ins| && ins[answered].ev == DADResult(a, false)
    ensures AskedAt(w, ins[..answered], asked, a)
    ensures forall j :: answered < j < |ins| ==> !Asks(Play(w, ins[..j]), ins[j], a)
  {
    hide Next, Asks, AskedAt;
    var n := |ins| - 1;
    var v := Play(w, ins[..n]);
    StepChecks(v, ins[n], a);
    if a in v.e.vouched {
      asked, answered := VouchedWasAnswered(w, ins[..n], a);
      assert ins[..n][..answered] == ins[..answered];
      forall j | answered < j < |ins| ensures !Asks(Play(w, ins[..j]), ins[j], a) {
        if j < n {
          assert ins[..n][..j] == ins[..j];
        }
      }
    } else {
      answered := n;
      asked := AwaitedWasAsked(w, ins[..n], a);
    }
  }

  // ------------------------------------------------- what the caller is told --

  /** The lease a caller holds after a list of reports, or None where some
      report contradicts the ones before it. */
  function Believes(told: seq<Action>): Option<Option<Lease6>> {
    if told == [] then Some(None)
    else
      var before := Believes(told[..|told| - 1]);
      if before.None? then None
      else match told[|told| - 1]
        case LeaseAcquired(l) => if before.value.None? then Some(Some(l)) else None
        case LeaseRenewed(l) => if before.value.Some? then Some(Some(l)) else None
        case LeaseChanged(l) => if before.value.Some? then Some(Some(l)) else None
        case LeaseLost(_, _) => if before.value.Some? then Some(None) else None
        case _ => before
  }

  predicate Mirrors(e: Env) { e.coherent ==> Believes(e.told) == Some(e.held) }

  lemma ExecuteMirrors(e: Env, a: Action)
    requires Mirrors(e)
    ensures Mirrors(Execute(e, a))
  {
    hide Vouches;
    assert (e.told + [a])[..|e.told|] == e.told;
  }

  lemma {:induction false} ExecutedMirrors(e: Env, acts: seq<Stamped>)
    requires Mirrors(e)
    ensures Mirrors(Executed(e, acts))
  {
    hide Execute, Mirrors;
    if acts != [] {
      ExecutedMirrors(e, acts[..|acts| - 1]);
      ExecuteMirrors(Executed(e, acts[..|acts| - 1]), acts[|acts| - 1].act);
    }
  }

  lemma {:induction false} PlayMirrors(w: World, ins: seq<Input>)
    requires Mirrors(w.e)
    ensures Mirrors(Play(w, ins).e)
  {
    hide StepBody, Executed, Believes;
    if ins != [] {
      var k := |ins| - 1;
      PlayMirrors(w, ins[..k]);
      var v, i := Play(w, ins[..k]), ins[k];
      var d := Deliver(v.m, v.e, i.now, i.ev);
      assert d.coherent == v.e.coherent && d.told == v.e.told && d.held == v.e.held;
      ExecutedMirrors(d, Advance(v.m, v.e, i.now, i.rnd, i.ev).out);
    }
  }

  /** Over a whole run the caller is never told anything that contradicts what
      it was told before, and what it believes is the client's own lease. */
  lemma CallerAgrees(p: Params, start: Instant, ins: seq<Input>)
    requires p.Valid() && Legal(Initial(p, start), ins)
    ensures
      var w := Play(Initial(p, start), ins);
      Believes(w.e.told) == Some(w.m.lease)
  {
    hide Legal, StateRule, Play, Fit;
    Reachable(p, start, ins);
    PlayMirrors(Initial(p, start), ins);
  }

  // -------------------------------------------------------------- expiry --

  /** The lease ends with its last address and not before: the expiry timer
      loses the lease exactly when no stable address has lifetime left, and
      otherwise drops just the bindings that have ended. */
  lemma ExpiryEndsTheLastAddress(c: Ctx, rnd: Entropy)
    requires c.m.lease.Some? && c.m.lease.value.addrs != [] && c.m.lease.value.start <= c.now()
    ensures
      var l, r := c.m.lease.value, ExpireLease(c, rnd);
      if forall b :: b in l.addrs ==> Ended(l.start, b, c.now()) then
        r.m.lease.None? && r.env().told == c.env().told + [LeaseLost(ReasonExpired, l)]
      else
        r.m.lease == Some(l.WithoutEnded(c.now())) && r.m.state == c.m.state && r.m.lease.value.addrs != []
  {
    hide Executed, Begin, AllEnded, Unended, Lease6.NextEnd, ExpiryOf;
    var l := c.m.lease.value;
    AllEndedIff(l, c.now());
    if AllEnded(l, c.now()) {
      var d := LoseLease(Cancel(c, TimerExpire), ReasonExpired);
      RestartTellsNothing(d, rnd);
    } else {
      SomeAddressStays(l, c.now());
      SameLengthSame(l, c.now());
    }
  }

  lemma RestartTellsNothing(c: Ctx, rnd: Entropy)
    ensures RestartDiscovery(c, rnd).env().told == c.env().told && RestartDiscovery(c, rnd).m.lease == c.m.lease
  {
    hide Executed, RandomDelay;
  }

  lemma AllEndedIff(l: Lease6, now: Instant)
    requires l.addrs != [] && l.start <= now
    ensures AllEnded(l, now) <==> forall b :: b in l.addrs ==> Ended(l.start, b, now)
  {
    hide LongestValid, RenewTimes;
    if forall b :: b in l.addrs ==> Ended(l.start, b, now) {
      EndedBoundsLongest(l.start, l.addrs, now);
    }
    if AllEnded(l, now) {
      forall b | b in l.addrs ensures Ended(l.start, b, now) {
        LongestCovers(l.addrs, b);
      }
    }
  }

  lemma {:induction false} LongestCovers(bs: seq<Addr6>, b: Addr6)
    requires b in bs && LongestValid(bs) != INFINITE
    ensures b.valid != INFINITE && b.valid <= LongestValid(bs)
  {
    var n := |bs| - 1;
    assert bs == bs[..n] + [bs[n]];
    if b in bs[..n] {
      LongestCovers(bs[..n], b);
    }
  }

  lemma SameLengthSame(l: Lease6, now: Instant)
    ensures |l.WithoutEnded(now).Bindings()| == |l.Bindings()| ==> l.WithoutEnded(now) == l
  {
    hide Unended;
    UnendedShorter(l.start, l.addrs, now);
    UnendedShorter(l.start, l.temps, now);
    UnendedKeeps(l.start, l.addrs, now);
    UnendedKeeps(l.start, l.temps, now);
  }
}
