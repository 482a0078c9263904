/** How fast a server that always refuses can drive the client. */
module Dhcp4Pacing {
  import opened Clock
  import opened Lease
  import opened Dhcp4
  import opened Dhcp4Invariant
  import opened Dhcp4Runs
  import Backoff

  /** The first n waits of the discover schedule, at their shortest. */
  function Waited(s: Backoff.Schedule, n: nat): Duration {
    if n == 0 then 0 else Waited(s, n - 1) + Backoff.Ideal(s, n - 1) - s.jitter
  }

  lemma WaitedGrows(s: Backoff.Schedule, n: nat)
    requires s.Valid()
    ensures Waited(s, n) < Waited(s, n + 1)
  {
    Backoff.ScaleMonotone(s.initial, 0, n);
  }

  /** Nobody restarts the client by hand, and it has no lease in force. */
  ghost predicate Unaided(i: Input, after: World) {
    && !i.ev.Start? && !i.ev.LinkUp? && after.m.state != Stopped
    && (after.m.lease.Some? ==> !InForce(after.m.lease.value, after.e.now))
  }

  ghost predicate AllUnaided(w: World, ins: seq<Input>) {
    forall k :: 0 <= k < |ins| ==> Unaided(ins[k], Play(w, ins[..k + 1]))
  }

  /** Waiting in INIT, to be woken by nothing before the bound. */
  predicate Waiting(w: World, bound: Instant) {
    && w.m.state == Init && Only(w.e, TimerRestart) && (w.e.armed.restart.Some? ==> bound <= w.e.armed.restart.value)
  }

  /** With second the moment of the second restart, the client may not be
      refused once more before the waits for the restarts so far have passed. */
  ghost predicate Paced(w: World, second: Instant) {
    && w.m.restarts >= 2
    && var bound := second + Waited(w.m.params.discover, w.m.restarts - 1);
       bound <= w.e.now || Waiting(w, bound)
  }

  predicate Scheduled(p: Params) { p.Valid() && p.discover.max <= MAX_INT64 / 2 }

  /** What each event does to a client waiting in INIT: only being told to
      start, to stop, or the wait's own end changes anything that runs. */
  lemma WaitHolds(w: World, i: Input)
    requires Inv(w.m, w.e) && w.m.state == Init && Only(w.e, TimerRestart) && Admissible(w.e, i.now, i.ev)
    requires !i.ev.Stop? && !i.ev.Release?
    ensures
      var r := Next(w, i);
      if i.ev.Start? || i.ev.LinkUp? || i.ev == TimerFired(TimerRestart) then
        r.e.armed.restart.None? && r.m.restarts == w.m.restarts
      else r.m.state == Init && r.e.armed == w.e.armed && r.m.restarts == w.m.restarts
  {
    hide Executed, BeginAcquisition, SendDiscover, Halt, IsUnicast, DropLease, ToInitIdle;
    var c := Begin(w.m, Deliver(w.e, i.now, i.ev));
    assert i.ev.TimerFired? ==> i.ev.timer == TimerRestart by { OnlyArmed(w.e, i.ev); }
    BeginAcquisitionInv(c, i.rnd, true);
    BeginAcquisitionInv(c, i.rnd, false);
    if i.ev.ActionFailed? {
      FailureInInit(c, i.rnd, i.ev.action);
    }
  }

  lemma OnlyArmed(e: Env, ev: Event)
    requires Only(e, TimerRestart) && (ev.TimerFired? ==> e.armed.At(ev.timer).Some?)
    ensures ev.TimerFired? ==> ev.timer == TimerRestart
  {
  }

  lemma FailureInInit(c: Ctx, rnd: Entropy, id: nat)
    requires c.m.state == Init && c.m.lease.None?
    ensures
      var r := NoteActionFailed(c, rnd, id);
      r.m.state == Init && r.env().armed == c.env().armed && r.m.restarts == c.m.restarts
  {
    hide Executed, ToInitIdle, RenewalDelay, Backoff.Delay;
  }

  /** The restart count moves only by a restart, which past the first waits in INIT. */
  lemma PaceStep(w: World, i: Input)
    requires Inv(w.m, w.e) && Admissible(w.e, i.now, i.ev) && Unaided(i, Next(w, i)) && w.m.restarts > 0
    requires Next(w, i).m.restarts != w.m.restarts
    ensures
      var r := Advance(w.m, w.e, i.now, i.rnd, i.ev);
      Next(w, i).m.restarts == w.m.restarts + 1 && Waits(r, i.now, w.m.restarts - 1)
  {
    hide Executed, StepBody, StepKind, Inv, Waits;
    StepKeepsInv(w.m, w.e, i.now, i.rnd, i.ev);
    NextFrame(w, i);
  }

  /** The wait that follows a restart is at least the schedule's shortest. */
  lemma RestartWaits(w: World, i: Input, second: Instant)
    requires Inv(w.m, w.e) && Scheduled(w.m.params) && Admissible(w.e, i.now, i.ev) && Unaided(i, Next(w, i))
    requires w.m.restarts > 0 && Next(w, i).m.restarts != w.m.restarts
    requires second + Waited(w.m.params.discover, w.m.restarts - 1) <= i.now
    ensures Paced(Next(w, i), second)
  {
    hide Executed, StepBody, Inv, Backoff.Ideal, Backoff.Delay;
    PaceStep(w, i);
    NextFrame(w, i);
    var r, n := Advance(w.m, w.e, i.now, i.rnd, i.ev), w.m.restarts - 1;
    var s := w.m.params.discover;
    var rnd: Entropy :| r.env().armed.restart.value == i.now + Backoff.Delay(s, n, rnd);
    Backoff.DelayBounds(s, n, rnd);
  }

  /** From the second restart on, every step keeps the pace; and a further
      restart comes no sooner than the waits for the ones before it. */
  lemma StepKeepsPace(w: World, i: Input, second: Instant)
    requires Inv(w.m, w.e) && Scheduled(w.m.params) && Paced(w, second)
    requires Admissible(w.e, i.now, i.ev) && Unaided(i, Next(w, i))
    ensures Paced(Next(w, i), second)
    ensures
      var r := Next(w, i);
      r.m.restarts != w.m.restarts ==>
        r.m.restarts == w.m.restarts + 1 && i.now >= second + Waited(w.m.params.discover, w.m.restarts - 1)
  {
    hide Inv, Next, Waits, Waited, Scheduled;
    NextFrame(w, i);
    var bound := second + Waited(w.m.params.discover, w.m.restarts - 1);
    if bound > w.e.now {
      assert i.ev.TimerFired? ==> w.e.armed.At(i.ev.timer).value <= i.now;
      OnlyArmed(w.e, i.ev);
      StopsOnlyAsked(w, i);
      WaitHolds(w, i);
    }
    if Next(w, i).m.restarts != w.m.restarts {
      PaceStep(w, i);
      RestartWaits(w, i, second);
    }
  }

  lemma StopsOnlyAsked(w: World, i: Input)
    requires w.m.state == Init
    ensures i.ev.Stop? || i.ev.Release? ==> Next(w, i).m.state == Stopped
  {
    hide Executed, BeginAcquisition, SendDiscover, DropLease, NoteActionFailed;
  }

  /** The second restart itself. */
  lemma SecondRestart(w: World, i: Input)
    requires Inv(w.m, w.e) && Scheduled(w.m.params) && Admissible(w.e, i.now, i.ev) && Unaided(i, Next(w, i))
    requires w.m.restarts == 1 && Next(w, i).m.restarts != 1
    ensures Paced(Next(w, i), i.now)
  {
    RestartWaits(w, i, i.now);
  }

  lemma {:induction false} PaceHolds(w: World, ins: seq<Input>, second: Instant)
    requires Inv(w.m, w.e) && Scheduled(w.m.params) && Paced(w, second) && Legal(w, ins) && AllUnaided(w, ins)
    ensures Paced(Play(w, ins), second)
  {
    hide Inv, Next, Scheduled, Paced, Unaided;
    if ins != [] {
      var k := |ins| - 1;
      LegalPrefix(w, ins, k);
      UnaidedPrefix(w, ins, k);
      PaceHolds(w, ins[..k], second);
      PlayKeepsInv(w, ins[..k]);
      assert ins[..k + 1] == ins;
      StepKeepsPace(Play(w, ins[..k]), ins[k], second);
    }
  }

  lemma UnaidedPrefix(w: World, ins: seq<Input>, k: nat)
    requires AllUnaided(w, ins) && k <= |ins|
    ensures AllUnaided(w, ins[..k])
  {
    hide Unaided;
    forall i | 0 <= i < k ensures Unaided(ins[..k][i], Play(w, ins[..k][..i + 1])) {
      assert ins[..k][..i + 1] == ins[..i + 1];
    }
  }

  /** Over any stretch of a run in which nobody starts the client by hand and
      no lease it takes holds, the restart that brings the count to n comes no
      sooner after the second one than the first n - 2 waits of the discover
      schedule, each as long as its doubling and ceiling say less the jitter. */
  lemma RestartsArePaced(w: World, first: Input, ins: seq<Input>, last: Input)
    requires Inv(w.m, w.e) && Scheduled(w.m.params) && w.m.restarts == 1
    requires Admissible(w.e, first.now, first.ev) && Unaided(first, Next(w, first)) && Next(w, first).m.restarts == 2
    requires Legal(Next(w, first), ins) && AllUnaided(Next(w, first), ins)
    requires
      var v := Play(Next(w, first), ins);
      && Admissible(v.e, last.now, last.ev) && Unaided(last, Next(v, last))
      && Next(v, last).m.restarts != v.m.restarts
    ensures
      var v := Play(Next(w, first), ins);
      var n := Next(v, last).m.restarts;
      n == v.m.restarts + 1 && n >= 3 && last.now >= first.now + Waited(w.m.params.discover, n - 2)
  {
    hide Inv, Next, Scheduled, Unaided, Waited, AllUnaided, Legal, Waiting, Play, Admissible;
    var u := Next(w, first);
    NextInv(w, first);
    NextFrame(w, first);
    SecondRestart(w, first);
    PaceHolds(u, ins, first.now);
    PlayKeepsInv(u, ins);
    StepKeepsPace(Play(u, ins), last, first.now);
  }

  lemma NextInv(w: World, i: Input)
    requires Inv(w.m, w.e) && Admissible(w.e, i.now, i.ev)
    ensures Inv(Next(w, i).m, Next(w, i).e)
  {
    hide Executed, StepBody, StepKind, Pace, Inv;
    StepKeepsInv(w.m, w.e, i.now, i.rnd, i.ev);
  }

  /** The waits themselves, as the RFC's schedule gives them. */
  lemma {:induction false} WaitedIsSum(s: Backoff.Schedule, n: nat)
    requires s.Valid()
    ensures Waited(s, n) >= n * (s.initial - s.jitter)
  {
    if n > 0 {
      WaitedIsSum(s, n - 1);
      Backoff.ScaleMonotone(s.initial, 0, n - 1);
      assert n * (s.initial - s.jitter) == (n - 1) * (s.initial - s.jitter) + (s.initial - s.jitter);
    }
  }

  /** A client started by hand, or told its link is up, does not wait: it
      solicits at once, however many times it has been refused. */
  lemma StartSkipsTheWait(w: World, now: Instant, rnd: Entropy, up: bool)
    requires Inv(w.m, w.e) && w.m.state == Init && w.e.now <= now
    ensures
      var r := Next(w, Input(now, rnd, if up then LinkUp else Start));
      && r.e.armed.restart.None? && r.m.restarts == w.m.restarts
      && (r.m.state.Selecting? || r.m.state.Rebooting? || Exactly(r.e, TimerDesync))
  {
    hide Executed, BeginAcquisition, StateRule;
    var ev := if up then LinkUp else Start;
    var c := Begin(w.m, Deliver(w.e, now, ev));
    assert Free(c) by { InitIsFree(w); }
    BeginAcquisitionInv(c, rnd, true);
    OnlyRetransmit(BeginAcquisition(c, rnd, true));
  }

  lemma OnlyRetransmit(r: Ctx)
    requires Inv(r.m, r.env()) && (r.m.state.Selecting? || r.m.state.Rebooting? || Exactly(r.env(), TimerDesync))
    ensures r.env().armed.restart.None?
  {
    hide Executed;
  }

  lemma InitIsFree(w: World)
    requires Inv(w.m, w.e) && w.m.state == Init
    ensures w.m.lease.None? && w.m.probing.None?
  {
  }
}
