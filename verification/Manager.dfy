/** The manager's loop around the DHCPv4 client: one event in, the client
    stepped, its actions executed in order, and every send that failed fed back
    until nothing is left to say. */
module Manager {
  import opened Clock
  import opened Lease
  import opened Dhcp4
  import opened Dhcp4Invariant
  import opened Dhcp4Runs
  import Acd
  import Conflict = Dhcp4Conflict
  import Journal
  import Machine4

  predicate IsSend(a: Action) { a.Send? || a.SendARP? }

  function SendCount(acts: seq<Stamped>): nat {
    if acts == [] then 0 else SendCount(acts[..|acts| - 1]) + if IsSend(acts[|acts| - 1].act) then 1 else 0
  }

  /** The failures a list of actions brings back, in order: one for each send
      the transport does not take. */
  function Failures(acts: seq<Stamped>, takes: Stamped -> bool): (f: seq<Event>)
    ensures |f| <= SendCount(acts)
    ensures forall i :: 0 <= i < |f| ==> f[i].ActionFailed?
  {
    if acts == [] then []
    else
      var a := acts[|acts| - 1];
      Failures(acts[..|acts| - 1], takes) + if IsSend(a.act) && !takes(a) then [ActionFailed(a.id)] else []
  }

  lemma {:induction false} SendsAreCounted(e: Env, acts: seq<Stamped>)
    ensures Executed(e, acts).sends == e.sends + SendCount(acts)
  {
    if acts != [] {
      SendsAreCounted(e, acts[..|acts| - 1]);
    }
  }

  /** Being told that a send failed makes the client send nothing. */
  lemma FailureSendsNothing(w: World, i: Input)
    requires Inv(w.m, w.e) && i.ev.ActionFailed?
    ensures SendCount(Journal.Emitted(w, i)) == 0
  {
    hide Executed, NoteActionFailed, Inv;
    var c := Begin(w.m, Deliver(w.e, i.now, i.ev));
    var r := StepBody(c, i.rnd, i.ev);
    if w.m.state == Stopped {
      assert r == c;
    } else {
      LaterInv(w.m, w.e, i.now);
      NoteActionFailedInv(c, i.rnd, i.ev.action);
      assert r == NoteActionFailed(c, i.rnd, i.ev.action);
    }
    SendsAreCounted(c.start, r.out);
    StepKeepsFrame(c, i.rnd, i.ev);
    assert r.env() == Executed(c.start, r.out);
  }

  lemma LaterInv(m: Client, e: Env, now: Instant)
    requires Inv(m, e)
    ensures Inv(m, e.(now := now))
  {
  }

  ghost predicate Steady(clock: nat -> Instant) { forall i, j :: 0 <= i <= j ==> clock(i) <= clock(j) }

  class Manager {
    const codec: Journal.Codec
    const clock: nat -> Instant
    const entropy: nat -> Entropy
    const machine: Machine4.Machine
    var lease: Option<Lease>
    var timers: Timers
    var events: seq<Action>
    var journal: seq<Journal.Entry>
    var steps: nat
    var executed: nat
    var arpIgnored: nat
    ghost const first: World
    ghost var history: seq<Input>
    ghost var env: Env

    ghost function Now(): World
      reads this, machine, machine.detector
    {
      World(machine.Client(), env)
    }

    /** What the caller sees is what the run says: the lease, the timers and the
        reports are those of the actions executed, and the journal is the
        record of every step taken. */
    ghost predicate Valid()
      reads this, machine, machine.detector
    {
      && Steady(clock) && Inv(first.m, first.e)
      && Legal(first, history) && Play(first, history) == Now()
      && steps == |history| && env.now <= clock(steps)
      && lease == env.held && timers == env.armed && events == env.told
      && journal == Journal.Recorded(codec, first, history)
    }

    constructor (p: Params, coder: Journal.Codec, mono: nat -> Instant, draw: nat -> Entropy)
      requires p.Valid() && Steady(mono)
      ensures Valid() && history == [] && lease.None?
      ensures fresh(machine) && (machine.detector == null || fresh(machine.detector))
    {
      codec, clock, entropy := coder, mono, draw;
      machine := new Machine4.Machine(p);
      lease, timers, events, journal, steps, executed, arpIgnored := None, NO_TIMERS, [], [], 0, 0, 0;
      first, history := Initial(p, mono(0)), [];
      env := Initial(p, mono(0)).e;
      new;
      NewInv(p, mono(0));
    }

    /** Every action of a list is executed, in order, before anything else happens. */
    method Drain(now: Instant, acts: seq<Stamped>, takes: Stamped -> bool) returns (failures: seq<Event>)
      requires env.now == now && lease == env.held && timers == env.armed && events == env.told
      modifies this`lease, this`timers, this`events, this`executed, this`env
      ensures failures == Failures(acts, takes)
      ensures env == Executed(old(env), acts)
      ensures lease == env.held && timers == env.armed && events == env.told
      ensures executed == old(executed) + |acts|
    {
      failures := [];
      var n := 0;
      while n < |acts|
        invariant 0 <= n <= |acts|
        invariant failures == Failures(acts[..n], takes)
        invariant env == Executed(old(env), acts[..n])
        invariant lease == env.held && timers == env.armed && events == env.told
        invariant executed == old(executed) + n
      {
        assert acts[..n + 1][..n] == acts[..n];
        var a := acts[n];
        executed := executed + 1;
        env := Execute(env, a.act);
        match a.act {
          case Send(_, _) =>
            if !takes(a) {
              failures := failures + [ActionFailed(a.id)];
            }
          case SendARP(_, _) =>
            if !takes(a) {
              failures := failures + [ActionFailed(a.id)];
            }
          case SetTimer(t, d) => timers := timers.With(t, Some(now + d));
          case CancelTimer(t) => timers := timers.With(t, None);
          case LeaseAcquired(l, _) => lease, events := Some(l), events + [a.act];
          case LeaseRenewed(l) => lease, events := Some(l), events + [a.act];
          case LeaseChanged(l) => lease, events := Some(l), events + [a.act];
          case LeaseLost(_) => lease, events := None, events + [a.act];
          case Failed(_) => events := events + [a.act];
        }
        n := n + 1;
      }
      assert acts[..n] == acts;
    }

    /** The client steps: what it emits is what the run's next step emits. */
    method StepMachine(i: Input) returns (acts: seq<Stamped>)
      requires Admissible(env, i.now, i.ev) && timers == env.armed && lease == env.held && events == env.told
      modifies this`timers, this`env, machine, machine.detector
      ensures acts == Journal.Emitted(old(Now()), i) && machine.Client() == Next(old(Now()), i).m
      ensures env == Deliver(old(env), i.now, i.ev) && Executed(env, acts) == Next(old(Now()), i).e
      ensures lease == env.held && timers == env.armed && events == env.told && env.now == i.now
    {
      hide StepBody, Executed;
      ghost var w := Now();
      env := Deliver(env, i.now, i.ev);
      if i.ev.TimerFired? {
        timers := timers.With(i.ev.timer, None);
      }
      acts := machine.Step(i.now, i.rnd, i.ev, env);
      StepKeepsFrame(Begin(w.m, env), i.rnd, i.ev);
    }

    /** One turn of the loop: the client steps, the step is recorded, its
        actions are executed. */
    method Turn(ev: Event, takes: Stamped -> bool) returns (failures: seq<Event>)
      requires Valid() && Admissible(env, clock(steps), ev)
      modifies this`lease, this`timers, this`events, this`executed, this`env, this`journal, this`steps, this`history
      modifies machine, machine.detector
      ensures Valid()
      ensures
        var i := Input(clock(old(steps)), entropy(old(steps)), ev);
        && history == old(history) + [i]
        && Now() == Next(old(Now()), i)
        && failures == Failures(Journal.Emitted(old(Now()), i), takes)
    {
      hide Inv, StepBody, Executed, Admissible, Journal.NewEntry, Journal.Recorded, Play, Legal, Next, Failures,
           Deliver;
      ghost var w := Now();
      var i := Input(clock(steps), entropy(steps), ev);
      var from := machine.state;
      Extends(codec, first, history, i, w);
      NextFrame(w, i);
      var acts := StepMachine(i);
      journal := journal + [Journal.NewEntry(codec, steps, i, from, machine.state, acts)];
      failures := Drain(i.now, acts, takes);
      steps, history := steps + 1, history + [i];
    }

    /** One event, and every failure it leads to: each is heard before the loop
        ends, and none leads to another send, so the loop takes at most one
        turn and one more for each send of the first. When it ends the lease
        the caller sees is the client's own. */
    method Dispatch(ev: Event, takes: Stamped -> bool)
      requires Valid() && Admissible(env, clock(steps), ev)
      modifies this`lease, this`timers, this`events, this`executed, this`env, this`journal, this`steps, this`history
      modifies machine, machine.detector
      ensures Valid() && lease == machine.lease
      ensures old(history) < history && history[|old(history)|].ev == ev
      ensures forall k :: |old(history)| < k < |history| ==> history[k].ev.ActionFailed?
      ensures |history| - |old(history)| <= 1 + SendCount(Journal.Emitted(old(Now()), history[|old(history)|]))
    {
      hide Inv, StepBody, Executed, Journal.NewEntry, Journal.Recorded, Play, Legal, Next, Failures, Journal.Emitted,
           SendCount;
      var queue := [ev];
      ghost var before := |history|;
      while queue != []
        invariant Valid() && before <= |history| && old(history) <= history
        invariant |history| == before ==> queue == [ev] && Now() == old(Now()) && steps == old(steps)
        invariant |history| > before ==>
                    && history[before] == Input(clock(old(steps)), entropy(old(steps)), ev)
                    && (forall k :: before < k < |history| ==> history[k].ev.ActionFailed?)
                    && (forall k :: 0 <= k < |queue| ==> queue[k].ActionFailed?)
                    && |history| - before + |queue| <= 1 + SendCount(Journal.Emitted(old(Now()), history[before]))
        invariant |history| == before ==> Admissible(env, clock(steps), ev)
        decreases if |history| == before then 1 else 0, |queue|
      {
        var next := queue[0];
        ghost var w := Now();
        ghost var past := history;
        PlayKeepsInv(first, history);
        var failures := Turn(next, takes);
        if |past| > before {
          FailureSendsNothing(w, history[|past|]);
        }
        queue := queue[1..] + failures;
      }
      PlayKeepsInv(first, history);
      InvMirrors(machine.Client(), env);
    }

    /** Packets the detector is not watching for are dropped before the client sees them. */
    method OnARP(pkt: Acd.Packet, takes: Stamped -> bool)
      requires Valid()
      modifies this, machine, machine.detector
      ensures Valid()
      ensures old(machine.detector == null || !machine.detector.View().Relevant(pkt)) ==>
                Now() == old(Now()) && arpIgnored == old(arpIgnored) + 1
    {
      if machine.detector == null || !machine.detector.View().Relevant(pkt) {
        arpIgnored := arpIgnored + 1;
      } else {
        Dispatch(ARPReceived(Some(pkt)), takes);
      }
    }
  }

  lemma InvMirrors(m: Client, e: Env)
    requires Inv(m, e)
    ensures e.held == m.lease
  {
  }

  /** The packets so dropped are ones the client would have done nothing with. */
  lemma FilterLosesNothing(m: Client, e: Env, now: Instant, rnd: Entropy, pkt: Acd.Packet)
    requires Inv(m, e) && e.now <= now && (m.acd.Some? ==> !m.acd.value.Relevant(pkt))
    ensures
      var r := Advance(m, e, now, rnd, ARPReceived(Some(pkt)));
      r.m == m && r.env() == e.(now := now)
  {
    hide StepBody, Executed;
    Conflict.ArpDecides(m, e, now, rnd, pkt);
  }

  /** A legal run and one admissible input more, and its record. */
  lemma Extends(codec: Journal.Codec, w0: World, ins: seq<Input>, i: Input, w: World)
    requires Legal(w0, ins) && Play(w0, ins) == w && Admissible(w.e, i.now, i.ev)
    ensures Legal(w0, ins + [i]) && Play(w0, ins + [i]) == Next(w, i)
    ensures Journal.Recorded(codec, w0, ins + [i]) == Journal.Recorded(codec, w0, ins)
            + [Journal.NewEntry(codec, |ins|, i, w.m.state, Next(w, i).m.state, Journal.Emitted(w, i))]
  {
    hide Next, Admissible, Journal.NewEntry, Journal.Emitted;
    var all, k := ins + [i], |ins|;
    assert all[..k] == ins;
    forall j | 0 <= j < |all| ensures Admissible(Play(w0, all[..j]).e, all[j].now, all[j].ev) {
      if j < k {
        assert ins[..j] == all[..j];
      }
    }
  }
}
