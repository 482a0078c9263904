/** The manager's loop around the DHCPv6 client, where every message is spent
    from the interface's token bucket and a refusal is a failed send. */
module Manager6 {
  import opened Clock
  import opened Lease
  import opened Lease6
  import opened Dhcp6
  import opened Dhcp6Invariant
  import opened Dhcp6Runs
  import Machine6
  import RateLimit

  function SendCount(acts: seq<Stamped>): nat {
    if acts == [] then 0 else SendCount(acts[..|acts| - 1]) + if acts[|acts| - 1].act.Send? then 1 else 0
  }

  lemma {:induction false} SendsAreCounted(e: Env, acts: seq<Stamped>)
    ensures |Executed(e, acts).mail| == |e.mail| + SendCount(acts)
  {
    hide Vouches, Trusts, Lease6.Lists;
    if acts != [] {
      SendsAreCounted(e, acts[..|acts| - 1]);
    }
  }

  function Emitted(w: World, i: Input): seq<Stamped> { Advance(w.m, w.e, i.now, i.rnd, i.ev).out }

  /** Being told that a send failed makes the client send nothing. */
  lemma FailureSendsNothing(w: World, i: Input)
    requires i.ev.ActionFailed?
    ensures SendCount(Emitted(w, i)) == 0
  {
    hide Executed, CancelAll, StepState;
    var c := Begun(w.m, Deliver(w.m, w.e, i.now, i.ev));
    var r := StepBody(c, i.rnd, i.ev);
    assert r == NoteActionFailed(c);
    SendsAreCounted(c.start, r.out);
    assert r.env() == Executed(c.start, r.out);
  }

  /** The interface's outbound side: its bucket, the calls made on it, and what
      came of them. */
  datatype Outbox = Outbox(bucket: RateLimit.State, tick: nat, asked: seq<Instant>, failures: seq<Event>, sent: nat,
                           limited: nat)

  /** One action: a message asks the bucket, then the transport. */
  function Attempt(o: Outbox, a: Stamped, clock: nat -> Instant, takes: Stamped -> bool): Outbox {
    if !a.act.Send? then o
    else
      var t := clock(o.tick);
      var p := o.(bucket := o.bucket.Take(t), tick := o.tick + 1, asked := o.asked + [t]);
      var failed := p.(failures := o.failures + [ActionFailed(a.id)]);
      if !o.bucket.Allows(t) then failed.(limited := o.limited + 1)
      else if !takes(a) then failed else p.(sent := o.sent + 1)
  }

  function AttemptAll(o: Outbox, acts: seq<Stamped>, clock: nat -> Instant, takes: Stamped -> bool): Outbox {
    if acts == [] then o
    else Attempt(AttemptAll(o, acts[..|acts| - 1], clock, takes), acts[|acts| - 1], clock, takes)
  }

  ghost predicate Steady(clock: nat -> Instant) { forall i, j :: 0 <= i <= j ==> clock(i) <= clock(j) }

  /** The bucket has seen the calls in order; what was sent it accepted, and
      what it refused was counted. */
  ghost predicate Metered(o: Outbox, b: RateLimit.State, clock: nat -> Instant) {
    && o.bucket == RateLimit.Run(b, o.asked) && RateLimit.Nondecreasing(o.asked)
    && (o.asked != [] ==> o.asked[|o.asked| - 1] <= clock(o.tick))
    && o.sent <= RateLimit.Accepted(b, o.asked, 0, |o.asked|)
    && o.limited + RateLimit.Accepted(b, o.asked, 0, |o.asked|) == |o.asked|
  }

  /** From one moment of the interface to a later one: more calls, and no more
      messages sent than the bucket let through of them. */
  ghost predicate Since(o: Outbox, p: Outbox, b: RateLimit.State) {
    && o.asked <= p.asked && o.sent <= p.sent
    && p.sent - o.sent <= RateLimit.Accepted(b, p.asked, |o.asked|, |p.asked|)
  }

  lemma {:induction false} AcceptedPrefix(b: RateLimit.State, times: seq<Instant>, more: seq<Instant>, i: nat, n: nat)
    requires i <= n <= |times| && times <= more
    ensures RateLimit.Accepted(b, more, i, n) == RateLimit.Accepted(b, times, i, n)
    decreases n
  {
    if i < n {
      AcceptedPrefix(b, times, more, i, n - 1);
      assert more[..n - 1] == times[..n - 1] && more[n - 1] == times[n - 1];
    }
  }

  lemma {:induction false} AcceptedSplits(b: RateLimit.State, times: seq<Instant>, i: nat, j: nat, k: nat)
    requires i <= j <= k <= |times|
    ensures RateLimit.Accepted(b, times, i, k)
            == RateLimit.Accepted(b, times, i, j) + RateLimit.Accepted(b, times, j, k)
    decreases k
  {
    if j < k {
      AcceptedSplits(b, times, i, j, k - 1);
    }
  }

  lemma SinceSelf(o: Outbox, b: RateLimit.State)
    ensures Since(o, o, b)
  {
  }

  lemma SinceChains(o: Outbox, p: Outbox, q: Outbox, b: RateLimit.State)
    requires Since(o, p, b) && Since(p, q, b)
    ensures Since(o, q, b)
  {
    AcceptedPrefix(b, p.asked, q.asked, |o.asked|, |p.asked|);
    AcceptedSplits(b, q.asked, |o.asked|, |p.asked|, |q.asked|);
  }

  lemma AttemptMetered(o: Outbox, a: Stamped, b: RateLimit.State, clock: nat -> Instant, takes: Stamped -> bool)
    requires Metered(o, b, clock) && Steady(clock)
    ensures Metered(Attempt(o, a, clock, takes), b, clock)
    ensures o.tick <= Attempt(o, a, clock, takes).tick && Since(o, Attempt(o, a, clock, takes), b)
  {
    if a.act.Send? {
      var t, n := clock(o.tick), |o.asked|;
      var all := o.asked + [t];
      assert all[..n] == o.asked;
      AcceptedPrefix(b, o.asked, all, 0, n);
      OneMoreInOrder(o.asked, t);
      assert clock(o.tick) <= clock(o.tick + 1);
    }
  }

  lemma OneMoreInOrder(times: seq<Instant>, t: Instant)
    requires RateLimit.Nondecreasing(times) && (times != [] ==> times[|times| - 1] <= t)
    ensures RateLimit.Nondecreasing(times + [t])
  {
  }

  lemma {:induction false} AttemptAllMetered(o: Outbox, acts: seq<Stamped>, b: RateLimit.State, clock: nat -> Instant,
                                             takes: Stamped -> bool)
    requires Metered(o, b, clock) && Steady(clock)
    ensures
      var r := AttemptAll(o, acts, clock, takes);
      Metered(r, b, clock) && o.tick <= r.tick && Since(o, r, b)
  {
    hide Attempt, Metered;
    if acts != [] {
      hide Since;
      var p := AttemptAll(o, acts[..|acts| - 1], clock, takes);
      AttemptAllMetered(o, acts[..|acts| - 1], b, clock, takes);
      AttemptMetered(p, acts[|acts| - 1], b, clock, takes);
      SinceChains(o, p, AttemptAll(o, acts, clock, takes), b);
    }
  }

  /** Each send that is not taken comes back as one failure, and no other action does. */
  lemma {:induction false} FailuresAreUnsent(o: Outbox, acts: seq<Stamped>, clock: nat -> Instant,
                                             takes: Stamped -> bool)
    requires o.failures == []
    ensures
      var r := AttemptAll(o, acts, clock, takes);
      && |r.failures| + r.sent == SendCount(acts) + o.sent && |r.asked| == |o.asked| + SendCount(acts)
      && o.sent <= r.sent && o.limited <= r.limited
      && forall i :: 0 <= i < |r.failures| ==> r.failures[i].ActionFailed?
  {
    if acts != [] {
      FailuresAreUnsent(o, acts[..|acts| - 1], clock, takes);
    }
  }

  class Manager {
    const clock: nat -> Instant
    const entropy: nat -> Entropy
    const machine: Machine6.Machine
    const limiter: RateLimit.Bucket
    var lease: Option<Lease6>
    var timers: Timers
    var events: seq<Action>
    var ticks: nat
    var steps: nat
    var sent: nat
    var limited: nat
    ghost const limit: RateLimit.State
    ghost const first: World
    ghost var history: seq<Input>
    ghost var asked: seq<Instant>
    ghost var env: Env

    ghost function Now(): World
      reads this, machine
    {
      World(machine.m, env)
    }

    ghost function Out(): Outbox
      reads this, limiter
    {
      Outbox(limiter.View(), ticks, asked, [], sent, limited)
    }

    /** What the caller sees is what the run says, and what was sent is what
        the bucket let through. */
    ghost predicate Valid()
      reads this, machine, limiter
    {
      && Steady(clock) && Inv(first.m, first.e)
      && Legal(first, history) && Play(first, history) == Now()
      && env.now <= clock(ticks) && Metered(Out(), limit, clock)
      && lease == env.held && timers == env.armed && events == env.told
    }

    constructor (p: Params, l: RateLimit.Limit, mono: nat -> Instant, draw: nat -> Entropy)
      requires p.Valid() && Steady(mono)
      ensures Valid() && history == [] && asked == [] && limit == RateLimit.New(l) && sent == limited == 0
      ensures fresh(machine) && fresh(limiter)
    {
      clock, entropy := mono, draw;
      machine := new Machine6.Machine(p);
      limiter := new RateLimit.Bucket(l);
      lease, timers, events, ticks, steps, sent, limited := None, NO_TIMERS, [], 0, 0, 0, 0;
      limit, first, history, asked := RateLimit.New(l), Initial(p, mono(0)), [], [];
      env := Initial(p, mono(0)).e;
      new;
      NewInv(p, mono(0));
    }

    /** One message: refused by the bucket, by the transport, or sent. */
    method SendV6(a: Stamped, takes: Stamped -> bool) returns (failure: seq<Event>)
      requires a.act.Send?
      modifies this`ticks, this`sent, this`limited, this`asked, limiter
      ensures Out().(failures := failure) == Attempt(old(Out()), a, clock, takes)
    {
      var t := clock(ticks);
      ticks := ticks + 1;
      asked := asked + [t];
      var ok := limiter.Take(t);
      if !ok {
        limited := limited + 1;
        return [ActionFailed(a.id)];
      }
      if !takes(a) {
        return [ActionFailed(a.id)];
      }
      sent := sent + 1;
      return [];
    }

    /** Every action of a list is executed, in order, before anything else happens. */
    method Drain(now: Instant, acts: seq<Stamped>, takes: Stamped -> bool) returns (failures: seq<Event>)
      requires env.now == now && lease == env.held && timers == env.armed && events == env.told
      modifies this`lease, this`timers, this`events, this`ticks, this`sent, this`limited, this`asked, this`env, limiter
      ensures Out().(failures := failures) == AttemptAll(old(Out()), acts, clock, takes)
      ensures env == Executed(old(env), acts)
      ensures lease == env.held && timers == env.armed && events == env.told
    {
      hide Attempt, Vouches;
      failures := [];
      var n := 0;
      while n < |acts|
        invariant 0 <= n <= |acts|
        invariant Out().(failures := failures) == AttemptAll(old(Out()), acts[..n], clock, takes)
        invariant env == Executed(old(env), acts[..n])
        invariant lease == env.held && timers == env.armed && events == env.told
      {
        assert acts[..n + 1][..n] == acts[..n];
        var a := acts[n];
        ghost var o := Out();
        env := Execute(env, a.act);
        if a.act.Send? {
          var failure := SendV6(a, takes);
          AttemptPrefix(o, failures, a, clock, takes);
          failures := failures + failure;
        } else {
          Perform(now, a.act);
          AttemptOther(o.(failures := failures), a, clock, takes);
        }
        n := n + 1;
      }
      assert acts[..n] == acts;
    }

    /** Any action but a message. */
    method Perform(now: Instant, a: Action)
      requires !a.Send?
      modifies this`lease, this`timers, this`events
      ensures lease == (match a
                        case LeaseAcquired(l) => Some(l)
                        case LeaseRenewed(l) => Some(l)
                        case LeaseChanged(l) => Some(l)
                        case LeaseLost(_, _) => None
                        case _ => old(lease))
      ensures timers == (match a
                         case SetTimer(t, d) => old(timers).With(t, Some(now + d))
                         case CancelTimer(t) => old(timers).With(t, None)
                         case _ => old(timers))
      ensures events == if a.SetTimer? || a.CancelTimer? || a.StartDAD? then old(events) else old(events) + [a]
    {
      match a {
        case SetTimer(t, d) => timers := timers.With(t, Some(now + d));
        case CancelTimer(t) => timers := timers.With(t, None);
        case StartDAD(_) =>
        case LeaseAcquired(l) => lease, events := Some(l), events + [a];
        case LeaseRenewed(l) => lease, events := Some(l), events + [a];
        case LeaseChanged(l) => lease, events := Some(l), events + [a];
        case LeaseLost(_, _) => lease, events := None, events + [a];
        case Failed(_) => events := events + [a];
        case Refused(_) => events := events + [a];
        case Configured(_, _) => events := events + [a];
      }
    }

    /** The client steps: what it emits is what the run's next step emits. */
    method StepMachine(i: Input) returns (acts: seq<Stamped>)
      requires timers == env.armed && lease == env.held && events == env.told
      modifies this`timers, this`env, machine
      ensures acts == Emitted(old(Now()), i) && machine.m == Next(old(Now()), i).m
      ensures env == Deliver(old(machine.m), old(env), i.now, i.ev) && Executed(env, acts) == Next(old(Now()), i).e
      ensures lease == env.held && timers == env.armed && events == env.told && env.now == i.now
    {
      hide StepBody, Executed;
      env := Deliver(machine.m, env, i.now, i.ev);
      if i.ev.TimerFired? {
        timers := timers.With(i.ev.timer, None);
      }
      acts := machine.Step(i.now, i.rnd, i.ev, env);
    }

    method Turn(ev: Event, takes: Stamped -> bool) returns (failures: seq<Event>)
      requires Valid() && Admissible(env, clock(ticks), ev)
      modifies this`lease, this`timers, this`events, this`ticks, this`steps, this`sent, this`limited, this`asked,
          this`env
      modifies this`history, machine, limiter
      ensures Valid() && steps == old(steps) + 1 && Since(old(Out()), Out(), limit)
      ensures
        var i := Input(clock(old(ticks)), entropy(old(steps)), ev);
        && history == old(history) + [i] && Now() == Next(old(Now()), i)
        && Out().(failures := failures)
           == AttemptAll(old(Out()).(tick := old(ticks) + 1), Emitted(old(Now()), i), clock, takes)
    {
      hide Inv, StepBody, Executed, Admissible, Play, Legal, Next, AttemptAll, Metered, Emitted, Deliver;
      ghost var w, o := Now(), Out();
      var i := Input(clock(ticks), entropy(steps), ev);
      Extends(first, history, i, w);
      NextIsNow(w, i);
      ticks := ticks + 1;
      var acts := StepMachine(i);
      failures := Drain(i.now, acts, takes);
      TickMetered(o, limit, clock);
      AttemptAllMetered(o.(tick := o.tick + 1), acts, limit, clock, takes);
      ForgetsFailures(Out().(failures := failures), limit, clock);
      steps, history := steps + 1, history + [i];
    }

    /** One event, and every failure it leads to: a message the bucket or the
        transport refuses is heard of before the loop ends, and none leads to
        another, so the loop takes at most one turn and one more for each
        message of the first. */
    method Dispatch(ev: Event, takes: Stamped -> bool)
      requires Valid() && Admissible(env, clock(ticks), ev)
      modifies this`lease, this`timers, this`events, this`ticks, this`steps, this`sent, this`limited, this`asked,
          this`env
      modifies this`history, machine, limiter
      ensures Valid() && lease == machine.m.lease && Since(old(Out()), Out(), limit)
      ensures old(history) < history && history[|old(history)|].ev == ev
      ensures forall k :: |old(history)| < k < |history| ==> history[k].ev.ActionFailed?
      ensures |history| - |old(history)| <= 1 + SendCount(Emitted(old(Now()), history[|old(history)|]))
    {
      hide Inv, StepBody, Executed, Admissible, Play, Legal, Next, AttemptAll, Metered, Emitted, SendCount,
           Since;
      var queue := [ev];
      ghost var before, start := |history|, Out();
      SinceSelf(start, limit);
      while queue != []
        invariant Since(start, Out(), limit)
        invariant Valid() && before <= |history| && old(history) <= history
        invariant |history| == before ==>
                    queue == [ev] && Now() == old(Now()) && ticks == old(ticks) && steps == old(steps)
        invariant |history| > before ==>
                    && history[before] == Input(clock(old(ticks)), entropy(old(steps)), ev)
                    && (forall k :: before < k < |history| ==> history[k].ev.ActionFailed?)
                    && (forall k :: 0 <= k < |queue| ==> queue[k].ActionFailed?)
                    && |history| - before + |queue| <= 1 + SendCount(Emitted(old(Now()), history[before]))
        decreases if |history| == before then 1 else 0, |queue|
      {
        var next := queue[0];
        ghost var w, past, o := Now(), history, Out();
        ghost var i := Input(clock(ticks), entropy(steps), next);
        if |past| > before {
          FailureIsLegal(w, i);
          FailureSendsNothing(w, i);
        }
        var failures := Turn(next, takes);
        SinceChains(start, o, Out(), limit);
        FailuresAreUnsent(o.(tick := o.tick + 1), Emitted(w, i), clock, takes);
        queue := queue[1..] + failures;
      }
      PlayKeepsInv(first, history);
      InvMirrors(machine.m, env);
    }
  }

  lemma AttemptPrefix(o: Outbox, before: seq<Event>, a: Stamped, clock: nat -> Instant, takes: Stamped -> bool)
    requires o.failures == []
    ensures
      var p := Attempt(o, a, clock, takes);
      Attempt(o.(failures := before), a, clock, takes) == p.(failures := before + p.failures)
  {
  }

  lemma AttemptOther(o: Outbox, a: Stamped, clock: nat -> Instant, takes: Stamped -> bool)
    requires !a.act.Send?
    ensures Attempt(o, a, clock, takes) == o
  {
  }

  lemma TickMetered(o: Outbox, b: RateLimit.State, clock: nat -> Instant)
    requires Metered(o, b, clock) && Steady(clock)
    ensures Metered(o.(tick := o.tick + 1), b, clock) && clock(o.tick) <= clock(o.tick + 1)
  {
  }

  lemma ForgetsFailures(o: Outbox, b: RateLimit.State, clock: nat -> Instant)
    ensures Metered(o, b, clock) ==> Metered(o.(failures := []), b, clock)
  {
  }

  lemma NextIsNow(w: World, i: Input)
    ensures Next(w, i).e.now == i.now
  {
    hide StepBody, Executed;
  }

  lemma FailureIsLegal(w: World, i: Input)
    requires i.ev.ActionFailed? && w.e.now <= i.now
    ensures Admissible(w.e, i.now, i.ev)
  {
  }

  lemma InvMirrors(m: Client, e: Env)
    requires Inv(m, e)
    ensures e.held == m.lease
  {
  }

  lemma Extends(w0: World, ins: seq<Input>, i: Input, w: World)
    requires Legal(w0, ins) && Play(w0, ins) == w && Admissible(w.e, i.now, i.ev)
    ensures Legal(w0, ins + [i]) && Play(w0, ins + [i]) == Next(w, i)
  {
    hide Next, Admissible;
    var all, k := ins + [i], |ins|;
    assert all[..k] == ins;
    forall j | 0 <= j < |all| ensures Admissible(Play(w0, all[..j]).e, all[j].now, all[j].ev) {
      if j < k {
        assert ins[..j] == all[..j];
      }
    }
  }

  /** Between any two moments of a manager's life the messages put on the wire
      cost no more than one full bucket and what the time from the first call
      between them to the last refilled, whatever the client asks for. */
  lemma SentWithinLimit(o: Outbox, p: Outbox, b: RateLimit.State, clock: nat -> Instant)
    requires Metered(p, b, clock) && Since(o, p, b) && |o.asked| < |p.asked| && RateLimit.Unused(b)
    ensures
      var i, j := |o.asked|, |p.asked| - 1;
      (p.sent - o.sent) * b.limit.interval <= b.limit.messages * (b.limit.interval + p.asked[j] - p.asked[i])
  {
    hide RateLimit.Run, RateLimit.Accepted;
    var i, n := |o.asked|, |p.asked|;
    RateLimit.WindowBound(b, p.asked, i, n - 1);
    MulOrder(p.sent - o.sent, RateLimit.Accepted(b, p.asked, i, n), b.limit.interval);
  }

  lemma MulOrder(x: int, y: int, a: int)
    requires 0 <= a && x <= y
    ensures x * a <= y * a
  {
  }
}
