/** The wait before an address is used, sections 2.1.1 and 2.3 of RFC 5227:
    what must have happened between a DHCPACK and the lease it grants. */
module Dhcp4Gate {
  import opened Clock
  import opened Lease
  import opened Dhcp4
  import opened Dhcp4Invariant
  import opened Dhcp4Runs
  import Acd

  /** A packet that claims the address, or probes for it, from other hardware. */
  predicate Contests(pkt: Acd.Packet, addr: Addr, own: Acd.Hardware) {
    && (pkt.senderIP == addr || (pkt.IsProbe() && pkt.targetIP == addr))
    && !(pkt.senderHW != [] && pkt.senderHW == own)
  }

  /** An event that ends a check without a lease. */
  predicate Contrary(ev: Event, addr: Addr, own: Acd.Hardware) {
    || ev.Stop? || ev.Release? || ev.LinkDown? || ev.ConflictDetected?
    || (ev.ARPReceived? && ev.pkt.Some? && Contests(ev.pkt.value, addr, own))
  }

  predicate Quiet(ins: seq<Input>, addr: Addr, own: Acd.Hardware) {
    forall k :: 0 <= k < |ins| ==> !Contrary(ins[k].ev, addr, own)
  }

  /** Probes for the address, none before the given moment and no two closer
      than the minimum spacing. */
  predicate Probes(s: seq<SentARP>, addr: Addr, since: Instant, spacing: Duration) {
    && (forall i :: 0 <= i < |s| ==> s[i].senderIP == 0 && s[i].targetIP == addr && since <= s[i].at)
    && (forall i :: 0 < i < |s| ==> s[i - 1].at + spacing <= s[i].at)
  }

  /** When the next conflict timer is due, after sent probes: never sooner than
      the bounds say, and never later either while timers fire on time. */
  predicate DueWithin(p: Acd.Params, sent: int, since: Instant, last: bool, at: Instant, onTime: bool) {
    var wait := if last then p.announceWait else 0;
    var n := if last then sent - 1 else sent;
    && since + n * p.probeMin + wait <= at
    && (onTime ==> at <= since + p.probeWait + n * p.probeMax + wait)
  }

  /** The packets sent are exactly n well spaced probes. */
  predicate Sends(before: seq<SentARP>, after: seq<SentARP>, addr: Addr, since: Instant, p: Acd.Params, n: int,
                  due: Instant)
  {
    && |after| == |before| + n && before <= after
    && Probes(after[|before|..], addr, since, p.probeMin)
    && (0 < n < p.probeNum ==> after[|after| - 1].at + p.probeMin <= due)
    && since <= due
  }

  /** The step takes an acceptable DHCPACK granting this lease. */
  predicate Granted(before: World, i: Input, lease: Lease) {
    && (before.m.state.Requesting? || before.m.state.Rebooting?)
    && i.ev.Received? && Acceptable(before.m, i.ev.msg) && i.ev.msg.value.kind == Some(Ack)
    && LeaseFromAck(i.ev.msg.value, before.m.requestSentAt) == Some(lease)
  }

  /** Where a check of this lease stands that a DHCPACK began at the given
      moment, when these packets had been sent. */
  ghost predicate Track(w: World, arps: seq<SentARP>, lease: Lease, since: Instant, onTime: bool) {
    && w.m.state.Probing? && w.m.probing == Some(lease) && w.m.acd.Some? && w.e.armed.acd.Some?
    && var a, p, due := w.m.acd.value, w.m.params.acd, w.e.armed.acd.value;
       && (a.phase.Probing? || a.phase.Settling?) && 0 <= a.sent
       && (a.phase.Probing? ==> a.sent < p.probeNum) && (a.phase.Settling? ==> a.sent == p.probeNum)
       && Sends(arps, w.e.arps, lease.addr, since, p, a.sent, due)
       && DueWithin(p, a.sent, since, a.phase.Settling?, due, onTime)
  }

  /** A check under way since the step at ack, with nothing contrary in between. */
  ghost predicate Checking(w0: World, ins: seq<Input>, ack: nat, lease: Lease) {
    && ack < |ins|
    && var before := Play(w0, ins[..ack]);
       && Granted(before, ins[ack], lease)
       && Quiet(ins[ack + 1..], lease.addr, w0.m.params.LinkHW())
       && Track(Play(w0, ins), before.e.arps, lease, ins[ack].now, OnTime(w0, ins))
  }

  lemma TrackBegins(v: World, i: Input, onTime: bool) returns (lease: Lease)
    requires Inv(v.m, v.e) && Admissible(v.e, i.now, i.ev) && !v.m.state.Probing? && Next(v, i).m.state.Probing?
    ensures Granted(v, i, lease) && Track(Next(v, i), v.e.arps, lease, i.now, onTime)
  {
    hide Executed, StepBody, AfterAck, Pace, Watching;
    StepKeepsInv(v.m, v.e, i.now, i.rnd, i.ev);
    NextFrame(v, i);
    lease := LeaseFromAck(i.ev.msg.value, v.m.requestSentAt).value;
    AfterAckInv(Begin(v.m, Deliver(v.e, i.now, i.ev)), i.rnd, lease);
    assert v.e.arps[|v.e.arps|..] == [];
  }

  lemma TrackContinues(v: World, i: Input, arps: seq<SentARP>, lease: Lease, since: Instant, was: bool, onTime: bool)
    requires Inv(v.m, v.e) && Admissible(v.e, i.now, i.ev) && Next(v, i).m.state.Probing?
    requires Track(v, arps, lease, since, was) && (onTime ==> was && Prompt(v.e, i.now))
    ensures Track(Next(v, i), arps, lease, since, onTime)
    ensures !Contrary(i.ev, lease.addr, v.m.params.LinkHW())
  {
    hide Executed, StepBody, Acceptable, AcdTimer, Pace, Sends, DueWithin;
    StepKeepsInv(v.m, v.e, i.now, i.rnd, i.ev);
    NextFrame(v, i);
    if i.ev == TimerFired(TimerACD) {
      ProbeTracked(v, i, arps, lease, since, was, onTime);
    } else {
      var a := v.m.acd.value;
      DueWeakens(v.m.params.acd, a.sent, since, a.phase.Settling?, v.e.armed.acd.value, was, onTime);
    }
  }

  lemma DueWeakens(p: Acd.Params, sent: int, since: Instant, last: bool, at: Instant, was: bool, onTime: bool)
    requires DueWithin(p, sent, since, last, at, was) && (onTime ==> was)
    ensures DueWithin(p, sent, since, last, at, onTime)
  {
  }

  lemma ProbeTracked(v: World, i: Input, arps: seq<SentARP>, lease: Lease, since: Instant, was: bool, onTime: bool)
    requires Inv(v.m, v.e) && Admissible(v.e, i.now, i.ev) && Next(v, i).m.state.Probing?
    requires i.ev == TimerFired(TimerACD) && Next(v, i) == Timed(v, i)
    requires Track(v, arps, lease, since, was) && (onTime ==> was && Prompt(v.e, i.now))
    ensures Track(Next(v, i), arps, lease, since, onTime)
  {
    hide Executed, AcdTimer, Pace, Sends, DueWithin, Next;
    var c := Begin(v.m, Deliver(v.e, i.now, i.ev));
    var a, p := v.m.acd.value, v.m.params.acd;
    if a.phase.Settling? {
      SettledProbing(c, i.rnd);
    } else {
      ProbeStep(c, i.rnd);
      var due := v.e.armed.At(TimerACD).value;
      SendsOne(arps, v.e.arps, lease.addr, since, p, a.sent, due, i.now, AcdTimer(c, i.rnd).env().armed.acd.value);
      DueAgain(p, a.sent, since, due, i.now, AcdTimer(c, i.rnd).env().armed.acd.value, i.rnd, was, onTime);
    }
  }

  function Timed(v: World, i: Input): World {
    var c := AcdTimer(Begin(v.m, Deliver(v.e, i.now, i.ev)), i.rnd);
    World(c.m, c.env())
  }

  /** The last wait ends the check. */
  lemma SettledProbing(c: Ctx, rnd: Entropy)
    requires AcdDue(c) && c.m.acd.value.phase.Settling? && c.m.state.Probing?
    ensures !AcdTimer(c, rnd).m.state.Probing?
  {
    hide Executed, AcdTimer, Pace, EnterBoundNew, Announced;
    SettleStep(c, rnd);
    AnnouncedHolds(c, rnd);
    var d := Announced(c, rnd);
    EnterBoundNewInv(d.(m := d.m.(probing := None)), rnd, c.m.probing.value);
  }

  lemma SendsOne(before: seq<SentARP>, after: seq<SentARP>, addr: Addr, since: Instant, p: Acd.Params, n: int,
                 due: Instant, now: Instant, next: Instant)
    requires 0 <= n < p.probeNum && p.Valid() && Sends(before, after, addr, since, p, n, due) && due <= now
    requires n + 1 < p.probeNum ==> now + p.probeMin <= next
    requires now <= next
    ensures Sends(before, after + [SentARP(now, 0, addr)], addr, since, p, n + 1, next)
  {
    var one := SentARP(now, 0, addr);
    assert (after + [one])[|before|..] == after[|before|..] + [one];
  }

  lemma DueAgain(p: Acd.Params, n: int, since: Instant, due: Instant, now: Instant, next: Instant, rnd: Entropy,
                 was: bool, onTime: bool)
    requires p.Valid() && 0 <= n < p.probeNum && DueWithin(p, n, since, false, due, was)
    requires due <= now && (onTime ==> was && now <= due)
    requires next == now + if n + 1 >= p.probeNum then p.announceWait else Uniform(p.probeMin, p.probeMax, rnd)
    ensures DueWithin(p, n + 1, since, n + 1 >= p.probeNum, next, onTime)
  {
    assert (n + 1) * p.probeMin == n * p.probeMin + p.probeMin;
    assert (n + 1) * p.probeMax == n * p.probeMax + p.probeMax;
  }

  /** A run that ends in a check has its beginning. */
  lemma {:induction false} CheckHasBegun(w0: World, ins: seq<Input>) returns (ack: nat, lease: Lease)
    requires Inv(w0.m, w0.e) && !w0.m.state.Probing? && Legal(w0, ins) && Play(w0, ins).m.state.Probing?
    ensures Checking(w0, ins, ack, lease)
  {
    hide Inv, Next, OnTime, Track, Granted, Quiet, Contrary, Prompt;
    var k := |ins| - 1;
    var rest, i := ins[..k], ins[k];
    LegalPrefix(w0, ins, k);
    PlayKeepsInv(w0, rest);
    var v := Play(w0, rest);
    if v.m.state.Probing? {
      ack, lease := CheckHasBegun(w0, rest);
      assert rest[..ack] == ins[..ack];
      OnTimeLast(w0, ins);
      TrackContinues(v, i, Play(w0, ins[..ack]).e.arps, lease, ins[ack].now, OnTime(w0, rest), OnTime(w0, ins));
      QuietExtends(ins, ack, lease.addr, w0.m.params.LinkHW());
    } else {
      ack := k;
      lease := TrackBegins(v, i, OnTime(w0, ins));
      QuietEmpty(ins, lease.addr, w0.m.params.LinkHW());
    }
  }

  lemma OnTimeLast(w0: World, ins: seq<Input>)
    requires |ins| > 0 && Legal(w0, ins)
    ensures OnTime(w0, ins) ==> OnTime(w0, ins[..|ins| - 1]) && Prompt(Play(w0, ins[..|ins| - 1]).e, ins[|ins| - 1].now)
  {
    hide Play, Prompt;
    LegalPrefix(w0, ins, |ins| - 1);
  }

  lemma QuietEmpty(ins: seq<Input>, addr: Addr, own: Acd.Hardware)
    ensures Quiet(ins[|ins|..], addr, own)
  {
  }

  lemma QuietExtends(ins: seq<Input>, ack: nat, addr: Addr, own: Acd.Hardware)
    requires ack < |ins| - 1 && Quiet(ins[..|ins| - 1][ack + 1..], addr, own) && !Contrary(ins[|ins| - 1].ev, addr, own)
    ensures Quiet(ins[ack + 1..], addr, own)
  {
    var k := |ins| - 1;
    assert ins[ack + 1..] == ins[..k][ack + 1..] + [ins[k]];
  }

  /** What the last step of a successful check does, and when it may. */
  ghost predicate Taken(v: World, i: Input, lease: Lease) {
    var w := Next(v, i);
    && i.ev == TimerFired(TimerACD) && v.m.probing == Some(lease) && v.m.acd.Some? && v.m.acd.value.phase.Settling?
    && w.e.arps == v.e.arps + [SentARP(i.now, lease.addr, lease.addr)]
    && w.e.acquired == v.e.acquired + 1
    && w.m.lease.Some? && w.m.lease.value.addr == lease.addr
  }

  /** While checking is on, only the end of a check takes a lease. */
  lemma OnlyChecksTake(v: World, i: Input)
    requires Inv(v.m, v.e) && Admissible(v.e, i.now, i.ev) && v.m.params.conflict.ConflictWait?
    requires Next(v, i).e.acquired != v.e.acquired
    ensures v.m.state.Probing? && v.m.probing.Some? && Taken(v, i, v.m.probing.value)
  {
    hide Executed, StepBody, AfterAck, Pace, Watching, AcdTimer;
    StepKeepsInv(v.m, v.e, i.now, i.rnd, i.ev);
    var c := Begin(v.m, Deliver(v.e, i.now, i.ev));
    if v.m.state.Probing? {
      TimerTakes(v, i);
    } else {
      var lease := LeaseFromAck(i.ev.msg.value, v.m.requestSentAt).value;
      AfterAckInv(c, i.rnd, lease);
    }
  }

  lemma TimerTakes(v: World, i: Input)
    requires Inv(v.m, v.e) && Admissible(v.e, i.now, i.ev) && v.m.state.Probing?
    requires i.ev == TimerFired(TimerACD) && Next(v, i) == Timed(v, i) && Next(v, i).e.acquired != v.e.acquired
    ensures Taken(v, i, v.m.probing.value)
  {
    hide Executed, AcdTimer, Pace, EnterBoundNew, Announced, Next;
    var c := Begin(v.m, Deliver(v.e, i.now, i.ev));
    if v.m.acd.value.phase.Probing? {
      ProbeStep(c, i.rnd);
    } else {
      SettleStep(c, i.rnd);
      AnnouncedHolds(c, i.rnd);
      var d := Announced(c, i.rnd);
      EnterBoundNewInv(d.(m := d.m.(probing := None)), i.rnd, c.m.probing.value);
    }
  }

  /** In every run, each lease taken for an address was granted by a DHCPACK
      since when exactly ProbeNum probes for that address and then one
      announcement of it were sent, and nothing else, and no contrary event
      arrived; and the time between is at least the sum of the minimum waits,
      and at most the sum of the maximum ones while timers fire on time. */
  lemma ConflictWaitGate(p: Params, start: Instant, ins: seq<Input>) returns (ack: nat, lease: Lease)
    requires p.Valid() && p.conflict.ConflictWait? && Legal(Initial(p, start), ins) && |ins| > 0
    requires Play(Initial(p, start), ins).e.acquired != Play(Initial(p, start), ins[..|ins| - 1]).e.acquired
    ensures ack < |ins| - 1 && Granted(Play(Initial(p, start), ins[..ack]), ins[ack], lease)
    ensures Quiet(ins[ack + 1..], lease.addr, p.LinkHW())
    ensures
      var w := Play(Initial(p, start), ins);
      var sent, was, n := w.e.arps, |Play(Initial(p, start), ins[..ack]).e.arps|, p.acd.probeNum;
      && w.m.lease.Some? && w.m.lease.value.addr == lease.addr
      && |sent| == was + n + 1 && Probes(sent[was..was + n], lease.addr, ins[ack].now, p.acd.probeMin)
      && sent[was + n] == SentARP(ins[|ins| - 1].now, lease.addr, lease.addr)
    ensures
      var took := ins[|ins| - 1].now - ins[ack].now;
      && (p.acd.probeNum - 1) * p.acd.probeMin + p.acd.announceWait <= took
      && (OnTime(Initial(p, start), ins) ==>
            took <= p.acd.probeWait + (p.acd.probeNum - 1) * p.acd.probeMax + p.acd.announceWait)
  {
    hide Inv, Next, OnTime, Granted, Quiet, Probes, Prompt;
    var w0, k := Initial(p, start), |ins| - 1;
    var i := ins[k];
    NewInv(p, start);
    LegalPrefix(w0, ins, k);
    PlayKeepsInv(w0, ins[..k]);
    var v := Play(w0, ins[..k]);
    OnlyChecksTake(v, i);
    ack, lease := CheckHasBegun(w0, ins[..k]);
    assert ins[..k][..ack] == ins[..ack];
    OnTimeLast(w0, ins);
    QuietExtends(ins, ack, lease.addr, p.LinkHW());
    assert v.e.armed.At(TimerACD).value <= i.now;
    if Prompt(v.e, i.now) {
      PromptBounds(v.e, i.now, TimerACD);
    }
    var was := Play(w0, ins[..ack]).e.arps;
    assert v.e.arps[|was|..] == Play(w0, ins).e.arps[|was|..|was| + p.acd.probeNum];
  }

  lemma PromptBounds(e: Env, now: Instant, t: TimerID)
    requires Prompt(e, now) && e.armed.At(t).Some?
    ensures now <= e.armed.At(t).value
  {
  }
}
