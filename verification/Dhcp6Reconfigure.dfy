/** Reconfigure, sections 16.11, 18.2.11 and 20.3 of RFC 9915: every message is
    accounted for once, and no server's replay value is accepted twice. */
module Dhcp6Reconfigure {
  import opened Clock
  import opened Lease
  import opened Lease6
  import opened Dhcp6
  import opened Dhcp6Invariant
  import opened Dhcp6Runs

  /** The message passes every check, the client's state included. */
  predicate Accepts(m: Client, ev: Event) {
    IsReconfigure(ev) && ReconfigureFault(m, ev.msg.value, ev.raw, ev.dst).None?
  }

  function Decided(m: Client): nat { m.counts.accepted + |m.counts.refused| }

  /** Each Reconfigure raises exactly one counter, the accepted one or that of
      its first failing check, and no other event raises any. */
  lemma EachReconfigureCountedOnce(m: Client, e: Env, now: Instant, rnd: Entropy, ev: Event)
    ensures
      var r, n := Advance(m, e, now, rnd, ev).m, m.counts;
      r.counts == if !IsReconfigure(ev) then n
                  else if Accepts(m, ev) then n.(accepted := n.accepted + 1)
                  else n.(refused := n.refused + multiset{ReconfigureFault(m, ev.msg.value, ev.raw, ev.dst).value})
    ensures Decided(Advance(m, e, now, rnd, ev).m) == Decided(m) + if IsReconfigure(ev) then 1 else 0
  {
    hide Executed, ReconfigureFault, StepState, Respond, ExpireLease, TakeHostname, NoteActionFailed, ObserveRouter;
  }

  /** What passing means: one server, known by its key, whose digest verifies
      over a replay value above its last, and a client in a state to answer. */
  lemma AcceptedIsAuthentic(m: Client, ev: Event)
    requires Accepts(m, ev)
    ensures
      var msg := ev.msg.value;
      && |msg.servers| == 1 && msg.client == Some(m.params.duid) && m.msgType.None? && IsUnicast(ev.dst)
      && msg.auth.RKAP? && msg.Server() in m.reconf
      && var s := m.reconf[msg.Server()];
         && s.key.Some? && s.key.value in ev.raw.verifiesUnder && (s.seen ==> msg.auth.replay > s.replay)
         && (m.state == Bound || m.state == InfoRequesting)
  {
  }

  predicate NoLower(a: Option<nat>, b: Option<nat>) { a.Some? ==> b.Some? && a.value <= b.value }

  function ReplayOf(ev: Event): nat {
    if ev.Received? && ev.msg.Some? && ev.msg.value.auth.RKAP? then ev.msg.value.auth.replay else 0
  }

  /** The message is accepted, and from this server. */
  predicate AcceptsFrom(m: Client, ev: Event, sid: Duid) { Accepts(m, ev) && ev.msg.value.Server() == sid }

  /** The floor comes up to the replay value. */
  predicate Raised(before: Option<nat>, after: Option<nat>, replay: nat) {
    after == Some(replay) && (before.Some? ==> before.value < replay)
  }

  /** No step lowers any server's floor, and only accepting from it moves it:
      to the accepted value, above the one before. */
  lemma FloorMoves(m: Client, e: Env, now: Instant, rnd: Entropy, ev: Event, sid: Duid)
    ensures
      var before, after := Floor(m.reconf, sid), Floor(Advance(m, e, now, rnd, ev).m.reconf, sid);
      if AcceptsFrom(m, ev, sid) then Raised(before, after, ReplayOf(ev)) else after == before
  {
    hide Executed, ReconfigureFault, StepState, Respond, ExpireLease, TakeHostname, NoteActionFailed, ObserveRouter;
    if Accepts(m, ev) {
      AcceptedIsAuthentic(m, ev);
    }
  }

  lemma {:induction false} FloorsNeverDrop(w: World, ins: seq<Input>, sid: Duid)
    ensures NoLower(Floor(w.m.reconf, sid), Floor(Play(w, ins).m.reconf, sid))
  {
    hide StepBody, Accepts, Floor;
    if ins != [] {
      var k := |ins| - 1;
      FloorsNeverDrop(w, ins[..k], sid);
      var v := Play(w, ins[..k]);
      FloorMoves(v.m, v.e, ins[k].now, ins[k].rnd, ins[k].ev, sid);
    }
  }

  /** Over a client's whole life, stops and restarts included, and whatever
      runs in between: the replay values it accepts from one server strictly
      increase. */
  lemma AcceptedReplaysIncrease(w: World, first: Input, ins: seq<Input>, last: Input)
    requires Accepts(w.m, first.ev) && Accepts(Play(Next(w, first), ins).m, last.ev)
    requires first.ev.msg.value.Server() == last.ev.msg.value.Server()
    ensures ReplayOf(first.ev) < ReplayOf(last.ev)
  {
    hide StepBody, Floor, Play, ReconfigureFault;
    var sid := first.ev.msg.value.Server();
    FloorMoves(w.m, w.e, first.now, first.rnd, first.ev, sid);
    AcceptedIsAuthentic(w.m, first.ev);
    FloorsNeverDrop(Next(w, first), ins, sid);
    var v := Play(Next(w, first), ins);
    FloorMoves(v.m, v.e, last.now, last.rnd, last.ev, sid);
    AcceptedIsAuthentic(v.m, last.ev);
  }

  /** A key remembered across a restart brings its floor with it. */
  lemma SeededFloor(p: Params, now: Instant)
    requires p.resume.Some? && p.resume.value.authority.Some? && p.resume.value.authority.value.key.Some?
    ensures
      var a := p.resume.value.authority.value;
      Floor(New(p).reconf, p.resume.value.server) == if a.seen || a.replay != 0 then Some(a.replay) else None
  {
  }
}
