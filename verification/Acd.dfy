/** Address conflict detection: the sub-machine of RFC 5227. */
module Acd {
  import opened Clock
  import opened Lease

  datatype Mode = ConflictWait | ConflictAsync | ConflictOff

  datatype Params = Params(probeWait: Duration, probeNum: int, probeMin: Duration, probeMax: Duration,
                           announceWait: Duration, announceNum: int, announceInterval: Duration,
                           maxConflicts: int, rateLimitInterval: Duration)
  {
    /** The complete timings the client accepts. */
    predicate Valid() {
      && probeWait > 0 && probeMin > 0 && probeMax > 0 && announceWait > 0 && announceInterval > 0
      && rateLimitInterval > 0 && probeNum > 0 && announceNum > 0 && maxConflicts > 0
      && probeMin <= probeMax
    }
  }

  type Hardware = seq<nat>

  datatype Packet = Packet(request: bool, senderHW: Hardware, senderIP: Addr, targetIP: Addr) {
    predicate IsProbe() { request && senderIP == 0 }
  }

  datatype Phase = Idle | Probing | Settling | Announcing | Defending

  datatype Output =
    | SendProbe
    | SendAnnounce
    | SetTimer(after: Duration)
    | CancelTimer
    | Ready
    | Conflict

  datatype State = State(params: Params, phase: Phase, addr: Option<Addr>, hw: Hardware, sent: int,
                         attemptAt: Instant, conflicts: nat)
  {
    predicate Running() { !phase.Idle? }

    function Stop(): State { this.(phase := Idle, addr := None, sent := 0) }

    function Start(now: Instant, rnd: Entropy, a: Addr): (State, seq<Output>) {
      var s := this.(addr := Some(a), sent := 0, attemptAt := now, phase := Probing);
      if params.probeNum <= 0 then (s.(phase := Settling), [SetTimer(params.announceWait)])
      else (s, [SetTimer(Uniform(0, params.probeWait, rnd))])
    }

    function Timer(rnd: Entropy): (State, seq<Output>) {
      match phase
      case Probing =>
        var s := this.(sent := sent + 1);
        if s.sent < params.probeNum then
          (s, [SendProbe] + [SetTimer(Uniform(params.probeMin, params.probeMax, rnd))])
        else (s.(phase := Settling), [SendProbe] + [SetTimer(params.announceWait)])
      case Settling =>
        var (s, out) := this.(phase := Announcing, sent := 0).Announce();
        (s, out + [Ready])
      case Announcing => Announce()
      case _ => (this, [])
    }

    function Announce(): (State, seq<Output>) {
      if params.announceNum <= 0 then (this.(phase := Defending), [CancelTimer])
      else
        var s := this.(sent := sent + 1);
        if s.sent < params.announceNum then (s, [SendAnnounce] + [SetTimer(params.announceInterval)])
        else (s.(phase := Defending), [SendAnnounce] + [CancelTimer])
    }

    predicate IsOurs(b: Hardware) { b != [] && b == hw }

    /** Somebody else claims the address, or probes for it while we do. */
    predicate Conflicts(p: Packet) {
      match phase
      case Probing => ClaimedBy(p) || ProbedBy(p)
      case Settling => ClaimedBy(p) || ProbedBy(p)
      case Announcing => ClaimedBy(p)
      case Defending => ClaimedBy(p)
      case Idle => false
    }

    predicate ClaimedBy(p: Packet) { addr == Some(p.senderIP) && !IsOurs(p.senderHW) }

    predicate ProbedBy(p: Packet) { p.IsProbe() && addr == Some(p.targetIP) && !IsOurs(p.senderHW) }

    function Arp(p: Packet): (State, seq<Output>) {
      if addr.None? || !Conflicts(p) then (this, [])
      else (this.(conflicts := conflicts + 1).Stop(), [Conflict])
    }

    /** Worth waking the machine for: neither address is the one being watched otherwise. */
    predicate Relevant(p: Packet) {
      Running() && addr.Some? && (p.senderIP == addr.value || p.targetIP == addr.value)
    }

    predicate RateLimited() { params.maxConflicts > 0 && conflicts >= params.maxConflicts }

    /** The wait before the next attempt, measured from the last one once the
        client has met too many conflicts. */
    function RestartDelay(now: Instant, base: Duration): (d: Duration)
      ensures d >= base
      ensures RateLimited() ==> now + d >= attemptAt + params.rateLimitInterval
      ensures !RateLimited() ==> d == base
    {
      if !RateLimited() then base else Max(attemptAt + params.rateLimitInterval - now, base)
    }
  }

  function New(p: Params, hw: Hardware): State { State(p, Idle, None, hw, 0, 0, 0) }

  /** The filter the manager puts in front of the machine drops no packet the
      machine would have acted on. */
  lemma IrrelevantNeverConflicts(s: State, p: Packet)
    requires s.Conflicts(p)
    ensures s.addr.Some? ==> s.Relevant(p)
  {
  }

  /** The sub-machine as the client holds it. */
  class Detector {
    const params: Params
    const hw: Hardware
    var phase: Phase
    var addr: Option<Addr>
    var sent: int
    var attemptAt: Instant
    var conflicts: nat

    function View(): State reads this { State(params, phase, addr, hw, sent, attemptAt, conflicts) }

    constructor (p: Params, own: Hardware)
      ensures View() == New(p, own)
    {
      params, hw, phase, addr, sent, attemptAt, conflicts := p, own, Idle, None, 0, 0, 0;
    }

    method Stop()
      modifies this
      ensures View() == old(View()).Stop()
    {
      phase, addr, sent := Idle, None, 0;
    }

    method Start(now: Instant, rnd: Entropy, a: Addr) returns (out: seq<Output>)
      modifies this
      ensures (View(), out) == old(View()).Start(now, rnd, a)
    {
      addr, sent, attemptAt, phase := Some(a), 0, now, Probing;
      if params.probeNum <= 0 {
        phase := Settling;
        return [SetTimer(params.announceWait)];
      }
      return [SetTimer(Uniform(0, params.probeWait, rnd))];
    }

    method Timer(rnd: Entropy) returns (out: seq<Output>)
      modifies this
      ensures (View(), out) == old(View()).Timer(rnd)
    {
      match phase {
        case Probing =>
          out := [SendProbe];
          sent := sent + 1;
          if sent < params.probeNum {
            return out + [SetTimer(Uniform(params.probeMin, params.probeMax, rnd))];
          }
          phase := Settling;
          return out + [SetTimer(params.announceWait)];
        case Settling =>
          phase, sent := Announcing, 0;
          out := Announce();
          return out + [Ready];
        case Announcing =>
          out := Announce();
        case _ =>
          out := [];
      }
    }

    method Announce() returns (out: seq<Output>)
      modifies this
      ensures (View(), out) == old(View()).Announce()
    {
      if params.announceNum <= 0 {
        phase := Defending;
        return [CancelTimer];
      }
      out := [SendAnnounce];
      sent := sent + 1;
      if sent < params.announceNum {
        return out + [SetTimer(params.announceInterval)];
      }
      phase := Defending;
      return out + [CancelTimer];
    }

    method Arp(p: Packet) returns (out: seq<Output>)
      modifies this
      ensures (View(), out) == old(View()).Arp(p)
    {
      if addr.None? || !View().Conflicts(p) {
        return [];
      }
      conflicts := conflicts + 1;
      Stop();
      return [Conflict];
    }
  }
}
