/** The durable record of one endpoint as a fold of its event log. */
module Record {
  import opened Clock
  import opened Lease

  datatype Family = FamilyUnset | FamilyV4 | FamilyV6

  datatype Phase =
    | PhaseUnset | PhaseReserved | PhaseCreated | PhaseJoined | PhaseLeft | PhaseRetained | PhaseAdopted | PhaseClosed

  datatype Op =
    | OpReserve | OpCreate | OpRebind | OpAdopt | OpBind | OpLease | OpLost | OpLeave | OpRetain | OpClose | OpStats
    | OpExtra | OpUnknown

  datatype Kind = Acquired | Changed | Renewed | Configured | Failed | Lost | KindUnknown

  datatype Reason = ReasonStopped | ReasonNak | ReasonNoServer | ReasonConflict | ReasonExpired | ReasonOther

  datatype RejectReason =
    | RejectNone | RejectNoRecord | RejectExists | RejectPhase | RejectIdentity | RejectSeq | RejectScope | RejectID
    | RejectStats | RejectPayload | RejectFamily | RejectManager

  type Octets = seq<nat>

  /** A counter of the manager's, one machine word. */
  type Word = x: int | 0 <= x < TWO_64

  /** The wire counters, by position. */
  const WIRE_FIELDS: nat := 61

  function Zeros(n: nat): (s: seq<Word>)
    ensures |s| == n && forall i :: 0 <= i < n ==> s[i] == 0
  {
    if n == 0 then [] else Zeros(n - 1) + [0]
  }

  type Wire = s: seq<Word> | |s| == WIRE_FIELDS witness Zeros(WIRE_FIELDS)

  const NO_WIRE: Wire := Zeros(WIRE_FIELDS)

  function Plus(a: Word, b: int): Word { (a + b) % TWO_64 }

  datatype Counters = Counters(acquisitions: Word, changes: Word, renewals: Word, losses: Word, stoppedNotLost: Word,
                               configurations: Word, failures: Word, naks: Word, timeouts: Word, conflicts: Word,
                               expiries: Word, rejects: Word, wire: Wire)

  const NO_COUNTERS := Counters(0, 0, 0, 0, 0, 0, 0, 0, 0, 0, 0, 0, NO_WIRE)

  datatype Held = Held(addr: Option<Addr>, is4: bool, expire: Option<Instant>, content: int)

  const NO_HELD := Held(None, false, None, 0)

  datatype Record = Record(id: string, scope: string, family: Family, chaddr: Octets, identity: Octets,
                           params: Option<int>, params6: Option<int>, declined: seq<Addr>, lease: Held, held: bool,
                           phase: Phase, acd: nat, dad: nat, config: int, deadline: Option<Instant>, stepsRef: string,
                           counters: Counters, extra: map<string, Word>, seqNo: nat, instance: string,
                           lastReject: RejectReason, statsBase: Wire, statsManager: string, statsSeen: set<string>)
  {
    /** The lease a new client may start from. */
    function Resume(now: Instant): Option<Held> {
      if held && phase != PhaseUnset && phase != PhaseRetained && phase != PhaseClosed && lease.addr.Some?
         && (lease.expire.None? || lease.expire.value > now)
      then Some(lease) else None
    }

    /** The address a new client may ask for, where it has no lease to resume. */
    function Prefer(now: Instant): Option<Addr> {
      if Resume(now).Some? || phase == PhaseUnset || phase == PhaseClosed then None
      else if lease.addr.Some? && lease.is4 && lease.addr.value != 0 then lease.addr else None
    }
  }

  const NO_RECORD := Record("", "", FamilyUnset, [], [], None, None, [], NO_HELD, false, PhaseUnset, 0, 0, 0, None, "",
                            NO_COUNTERS, map[], 0, "", RejectNone, NO_WIRE, "", {})

  datatype Event = Event(id: string, op: Op, seqNo: nat, instance: string, manager: string, scope: string,
                         family: Family, chaddr: Octets, identity: Octets, params: Option<int>, params6: Option<int>,
                         declined: seq<Addr>, deadline: Option<Instant>, stepsRef: string, kind: Kind,
                         lease: Option<Held>, reason: Reason, acd: nat, dad: nat, config: Option<int>,
                         stats: Option<Wire>, extra: map<string, Word>)

  /** What a fold gives: the next record, and why the event was refused if it was. */
  datatype Verdict = Verdict(rec: Record, reject: RejectReason) {
    predicate Accepted() { reject == RejectNone }
  }

  function Reject(rec: Record, why: RejectReason): Verdict {
    Verdict(rec.(counters := rec.counters.(rejects := Plus(rec.counters.rejects, 1)), lastReject := why), why)
  }

  predicate Creating(rec: Record, ev: Event) {
    ev.op == OpReserve || ev.op == OpAdopt || (ev.op == OpCreate && rec.phase == PhaseUnset)
  }

  function FamilyOf(ev: Event, rec: Record): Family { if ev.family != FamilyUnset then ev.family else rec.family }

  /** The checks every operation shares, in order. */
  function Envelope(rec: Record, ev: Event): RejectReason {
    var known := rec.phase != PhaseUnset;
    var creating := Creating(rec, ev);
    if ev.id == "" then RejectID
    else if !known && !creating then RejectNoRecord
    else if known && ev.id != rec.id then RejectID
    else if known && creating then RejectExists
    else if known && ev.scope != "" && ev.scope != rec.scope then RejectScope
    else if !creating && ev.seqNo <= rec.seqNo then RejectSeq
    else if ev.identity != [] && rec.identity != [] && ev.identity != rec.identity then RejectIdentity
    else if creating && ev.family == FamilyV6 && ev.identity == [] then RejectIdentity
    else if ev.family != FamilyUnset && rec.family != FamilyUnset && ev.family != rec.family then RejectFamily
    else if FamilyOf(ev, rec) == FamilyV6 && ev.params.Some? then RejectFamily
    else if FamilyOf(ev, rec) == FamilyV4 && ev.params6.Some? then RejectFamily
    else if ev.params.Some? && ev.params6.Some? then RejectFamily
    else RejectNone
  }

  predicate HoldsAnAddress(p: Phase) {
    p == PhaseReserved || p == PhaseCreated || p == PhaseJoined || p == PhaseAdopted
  }

  /** Some counter is lower than it was. */
  predicate Backwards(now: Wire, base: Wire) { exists i :: 0 <= i < WIRE_FIELDS && now[i] < base[i] }

  function Grown(w: int, now: int, base: int): Word { (w + (now - base)) % TWO_64 }

  function Added(w: Wire, now: Wire, base: Wire): Wire {
    seq(WIRE_FIELDS, i requires 0 <= i < WIRE_FIELDS => Grown(w[i], now[i], base[i]))
  }

  /** The counters as the program adds to them: in place, field by field, and
      abandoned where one has gone backwards. */
  method AddDelta(w: array<Word>, now: Wire, base: Wire) returns (bad: Option<nat>)
    requires w.Length == WIRE_FIELDS
    modifies w
    ensures bad.None? <==> !Backwards(now, base)
    ensures bad.None? ==> w[..] == Added(old(w[..]), now, base)
    ensures bad.Some? ==> bad.value < WIRE_FIELDS && now[bad.value] < base[bad.value]
                          && forall j :: 0 <= j < bad.value ==> now[j] >= base[j]
  {
    var i := 0;
    while i < WIRE_FIELDS
      invariant 0 <= i <= WIRE_FIELDS
      invariant forall j :: 0 <= j < i ==> now[j] >= base[j] && w[j] == Grown(old(w[j]), now[j], base[j])
      invariant forall j :: i <= j < WIRE_FIELDS ==> w[j] == old(w[j])
    {
      if now[i] < base[i] {
        return Some(i);
      }
      w[i] := (w[i] + (now[i] - base[i])) % TWO_64;
      i := i + 1;
    }
    return None;
  }

  function FoldLease(rec: Record, ev: Event): Verdict {
    var n := rec.counters;
    match ev.kind
    case Configured =>
      if ev.config.None? then Verdict(rec, RejectPayload)
      else Verdict(rec.(config := ev.config.value, counters := n.(configurations := Plus(n.configurations, 1))),
                   RejectNone)
    case Failed =>
      var n := n.(failures := Plus(n.failures, 1));
      var n := match ev.reason
               case ReasonNak => n.(naks := Plus(n.naks, 1))
               case ReasonNoServer => n.(timeouts := Plus(n.timeouts, 1))
               case ReasonConflict => n.(conflicts := Plus(n.conflicts, 1))
               case _ => n;
      Verdict(rec.(counters := n), RejectNone)
    case Lost => Verdict(rec, RejectPayload)
    case KindUnknown => Verdict(rec, RejectPayload)
    case _ =>
      if ev.lease.None? then Verdict(rec, RejectPayload)
      else
        var n := match ev.kind
                 case Acquired => n.(acquisitions := Plus(n.acquisitions, 1))
                 case Changed => n.(changes := Plus(n.changes, 1))
                 case _ => n.(renewals := Plus(n.renewals, 1));
        Verdict(rec.(lease := ev.lease.value, held := true, acd := ev.acd, dad := ev.dad, counters := n), RejectNone)
  }

  /** A lease lost by stopping is still the record's; any other is gone. */
  function FoldLost(rec: Record, ev: Event): Record {
    var rec := rec.(acd := ev.acd, dad := ev.dad);
    var n := rec.counters;
    if ev.reason == ReasonStopped then rec.(counters := n.(stoppedNotLost := Plus(n.stoppedNotLost, 1)))
    else
      var n := n.(losses := Plus(n.losses, 1));
      var n := match ev.reason
               case ReasonConflict => n.(conflicts := Plus(n.conflicts, 1))
               case ReasonExpired => n.(expiries := Plus(n.expiries, 1))
               case _ => n;
      rec.(counters := n, lease := NO_HELD, held := false)
  }

  /** A manager's snapshot adds what it counted since its last one; a manager
      once replaced may not come back. */
  function FoldStats(rec: Record, ev: Event): Verdict {
    if ev.stats.None? || ev.manager == "" then Verdict(rec, RejectPayload)
    else if ev.manager != rec.statsManager && ev.manager in rec.statsSeen then Verdict(rec, RejectManager)
    else
      var base := if ev.manager == rec.statsManager then rec.statsBase else NO_WIRE;
      if Backwards(ev.stats.value, base) then Verdict(rec, RejectStats)
      else
        var n := rec.counters;
        Verdict(rec.(counters := n.(wire := Added(n.wire, ev.stats.value, base)), statsBase := ev.stats.value,
                     statsManager := ev.manager, statsSeen := rec.statsSeen + {ev.manager}), RejectNone)
  }

  function AddExtra(a: map<string, Word>, b: map<string, Word>): map<string, Word> {
    map k | k in a.Keys + b.Keys :: if k !in b then a[k] else if k in a then Plus(a[k], b[k]) else b[k]
  }

  function Operate(rec: Record, ev: Event): Verdict {
    match ev.op
    case OpReserve => Verdict(rec.(phase := PhaseReserved), RejectNone)
    case OpCreate =>
      if rec.phase != PhaseUnset && rec.phase != PhaseReserved then Verdict(rec, RejectPhase)
      else Verdict(rec.(phase := PhaseCreated), RejectNone)
    case OpRebind =>
      if rec.phase != PhaseRetained then Verdict(rec, RejectPhase)
      else Verdict(rec.(phase := PhaseCreated, deadline := None), RejectNone)
    case OpAdopt => Verdict(rec.(phase := PhaseAdopted), RejectNone)
    case OpBind =>
      if rec.phase != PhaseCreated && rec.phase != PhaseAdopted then Verdict(rec, RejectPhase)
      else Verdict(rec.(phase := PhaseJoined), RejectNone)
    case OpLease => if !HoldsAnAddress(rec.phase) then Verdict(rec, RejectPhase) else FoldLease(rec, ev)
    case OpLost =>
      if !HoldsAnAddress(rec.phase) then Verdict(rec, RejectPhase) else Verdict(FoldLost(rec, ev), RejectNone)
    case OpLeave =>
      if rec.phase != PhaseJoined then Verdict(rec, RejectPhase) else Verdict(rec.(phase := PhaseLeft), RejectNone)
    case OpRetain =>
      if !HoldsAnAddress(rec.phase) && rec.phase != PhaseLeft then Verdict(rec, RejectPhase)
      else Verdict(rec.(phase := PhaseRetained), RejectNone)
    case OpClose => Verdict(rec.(phase := PhaseClosed), RejectNone)
    case OpStats => FoldStats(rec, ev)
    case OpExtra =>
      if ev.extra == map[] then Verdict(rec, RejectPayload)
      else Verdict(rec.(extra := AddExtra(rec.extra, ev.extra)), RejectNone)
    case OpUnknown => Verdict(rec, RejectPhase)
  }

  /** What every accepted event writes, whatever its operation. */
  function Stamp(rec: Record, ev: Event): Record {
    var unset := rec.phase != PhaseRetained && (ev.op == OpRebind || ev.op == OpCreate || ev.op == OpBind);
    rec.(id := ev.id, seqNo := ev.seqNo, instance := ev.instance,
         scope := if ev.scope != "" then ev.scope else rec.scope,
         family := if ev.family != FamilyUnset then ev.family else rec.family,
         chaddr := if ev.chaddr != [] then ev.chaddr else rec.chaddr,
         identity := if ev.identity != [] then ev.identity else rec.identity,
         params := if ev.params.Some? then ev.params else rec.params,
         params6 := if ev.params6.Some? then ev.params6 else rec.params6,
         declined := if ev.declined != [] then ev.declined else rec.declined,
         stepsRef := if ev.stepsRef != "" then ev.stepsRef else rec.stepsRef,
         deadline := if unset then None else if ev.deadline.Some? then ev.deadline else rec.deadline)
  }

  function Fold(rec: Record, ev: Event): Verdict {
    var why := Envelope(rec, ev);
    if why != RejectNone then Reject(rec, why)
    else
      var v := Operate(rec, ev);
      if v.reject != RejectNone then Reject(rec, v.reject) else Verdict(Stamp(v.rec, ev), RejectNone)
  }

  // ------------------------------------------------------------- refusals --

  /** The record less what a refusal writes. */
  function Bare(rec: Record): Record { rec.(counters := rec.counters.(rejects := 0), lastReject := RejectNone) }

  predicate Alike(a: Record, b: Record) { Bare(a) == Bare(b) }

  /** Nothing a refusal writes is ever read, and it writes nothing else. */
  lemma FoldIgnoresRefusals(a: Record, b: Record, ev: Event)
    requires Alike(a, b)
    ensures Fold(a, ev).reject == Fold(b, ev).reject && Alike(Fold(a, ev).rec, Fold(b, ev).rec)
    ensures !Fold(a, ev).Accepted() ==> Alike(Fold(a, ev).rec, a)
  {
    hide Operate, Bare, Zeros;
    AlikeIff(a, b);
    OperateIgnoresRefusals(a, b, ev);
    AlikeIff(Fold(a, ev).rec, Fold(b, ev).rec);
    AlikeIff(Fold(a, ev).rec, a);
  }

  /** The two differ in nothing but those two fields. */
  lemma AlikeIff(a: Record, b: Record)
    ensures Alike(a, b) <==> OnlyRefusals(a, b)
  {
    if Alike(a, b) {
      assert Bare(a).(counters := Bare(a).counters.(rejects := b.counters.rejects), lastReject := b.lastReject) == b;
    }
  }

  predicate OnlyRefusals(a: Record, b: Record) {
    b == a.(counters := a.counters.(rejects := b.counters.rejects), lastReject := b.lastReject)
  }

  lemma FoldLeaseIgnoresRefusals(a: Record, b: Record, ev: Event)
    requires OnlyRefusals(a, b)
    ensures FoldLease(a, ev).reject == FoldLease(b, ev).reject
            && OnlyRefusals(FoldLease(a, ev).rec, FoldLease(b, ev).rec)
  {
  }

  lemma FoldLostIgnoresRefusals(a: Record, b: Record, ev: Event)
    requires OnlyRefusals(a, b)
    ensures OnlyRefusals(FoldLost(a, ev), FoldLost(b, ev))
  {
  }

  lemma FoldStatsIgnoresRefusals(a: Record, b: Record, ev: Event)
    requires OnlyRefusals(a, b)
    ensures FoldStats(a, ev).reject == FoldStats(b, ev).reject
            && OnlyRefusals(FoldStats(a, ev).rec, FoldStats(b, ev).rec)
  {
    hide Added, Backwards, Zeros;
  }

  lemma OperateIgnoresRefusals(a: Record, b: Record, ev: Event)
    requires OnlyRefusals(a, b)
    ensures Operate(a, ev).reject == Operate(b, ev).reject && OnlyRefusals(Operate(a, ev).rec, Operate(b, ev).rec)
  {
    hide FoldLease, FoldLost, FoldStats, AddExtra, HoldsAnAddress;
    match ev.op {
      case OpLease => FoldLeaseIgnoresRefusals(a, b, ev);
      case OpLost => FoldLostIgnoresRefusals(a, b, ev);
      case OpStats => FoldStatsIgnoresRefusals(a, b, ev);
      case _ =>
    }
  }
}
