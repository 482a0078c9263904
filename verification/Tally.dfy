/** What a record's fields come to, told from the events it accepted alone. */
module Tally {
  import opened Clock
  import opened Lease
  import opened Record
  import opened Rebuild

  /** The events a record accepted, in order. */
  function Heard(evs: seq<Event>): seq<Event> {
    if evs == [] then []
    else
      var n := |evs| - 1;
      Heard(evs[..n]) + if Fold(Follow(evs[..n]), evs[n]).Accepted() then [evs[n]] else []
  }

  // -------------------------------------------------------------- counters --

  datatype Counter =
    | Acquisitions | Changes | Renewals | Losses | StoppedNotLost | Configurations | Failures | Naks | Timeouts
    | Conflicts | Expiries

  function Value(n: Counters, c: Counter): Word {
    match c
    case Acquisitions => n.acquisitions
    case Changes => n.changes
    case Renewals => n.renewals
    case Losses => n.losses
    case StoppedNotLost => n.stoppedNotLost
    case Configurations => n.configurations
    case Failures => n.failures
    case Naks => n.naks
    case Timeouts => n.timeouts
    case Conflicts => n.conflicts
    case Expiries => n.expiries
  }

  /** The events a counter is there to count. */
  predicate Counts(c: Counter, ev: Event) {
    var told, lost := ev.op == OpLease, ev.op == OpLost;
    var failed := told && ev.kind == Kind.Failed;
    match c
    case Acquisitions => told && ev.kind == Acquired
    case Changes => told && ev.kind == Changed
    case Renewals => told && ev.kind == Renewed
    case Configurations => told && ev.kind == Configured
    case Failures => failed
    case Naks => failed && ev.reason == ReasonNak
    case Timeouts => failed && ev.reason == ReasonNoServer
    case Conflicts => (failed || lost) && ev.reason == ReasonConflict
    case Losses => lost && ev.reason != ReasonStopped
    case StoppedNotLost => lost && ev.reason == ReasonStopped
    case Expiries => lost && ev.reason == ReasonExpired
  }

  function Occurrences(evs: seq<Event>, c: Counter): nat {
    if evs == [] then 0
    else Occurrences(evs[..|evs| - 1], c) + if Counts(c, evs[|evs| - 1]) then 1 else 0
  }

  /** Each counter is the number of accepted events of its kind, to the width
      of the word: none is counted twice, under another name, or when refused. */
  lemma {:induction false} CountersCountEvents(evs: seq<Event>, c: Counter)
    ensures Value(Follow(evs).counters, c) == Occurrences(Heard(evs), c) % TWO_64
  {
    hide Fold, Value, Counts, Heard, Follow, Occurrences;
    if evs == [] {
      NothingCounted(c);
    } else {
      var n := |evs| - 1;
      var rec, ev := Follow(evs[..n]), evs[n];
      CountersCountEvents(evs[..n], c);
      FoldCounts(rec, ev, c);
      FollowKeeps(evs);
      HeardLast(evs);
      OccurrencesLast(Heard(evs[..n]), ev, c);
      ModAdd(Occurrences(Heard(evs[..n]), c), if Counts(c, ev) then 1 else 0);
    }
  }

  lemma HeardLast(evs: seq<Event>)
    requires evs != []
    ensures
      var n := |evs| - 1;
      Heard(evs) == if Fold(Follow(evs[..n]), evs[n]).Accepted() then Heard(evs[..n]) + [evs[n]] else Heard(evs[..n])
  {
    hide Fold, Follow;
    assert Heard(evs[..|evs| - 1]) + [] == Heard(evs[..|evs| - 1]);
  }

  lemma OccurrencesLast(before: seq<Event>, ev: Event, c: Counter)
    ensures Occurrences(before + [ev], c) == Occurrences(before, c) + if Counts(c, ev) then 1 else 0
  {
    hide Counts;
    assert (before + [ev])[..|before|] == before;
  }

  lemma NothingCounted(c: Counter)
    ensures Value(Follow([]).counters, c) == 0 && Occurrences(Heard([]), c) == 0
  {
    hide Zeros, Fold;
  }

  lemma FoldCounts(rec: Record, ev: Event, c: Counter)
    ensures
      var v := Fold(rec, ev);
      Value(v.rec.counters, c)
      == if v.Accepted() && Counts(c, ev) then Plus(Value(rec.counters, c), 1) else Value(rec.counters, c)
  {
    hide Envelope, Operate, Counts, Plus;
    OperateCounts(rec, ev, c);
    SameTally(Operate(rec, ev).rec.counters, Stamp(Operate(rec, ev).rec, ev).counters, c);
    SameTally(rec.counters, Reject(rec, Envelope(rec, ev)).rec.counters, c);
    SameTally(rec.counters, Reject(rec, Operate(rec, ev).reject).rec.counters, c);
  }

  /** What is refused and what the wire counts are counted apart. */
  lemma SameTally(a: Counters, b: Counters, c: Counter)
    requires b == a.(rejects := b.rejects, wire := b.wire)
    ensures Value(b, c) == Value(a, c)
  {
  }

  lemma OperateCounts(rec: Record, ev: Event, c: Counter)
    ensures
      var v := Operate(rec, ev);
      v.Accepted() ==> Value(v.rec.counters, c)
                       == if Counts(c, ev) then Plus(Value(rec.counters, c), 1) else Value(rec.counters, c)
  {
    hide FoldLease, FoldLost, FoldStats, AddExtra, Plus, Value;
    if ev.op == OpLease {
      LeaseCounts(rec, ev, c);
    } else if ev.op == OpLost {
      LostCounts(rec, ev, c);
    } else if ev.op == OpStats {
      StatsCounts(rec, ev, c);
    } else {
      OthersCountNothing(rec, ev);
    }
  }

  lemma OthersCountNothing(rec: Record, ev: Event)
    requires ev.op != OpLease && ev.op != OpLost && ev.op != OpStats
    ensures Operate(rec, ev).rec.counters == rec.counters
  {
    hide FoldLease, FoldLost, FoldStats, AddExtra;
  }

  lemma LeaseCounts(rec: Record, ev: Event, c: Counter)
    requires ev.op == OpLease
    ensures
      var v := FoldLease(rec, ev);
      v.Accepted() ==> Value(v.rec.counters, c)
                       == if Counts(c, ev) then Plus(Value(rec.counters, c), 1) else Value(rec.counters, c)
  {
    hide Plus;
  }

  lemma LostCounts(rec: Record, ev: Event, c: Counter)
    requires ev.op == OpLost
    ensures Value(FoldLost(rec, ev).counters, c)
            == if Counts(c, ev) then Plus(Value(rec.counters, c), 1) else Value(rec.counters, c)
  {
    hide Plus;
  }

  lemma StatsCounts(rec: Record, ev: Event, c: Counter)
    ensures Value(FoldStats(rec, ev).rec.counters, c) == Value(rec.counters, c)
  {
    hide Added, Backwards, Zeros;
  }

  /** A record that exists is the fold's; one that does not is not there, and
      has heard nothing. */
  lemma {:induction false} FollowKeeps(evs: seq<Event>)
    requires evs != []
    ensures
      var v := Fold(Follow(evs[..|evs| - 1]), evs[|evs| - 1]);
      Follow(evs) == if v.Accepted() || Follow(evs[..|evs| - 1]).phase != PhaseUnset then v.rec
                     else Follow(evs[..|evs| - 1])
  {
    hide Fold;
    var n := |evs| - 1;
    FoldNames(Follow(evs[..n]), evs[n]);
    UnsetIsNothing(evs[..n]);
  }

  lemma UnsetIsNothing(evs: seq<Event>)
    ensures Follow(evs).phase == PhaseUnset ==> Follow(evs) == NO_RECORD
  {
    hide Fold, Zeros;
  }

  // ----------------------------------------------------------------- lease --

  predicate Grants(ev: Event) { ev.op == OpLease && (ev.kind == Acquired || ev.kind == Changed || ev.kind == Renewed) }

  /** A lease the manager gave back by stopping is not one the endpoint lost. */
  predicate TakesAway(ev: Event) { ev.op == OpLost && ev.reason != ReasonStopped }

  /** The lease of the last event that granted one, unless one since took it away. */
  function Standing(evs: seq<Event>): Option<Held> {
    if evs == [] then None
    else
      var last := evs[|evs| - 1];
      if Grants(last) then last.lease else if TakesAway(last) then None else Standing(evs[..|evs| - 1])
  }

  /** A record holds exactly the lease that stands, whatever else has happened
      to it: stopping, leaving, a new manager, a tombstone. */
  lemma {:induction false} HeldIsLastGrant(evs: seq<Event>)
    ensures
      var r, s := Follow(evs), Standing(Heard(evs));
      r.held == s.Some? && r.lease == if s.Some? then s.value else NO_HELD
  {
    hide Fold, Zeros;
    if evs != [] {
      var n := |evs| - 1;
      var rec, ev := Follow(evs[..n]), evs[n];
      HeldIsLastGrant(evs[..n]);
      FoldHolds(rec, ev);
      FollowKeeps(evs);
      HeardLast(evs);
      var before := Heard(evs[..n]);
      assert (before + [ev])[..|before|] == before;
    }
  }

  lemma FoldHolds(rec: Record, ev: Event)
    ensures
      var v := Fold(rec, ev);
      if v.Accepted() && Grants(ev) then ev.lease.Some? && v.rec.held && v.rec.lease == ev.lease.value
      else if v.Accepted() && TakesAway(ev) then !v.rec.held && v.rec.lease == NO_HELD
      else v.rec.held == rec.held && v.rec.lease == rec.lease
  {
    hide Envelope, Operate;
    OperateHolds(rec, ev);
  }

  lemma OperateHolds(rec: Record, ev: Event)
    ensures
      var v := Operate(rec, ev);
      v.Accepted() ==>
        if Grants(ev) then ev.lease.Some? && v.rec.held && v.rec.lease == ev.lease.value
        else if TakesAway(ev) then !v.rec.held && v.rec.lease == NO_HELD
        else v.rec.held == rec.held && v.rec.lease == rec.lease
  {
    hide Added, Backwards, AddExtra, Plus, Zeros;
  }

  /** Where the last event that moved the record left it. */
  function Placed(evs: seq<Event>): Phase {
    if evs == [] then PhaseUnset
    else
      match evs[|evs| - 1].op
      case OpReserve => PhaseReserved
      case OpCreate => PhaseCreated
      case OpRebind => PhaseCreated
      case OpAdopt => PhaseAdopted
      case OpBind => PhaseJoined
      case OpLeave => PhaseLeft
      case OpRetain => PhaseRetained
      case OpClose => PhaseClosed
      case _ => Placed(evs[..|evs| - 1])
  }

  lemma PlacedLast(before: seq<Event>, ev: Event)
    ensures Placed(before + [ev]) == if Placed([ev]) != PhaseUnset then Placed([ev]) else Placed(before)
  {
    assert (before + [ev])[..|before|] == before;
  }

  lemma PlacedFirst()
    ensures Placed([]) == PhaseUnset
  {
  }

  lemma {:induction false} PhaseIsLastMove(evs: seq<Event>)
    ensures Follow(evs).phase == Placed(Heard(evs))
  {
    hide Fold, Zeros, Placed;
    assert Placed([]) == PhaseUnset by { PlacedFirst(); }
    if evs != [] {
      var n := |evs| - 1;
      var rec, ev := Follow(evs[..n]), evs[n];
      PhaseIsLastMove(evs[..n]);
      FoldMoves(rec, ev);
      FollowKeeps(evs);
      HeardLast(evs);
      PlacedLast(Heard(evs[..n]), ev);
    }
  }

  lemma FoldMoves(rec: Record, ev: Event)
    ensures
      var v := Fold(rec, ev);
      v.rec.phase == if v.Accepted() && Placed([ev]) != PhaseUnset then Placed([ev]) else rec.phase
  {
    hide Envelope, FoldLease, FoldLost, FoldStats, AddExtra;
    StatsKeep(rec, ev);
    PayloadsKeepPhase(rec, ev);
  }

  /** So a new client resumes exactly the lease some event granted and none took
      away, if it names an address and has not run out, of a record the events
      left neither retained nor closed; and where it has none to resume, it
      prefers exactly the IPv4 address the record still holds. */
  lemma ResumesWhatStands(evs: seq<Event>, now: Instant)
    ensures
      var r, s, at := Follow(evs), Standing(Heard(evs)), Placed(Heard(evs));
      var stands := s.Some? && s.value.addr.Some? && (s.value.expire.None? || s.value.expire.value > now);
      var open := at != PhaseUnset && at != PhaseClosed;
      && r.Resume(now) == (if stands && open && at != PhaseRetained then s else None)
      && r.Prefer(now)
         == (if open && (!stands || at == PhaseRetained) && s.Some? && s.value.is4 && s.value.addr != Some(0)
             then s.value.addr else None)
  {
    hide Fold;
    HeldIsLastGrant(evs);
    PhaseIsLastMove(evs);
  }

  // ------------------------------------------------------------- lifecycle --

  /** A closed record stays closed, and its lease as it was, whatever comes. */
  lemma {:induction false} ClosedForGood(evs: seq<Event>, more: seq<Event>)
    requires Follow(evs).phase == PhaseClosed
    ensures
      var r, s := Follow(evs), Follow(evs + more);
      s.phase == PhaseClosed && s.held == r.held && s.lease == r.lease && s.id == r.id
  {
    hide Fold;
    if more == [] {
      assert evs + more == evs;
    } else {
      var n := |more| - 1;
      var all := evs + more;
      assert all[..|all| - 1] == evs + more[..n];
      ClosedForGood(evs, more[..n]);
      FollowKeeps(all);
      FoldClosed(Follow(evs + more[..n]), more[n]);
    }
  }

  lemma FoldClosed(rec: Record, ev: Event)
    requires rec.phase == PhaseClosed
    ensures
      var r := Fold(rec, ev).rec;
      r.phase == PhaseClosed && r.held == rec.held && r.lease == rec.lease && r.id == rec.id
  {
    hide Operate;
    if !Creating(rec, ev) {
      ClosedOperates(rec, ev);
    }
  }

  lemma ClosedOperates(rec: Record, ev: Event)
    requires rec.phase == PhaseClosed && !Creating(rec, ev)
    ensures
      var v := Operate(rec, ev);
      v.Accepted() ==>
        v.rec.phase == PhaseClosed && v.rec.held == rec.held && v.rec.lease == rec.lease && v.rec.id == rec.id
  {
    hide FoldLease, FoldLost, FoldStats, AddExtra;
    StatsKeep(rec, ev);
  }

  lemma StatsKeep(rec: Record, ev: Event)
    ensures
      var r := FoldStats(rec, ev).rec;
      && r.phase == rec.phase && r.held == rec.held && r.lease == rec.lease && r.id == rec.id
      && r.deadline == rec.deadline
  {
    hide Added, Backwards;
  }

  /** The operations that take a deadline away. */
  predicate Resets(op: Op) { op == OpRebind || op == OpCreate || op == OpBind }

  /** The deadline of the last event that carried one, unless one that takes it
      away came with it or since. */
  function Due(evs: seq<Event>): Option<Instant> {
    if evs == [] then None
    else
      var last := evs[|evs| - 1];
      if Resets(last.op) then None else if last.deadline.Some? then last.deadline else Due(evs[..|evs| - 1])
  }

  /** A record's deadline is that one, whatever its phase. */
  lemma {:induction false} DeadlineIsLastCarried(evs: seq<Event>)
    ensures Follow(evs).deadline == Due(Heard(evs))
  {
    hide Fold, Zeros;
    if evs != [] {
      var n := |evs| - 1;
      var rec, ev := Follow(evs[..n]), evs[n];
      DeadlineIsLastCarried(evs[..n]);
      FoldDeadline(rec, ev);
      FollowKeeps(evs);
      HeardLast(evs);
      var before := Heard(evs[..n]);
      assert (before + [ev])[..|before|] == before;
    }
  }

  lemma FoldDeadline(rec: Record, ev: Event)
    ensures
      var v := Fold(rec, ev);
      v.rec.deadline == if !v.Accepted() then rec.deadline
                        else if Resets(ev.op) then None else if ev.deadline.Some? then ev.deadline else rec.deadline
  {
    hide Operate, Envelope;
    OperateDeadline(rec, ev);
  }

  lemma OperateDeadline(rec: Record, ev: Event)
    ensures
      var v := Operate(rec, ev);
      v.Accepted() ==>
        (Resets(ev.op) ==> v.rec.phase != PhaseRetained) && (!Resets(ev.op) ==> v.rec.deadline == rec.deadline)
  {
    hide FoldLease, FoldLost, FoldStats, AddExtra;
    StatsKeep(rec, ev);
    LeasesKeepDeadline(rec, ev);
  }

  lemma LeasesKeepDeadline(rec: Record, ev: Event)
    ensures FoldLease(rec, ev).rec.deadline == rec.deadline && FoldLost(rec, ev).deadline == rec.deadline
  {
    hide Plus;
  }

  /** The event at i carries a deadline, and neither it nor any since resets. */
  predicate Carries(evs: seq<Event>, i: nat) {
    i < |evs| && evs[i].deadline.Some? && forall j :: i <= j < |evs| ==> !Resets(evs[j].op)
  }

  lemma {:induction false} DueIff(evs: seq<Event>)
    ensures Due(evs).Some? <==> exists i: nat :: Carries(evs, i)
  {
    if evs != [] {
      var n := |evs| - 1;
      DueIff(evs[..n]);
      if Carries(evs, n) {
      } else if exists i: nat :: Carries(evs, i) {
        var i: nat :| Carries(evs, i);
        assert Carries(evs[..n], i);
      }
      if !Resets(evs[n].op) && exists i: nat :: Carries(evs[..n], i) {
        var i: nat :| Carries(evs[..n], i);
        assert forall j :: i <= j < n ==> evs[..n][j] == evs[j];
        assert Carries(evs, i);
      }
    }
  }

  /** So a deadline stands outside retention exactly where the last accepted move
      did not retain the record, some accepted event carried a deadline, and
      none from it on creates, rebinds or binds the record. */
  lemma DeadlineOutsideRetention(evs: seq<Event>)
    ensures
      var r, heard := Follow(evs), Heard(evs);
      r.phase != PhaseRetained && r.deadline.Some? <==>
      Placed(heard) != PhaseRetained && exists i: nat :: Carries(heard, i)
  {
    hide Follow, Heard, Placed, Due, Carries;
    PhaseIsLastMove(evs);
    DeadlineIsLastCarried(evs);
    DueIff(Heard(evs));
  }

  /** Closing a tombstone leaves its deadline behind, where nothing reads it. */
  lemma CloseKeepsDeadline(rec: Record, ev: Event)
    requires rec.phase == PhaseRetained && ev.op == OpClose && Fold(rec, ev).Accepted()
    ensures
      var r := Fold(rec, ev).rec;
      r.phase == PhaseClosed && (r.deadline.Some? <==> rec.deadline.Some? || ev.deadline.Some?)
  {
    hide Envelope;
  }
}
