/** Rebuilding every record from one journal: a product of independent folds,
    to which refused events are nothing. */
module Rebuild {
  import opened Clock
  import opened Lease
  import opened Record

  function Find(rs: seq<Record>, id: string): (k: Option<nat>)
    ensures k.Some? ==> k.value < |rs| && rs[k.value].id == id
    ensures k.None? ==> forall i :: 0 <= i < |rs| ==> rs[i].id != id
  {
    if rs == [] then None
    else
      var n := |rs| - 1;
      var k := Find(rs[..n], id);
      assert k.None? ==> forall i :: 0 <= i < n ==> rs[..n][i].id == rs[i].id;
      if k.Some? then k else if rs[n].id == id then Some(n) else None
  }

  function Current(rs: seq<Record>, id: string): Record {
    if Find(rs, id).Some? then rs[Find(rs, id).value] else NO_RECORD
  }

  /** One event of the journal: a known record takes it, and an unknown one
      comes into existence if it can. */
  function Absorb(rs: seq<Record>, ev: Event): seq<Record> {
    var k := Find(rs, ev.id);
    var next := Fold(Current(rs, ev.id), ev).rec;
    if k.Some? then rs[k.value := next] else if next.phase == PhaseUnset then rs else rs + [next]
  }

  function Rebuilds(evs: seq<Event>): seq<Record> {
    if evs == [] then [] else Absorb(Rebuilds(evs[..|evs| - 1]), evs[|evs| - 1])
  }

  predicate Accepts(rs: seq<Record>, ev: Event) { Fold(Current(rs, ev.id), ev).Accepted() }

  /** Every record is in existence, under its own name, and no name twice. */
  predicate Sound(rs: seq<Record>) {
    && (forall i :: 0 <= i < |rs| ==> rs[i].phase != PhaseUnset && rs[i].id != "")
    && forall i, j :: 0 <= i < j < |rs| ==> rs[i].id != rs[j].id
  }

  /** What a fold does to a name and to existence. */
  lemma FoldNames(rec: Record, ev: Event)
    ensures Fold(rec, ev).Accepted() ==>
              Fold(rec, ev).rec.id == ev.id && Fold(rec, ev).rec.phase != PhaseUnset && ev.id != ""
    ensures !Fold(rec, ev).Accepted() ==> Fold(rec, ev).rec.id == rec.id && Fold(rec, ev).rec.phase == rec.phase
    ensures Fold(rec, ev).Accepted() && rec.phase != PhaseUnset ==> ev.id == rec.id
  {
    hide Operate;
    if Envelope(rec, ev) == RejectNone {
      OperateExists(rec, ev);
    }
  }

  lemma OperateExists(rec: Record, ev: Event)
    requires Envelope(rec, ev) == RejectNone
    ensures Operate(rec, ev).reject == RejectNone ==> Operate(rec, ev).rec.phase != PhaseUnset
  {
    hide FoldLease, FoldLost, FoldStats, AddExtra, HoldsAnAddress;
    match ev.op {
      case OpLease => PayloadsKeepPhase(rec, ev);
      case OpLost => PayloadsKeepPhase(rec, ev);
      case OpStats => PayloadsKeepPhase(rec, ev);
      case _ =>
    }
  }

  lemma PayloadsKeepPhase(rec: Record, ev: Event)
    ensures FoldLease(rec, ev).rec.phase == rec.phase && FoldLost(rec, ev).phase == rec.phase
    ensures FoldStats(rec, ev).rec.phase == rec.phase
  {
    hide Added, Backwards, Zeros;
  }

  lemma {:induction false} RebuildsSound(evs: seq<Event>)
    ensures Sound(Rebuilds(evs))
  {
    hide Fold;
    if evs != [] {
      var n := |evs| - 1;
      RebuildsSound(evs[..n]);
      FoldNames(Current(Rebuilds(evs[..n]), evs[n].id), evs[n]);
    }
  }

  /** The index says where each name's record is. */
  ghost predicate Indexes(byID: map<string, nat>, rs: seq<Record>) {
    forall id :: Find(rs, id) == if id in byID then Some(byID[id]) else None
  }

  /** The journal read once, with an index by name. */
  method Rebuild(evs: seq<Event>) returns (rs: seq<Record>, byID: map<string, nat>, rejects: nat)
    ensures rs == Rebuilds(evs) && Indexes(byID, rs)
    ensures rejects == |evs| - |Kept(evs)|
  {
    hide Fold, Find, Absorb;
    rs, byID, rejects := [], map[], 0;
    NothingIndexed();
    var n := 0;
    while n < |evs|
      invariant 0 <= n <= |evs|
      invariant rs == Rebuilds(evs[..n]) && rejects == n - |Kept(evs[..n])| && Indexes(byID, rs)
    {
      assert evs[..n + 1][..n] == evs[..n];
      RebuildsSound(evs[..n]);
      var ev := evs[n];
      IndexFinds(byID, rs, ev.id);
      var cur := NO_RECORD;
      if ev.id in byID {
        cur := rs[byID[ev.id]];
      }
      var v := Fold(cur, ev);
      AbsorbIndexed(byID, rs, ev);
      if !v.Accepted() {
        rejects := rejects + 1;
      }
      if ev.id in byID {
        rs := rs[byID[ev.id] := v.rec];
      } else if v.rec.phase != PhaseUnset {
        byID := byID[ev.id := |rs|];
        rs := rs + [v.rec];
      }
      n := n + 1;
    }
    assert evs[..n] == evs;
  }

  lemma NothingIndexed()
    ensures Indexes(map[], [])
  {
  }

  lemma IndexFinds(byID: map<string, nat>, rs: seq<Record>, id: string)
    requires Indexes(byID, rs)
    ensures id in byID ==> byID[id] < |rs| && Find(rs, id) == Some(byID[id]) && Current(rs, id) == rs[byID[id]]
    ensures id !in byID ==> Current(rs, id) == NO_RECORD
  {
  }

  /** The two ways an event is absorbed, as the index tells them apart. */
  lemma AbsorbIndexed(byID: map<string, nat>, rs: seq<Record>, ev: Event)
    requires Sound(rs) && Indexes(byID, rs)
    ensures
      var v := Fold(Current(rs, ev.id), ev);
      if ev.id in byID then
        byID[ev.id] < |rs| && Absorb(rs, ev) == rs[byID[ev.id] := v.rec] && Indexes(byID, Absorb(rs, ev))
      else if v.rec.phase != PhaseUnset then
        Absorb(rs, ev) == rs + [v.rec] && Indexes(byID[ev.id := |rs|], Absorb(rs, ev))
      else Absorb(rs, ev) == rs
  {
    hide Fold;
    var v := Fold(Current(rs, ev.id), ev);
    FoldNames(Current(rs, ev.id), ev);
    IndexFinds(byID, rs, ev.id);
    if ev.id in byID {
      SameNames(rs, Absorb(rs, ev));
    } else if v.rec.phase != PhaseUnset {
      OneMoreName(rs, v.rec);
    }
  }

  lemma {:induction false} FindSame(rs: seq<Record>, rt: seq<Record>, id: string)
    requires |rs| == |rt| && forall i :: 0 <= i < |rs| ==> rs[i].id == rt[i].id
    ensures Find(rs, id) == Find(rt, id)
  {
    if rs != [] {
      FindSame(rs[..|rs| - 1], rt[..|rt| - 1], id);
    }
  }

  lemma SameNames(rs: seq<Record>, rt: seq<Record>)
    requires |rs| == |rt| && forall i :: 0 <= i < |rs| ==> rs[i].id == rt[i].id
    ensures forall id :: Find(rs, id) == Find(rt, id)
  {
    forall id ensures Find(rs, id) == Find(rt, id) {
      FindSame(rs, rt, id);
    }
  }

  lemma OneMoreName(rs: seq<Record>, r: Record)
    requires Find(rs, r.id).None?
    ensures forall id :: Find(rs + [r], id) == if id == r.id then Some(|rs|) else Find(rs, id)
  {
    assert (rs + [r])[..|rs|] == rs;
  }

  // ------------------------------------------------- independent folds --

  /** The events of one record, in order. */
  function Of(evs: seq<Event>, id: string): seq<Event> {
    if evs == [] then []
    else
      var n := |evs| - 1;
      Of(evs[..n], id) + if evs[n].id == id then [evs[n]] else []
  }

  /** One record followed on its own: until it exists nothing of it is kept. */
  function Follow(evs: seq<Event>): Record {
    if evs == [] then NO_RECORD
    else
      var rec := Follow(evs[..|evs| - 1]);
      var next := Fold(rec, evs[|evs| - 1]).rec;
      if next.phase == PhaseUnset then NO_RECORD else next
  }

  /** The names of the records in the order their first accepted events come. */
  function CreationOrder(evs: seq<Event>): seq<string> {
    if evs == [] then []
    else
      var n := |evs| - 1;
      var id := evs[n].id;
      CreationOrder(evs[..n])
      + if Follow(Of(evs[..n], id)).phase == PhaseUnset && Follow(Of(evs, id)).phase != PhaseUnset then [id] else []
  }

  predicate Names(rs: seq<Record>, ids: seq<string>) {
    |rs| == |ids| && forall i :: 0 <= i < |rs| ==> rs[i].id == ids[i]
  }

  ghost predicate Product(rs: seq<Record>, evs: seq<Event>) {
    && (forall id :: Current(rs, id) == Follow(Of(evs, id)))
    && (forall id :: Find(rs, id).Some? <==> Follow(Of(evs, id)).phase != PhaseUnset)
  }

  /** Rebuild is the product of the folds of its records: the record under a
      name is that name's events folded alone, it is there exactly when they
      bring one into existence, and the records stand in the order they did. */
  lemma {:induction false} RebuildIsProduct(evs: seq<Event>)
    ensures Product(Rebuilds(evs), evs) && Names(Rebuilds(evs), CreationOrder(evs))
  {
    hide Fold, Absorb, Follow, Of;
    if evs == [] {
      NothingYet();
    } else {
      var n := |evs| - 1;
      RebuildIsProduct(evs[..n]);
      RebuildsSound(evs[..n]);
      assert evs == evs[..n] + [evs[n]];
      ProductOne(Rebuilds(evs[..n]), evs[..n], evs[n]);
      OrderOne(Rebuilds(evs[..n]), evs[..n], evs[n]);
    }
  }

  lemma NothingYet()
    ensures Product([], [])
  {
    assert forall id :: Of([], id) == [];
  }

  lemma ProductOne(rs: seq<Record>, before: seq<Event>, ev: Event)
    requires Sound(rs) && Product(rs, before)
    ensures Product(Absorb(rs, ev), before + [ev])
  {
    hide Fold, Absorb, Follow, Of;
    AbsorbIsLocal(rs, ev);
    forall id
      ensures Current(Absorb(rs, ev), id) == Follow(Of(before + [ev], id))
      ensures Find(Absorb(rs, ev), id).Some? <==> Follow(Of(before + [ev], id)).phase != PhaseUnset
    {
      FollowOne(before, ev, id);
    }
  }

  lemma OrderOne(rs: seq<Record>, before: seq<Event>, ev: Event)
    requires Sound(rs) && Product(rs, before) && Names(rs, CreationOrder(before))
    ensures Names(Absorb(rs, ev), CreationOrder(before + [ev]))
  {
    hide Fold, Follow, Of;
    var all := before + [ev];
    assert all[..|before|] == before;
    ProductOne(rs, before, ev);
    FoldNames(Current(rs, ev.id), ev);
    assert Find(rs, ev.id).Some? <==> Follow(Of(before, ev.id)).phase != PhaseUnset;
    assert Find(Absorb(rs, ev), ev.id).Some? <==> Follow(Of(all, ev.id)).phase != PhaseUnset;
    AbsorbIsLocal(rs, ev);
  }

  /** An event touches the record of its own name and no other. */
  lemma AbsorbIsLocal(rs: seq<Record>, ev: Event)
    requires Sound(rs)
    ensures
      var rt, next := Absorb(rs, ev), Fold(Current(rs, ev.id), ev).rec;
      && (forall id :: id != ev.id ==>
            Current(rt, id) == Current(rs, id) && (Find(rt, id).Some? <==> Find(rs, id).Some?))
      && Current(rt, ev.id) == (if next.phase == PhaseUnset then NO_RECORD else next)
      && (Find(rt, ev.id).Some? <==> next.phase != PhaseUnset)
  {
    hide Fold;
    FoldNames(Current(rs, ev.id), ev);
    var rt := Absorb(rs, ev);
    if Find(rs, ev.id).Some? {
      SameNames(rs, rt);
    } else if rt != rs {
      OneMoreName(rs, rt[|rs|]);
    }
  }

  lemma FollowOne(before: seq<Event>, ev: Event, id: string)
    ensures
      var all := before + [ev];
      Of(all, id) == if ev.id == id then Of(before, id) + [ev] else Of(before, id)
    ensures
      var next := Fold(Follow(Of(before, id)), ev).rec;
      ev.id == id ==> Follow(Of(before, id) + [ev]) == if next.phase == PhaseUnset then NO_RECORD else next
  {
    hide Fold;
    var all, mine := before + [ev], Of(before, id);
    assert all[..|before|] == before;
    assert (mine + [ev])[..|mine|] == mine;
  }

  // ---------------------------------------------------------- refused events --

  /** The events some record accepted. */
  function Kept(evs: seq<Event>): (r: seq<Event>)
    ensures |r| <= |evs|
  {
    if evs == [] then []
    else
      var n := |evs| - 1;
      Kept(evs[..n]) + if Accepts(Rebuilds(evs[..n]), evs[n]) then [evs[n]] else []
  }

  predicate AllAlike(rs: seq<Record>, rt: seq<Record>) {
    |rs| == |rt| && forall i :: 0 <= i < |rs| ==> Alike(rs[i], rt[i])
  }

  lemma AlikeCurrent(rs: seq<Record>, rt: seq<Record>, id: string)
    requires AllAlike(rs, rt)
    ensures Find(rs, id) == Find(rt, id) && Alike(Current(rs, id), Current(rt, id))
  {
    forall i | 0 <= i < |rs| ensures rs[i].id == rt[i].id {
      assert Alike(rs[i], rt[i]);
    }
    FindSame(rs, rt, id);
  }

  lemma AbsorbAlike(rs: seq<Record>, rt: seq<Record>, ev: Event)
    requires AllAlike(rs, rt)
    ensures Accepts(rs, ev) <==> Accepts(rt, ev)
    ensures Accepts(rs, ev) ==> AllAlike(Absorb(rs, ev), Absorb(rt, ev))
    ensures !Accepts(rs, ev) ==> AllAlike(Absorb(rs, ev), rt)
  {
    hide Fold, Bare;
    var a, b := Current(rs, ev.id), Current(rt, ev.id);
    AlikeCurrent(rs, rt, ev.id);
    FoldIgnoresRefusals(a, b, ev);
    FoldNames(a, ev);
    FoldNames(b, ev);
  }

  /** Deleting every refused event from a journal changes nothing in any record
      but its count of refusals and the last one's reason. */
  lemma {:induction false} RefusedEventsDoNothing(evs: seq<Event>)
    ensures AllAlike(Rebuilds(evs), Rebuilds(Kept(evs)))
  {
    hide Absorb, Fold, Alike;
    if evs != [] {
      var n := |evs| - 1;
      RefusedEventsDoNothing(evs[..n]);
      AbsorbAlike(Rebuilds(evs[..n]), Rebuilds(Kept(evs[..n])), evs[n]);
      var k := Kept(evs[..n]);
      assert (k + [evs[n]])[..|k|] == k;
      assert k + [] == k;
    } else {
      assert AllAlike(Rebuilds([]), Rebuilds([]));
    }
  }

  /** An event a record has passed is refused. */
  lemma PassedIsRefused(rec: Record, ev: Event)
    requires rec.phase != PhaseUnset && ev.seqNo <= rec.seqNo
    ensures !Fold(rec, ev).Accepted()
  {
    hide Operate;
  }

  lemma SeqAdvances(rec: Record, ev: Event)
    ensures Fold(rec, ev).Accepted() ==>
              Fold(rec, ev).rec.seqNo == ev.seqNo && (rec.phase != PhaseUnset ==> rec.seqNo < ev.seqNo)
    ensures !Fold(rec, ev).Accepted() ==> Fold(rec, ev).rec.seqNo == rec.seqNo
  {
    hide Operate;
  }

  /** Every accepted event of the journal is one its record has passed. */
  predicate Passed(rs: seq<Record>, ev: Event) {
    Find(rs, ev.id).Some? && Current(rs, ev.id).phase != PhaseUnset && ev.seqNo <= Current(rs, ev.id).seqNo
  }

  lemma PassedStays(rs: seq<Record>, ev: Event, earlier: Event)
    requires Sound(rs) && Passed(rs, earlier)
    ensures Passed(Absorb(rs, ev), earlier)
  {
    hide Fold;
    AbsorbIsLocal(rs, ev);
    FoldNames(Current(rs, ev.id), ev);
    SeqAdvances(Current(rs, ev.id), ev);
  }

  lemma {:induction false} AcceptedArePassed(evs: seq<Event>, ev: Event)
    requires ev in Kept(evs)
    ensures Passed(Rebuilds(evs), ev)
  {
    hide Absorb, Fold, Passed;
    var n := |evs| - 1;
    var before := evs[..n];
    RebuildsSound(before);
    if ev in Kept(before) {
      AcceptedArePassed(before, ev);
      PassedStays(Rebuilds(before), evs[n], ev);
    } else {
      NowPassed(Rebuilds(before), evs[n]);
    }
  }

  lemma NowPassed(rs: seq<Record>, ev: Event)
    requires Sound(rs) && Accepts(rs, ev)
    ensures Passed(Absorb(rs, ev), ev)
  {
    hide Fold;
    AbsorbIsLocal(rs, ev);
    FoldNames(Current(rs, ev.id), ev);
    SeqAdvances(Current(rs, ev.id), ev);
  }

  /** Events already accepted change nothing when they come again, in whatever
      order and however often: a journal appended to itself rebuilds the same
      records, up to their counts of refusals. */
  lemma {:induction false} ReplayIsIdempotent(evs: seq<Event>, again: seq<Event>)
    requires forall ev :: ev in again ==> ev in Kept(evs)
    ensures AllAlike(Rebuilds(evs + again), Rebuilds(evs))
    ensures Kept(evs + again) == Kept(evs)
  {
    hide Absorb, Fold, Alike, Passed;
    if again == [] {
      assert evs + again == evs;
      assert AllAlike(Rebuilds(evs), Rebuilds(evs)) by { AlikeItself(Rebuilds(evs)); }
    } else {
      var n := |again| - 1;
      var all := evs + again;
      ReplayIsIdempotent(evs, again[..n]);
      assert all[..|all| - 1] == evs + again[..n];
      assert all[|all| - 1] == again[n];
      AcceptedArePassed(evs, again[n]);
      RefusedAgain(Rebuilds(evs), again[n]);
      AllAlikeFlips(Rebuilds(evs + again[..n]), Rebuilds(evs));
      AbsorbAlike(Rebuilds(evs + again[..n]), Rebuilds(evs), again[n]);
    }
  }

  lemma RefusedAgain(rs: seq<Record>, ev: Event)
    requires Passed(rs, ev)
    ensures !Accepts(rs, ev)
  {
    hide Fold;
    PassedIsRefused(Current(rs, ev.id), ev);
  }

  lemma AlikeItself(rs: seq<Record>)
    ensures AllAlike(rs, rs)
  {
  }

  lemma AllAlikeFlips(rs: seq<Record>, rt: seq<Record>)
    requires AllAlike(rs, rt)
    ensures AllAlike(rt, rs)
  {
  }

  /** The case of a journal without refusals appended to itself. */
  lemma CleanJournalTwice(evs: seq<Event>)
    requires Kept(evs) == evs
    ensures AllAlike(Rebuilds(evs + evs), Rebuilds(evs))
  {
    ReplayIsIdempotent(evs, evs);
  }

  // ----------------------------------------------------------- conservation --

  datatype Account = Account(manager: string, last: Wire)

  /** Each manager the record has counted for, with its last accepted snapshot,
      in the order they ran. */
  function Ledger(evs: seq<Event>): seq<Account> {
    if evs == [] then []
    else
      var n := |evs| - 1;
      var books, ev := Ledger(evs[..n]), evs[n];
      if ev.op != OpStats || !Fold(Follow(evs[..n]), ev).Accepted() || ev.stats.None? then books
      else
        var a := Account(ev.manager, ev.stats.value);
        if books != [] && books[|books| - 1].manager == ev.manager then books[..|books| - 1] + [a] else books + [a]
  }

  function Total(books: seq<Account>, i: nat): nat
    requires i < WIRE_FIELDS
  {
    if books == [] then 0 else Total(books[..|books| - 1], i) + books[|books| - 1].last[i]
  }

  function Managers(books: seq<Account>): set<string> { set a | a in books :: a.manager }

  predicate Balanced(rec: Record, books: seq<Account>) {
    && (forall i :: 0 <= i < WIRE_FIELDS ==> rec.counters.wire[i] == Total(books, i) % TWO_64)
    && rec.statsSeen == Managers(books)
    && (if books == [] then rec.statsManager == "" && rec.statsBase == NO_WIRE
        else rec.statsManager == books[|books| - 1].manager && rec.statsBase == books[|books| - 1].last)
    && (forall i, j :: 0 <= i < j < |books| ==> books[i].manager != books[j].manager)
    && (rec.phase == PhaseUnset ==> books == [])
  }

  lemma NothingBalances()
    ensures Balanced(NO_RECORD, [])
  {
    hide Zeros;
    assert Managers([]) == {};
  }

  /** The fields the books are kept in. */
  predicate SameBooks(a: Record, b: Record) {
    && a.counters.wire == b.counters.wire && a.statsSeen == b.statsSeen && a.statsManager == b.statsManager
    && a.statsBase == b.statsBase
  }

  lemma LeasesKeepBooks(rec: Record, ev: Event)
    ensures SameBooks(rec, FoldLease(rec, ev).rec) && SameBooks(rec, FoldLost(rec, ev))
  {
  }

  lemma OperateKeepsBooks(rec: Record, ev: Event)
    requires ev.op != OpStats
    ensures SameBooks(rec, Operate(rec, ev).rec)
  {
    hide FoldLease, FoldLost, AddExtra, HoldsAnAddress;
    match ev.op {
      case OpLease => LeasesKeepBooks(rec, ev);
      case OpLost => LeasesKeepBooks(rec, ev);
      case _ =>
    }
  }

  /** No event but an accepted snapshot touches the books. */
  lemma OthersKeepBooks(rec: Record, ev: Event)
    requires ev.op != OpStats || !Fold(rec, ev).Accepted()
    ensures SameBooks(rec, Fold(rec, ev).rec)
  {
    hide Operate, Envelope;
    if Fold(rec, ev).Accepted() {
      OperateKeepsBooks(rec, ev);
    }
  }

  /** What an accepted snapshot writes. */
  lemma SnapshotWrites(rec: Record, ev: Event)
    requires ev.op == OpStats && Fold(rec, ev).Accepted()
    ensures ev.stats.Some? && rec.phase != PhaseUnset && Fold(rec, ev).rec.phase == rec.phase
    ensures ev.manager != rec.statsManager ==> ev.manager !in rec.statsSeen
    ensures ev.manager != ""
    ensures
      var r := Fold(rec, ev).rec;
      && r.statsBase == ev.stats.value && r.statsManager == ev.manager && r.statsSeen == rec.statsSeen + {ev.manager}
      && r.counters.wire == Added(rec.counters.wire, ev.stats.value,
                                  if ev.manager == rec.statsManager then rec.statsBase else NO_WIRE)
  {
    hide Added, Backwards;
  }

  lemma SnapshotBalances(rec: Record, ev: Event, books: seq<Account>)
    requires Balanced(rec, books) && ev.op == OpStats && Fold(rec, ev).Accepted()
    ensures ev.stats.Some?
    ensures
      var a := Account(ev.manager, ev.stats.value);
      var same := books != [] && books[|books| - 1].manager == ev.manager;
      Balanced(Fold(rec, ev).rec, if same then books[..|books| - 1] + [a] else books + [a])
  {
    hide Fold, Total;
    SnapshotWrites(rec, ev);
    var a := Account(ev.manager, ev.stats.value);
    var n := |books|;
    var same := n > 0 && books[n - 1].manager == ev.manager;
    var rest := if same then books[..n - 1] else books;
    var more := rest + [a];
    SnapshotTotals(rec, Fold(rec, ev).rec, books, rest, a, same);
    SnapshotNames(books, rest, a, same);
  }

  lemma SnapshotNames(books: seq<Account>, rest: seq<Account>, a: Account, same: bool)
    requires same <==> books != [] && books[|books| - 1].manager == a.manager
    requires rest == if same then books[..|books| - 1] else books
    requires !same ==> a.manager !in Managers(books)
    requires forall i, j :: 0 <= i < j < |books| ==> books[i].manager != books[j].manager
    ensures Managers(rest + [a]) == Managers(books) + {a.manager}
    ensures forall i, j :: 0 <= i < j < |rest| + 1 ==> (rest + [a])[i].manager != (rest + [a])[j].manager
  {
    var more := rest + [a];
    if same {
      assert books == rest + [books[|books| - 1]];
    }
    assert forall x :: x in more <==> x in rest || x == a;
    forall m ensures m in Managers(more) <==> m in Managers(books) + {a.manager} {
      if m in Managers(more) {
        var x :| x in more && x.manager == m;
      }
      if m in Managers(books) {
        var x :| x in books && x.manager == m;
        assert x in more || m == a.manager;
      }
      assert a in more;
    }
    forall j | 0 <= j < |rest| ensures rest[j].manager != a.manager {
      assert rest[j] in books;
    }
  }

  lemma SnapshotTotals(rec: Record, r: Record, books: seq<Account>, rest: seq<Account>, a: Account, same: bool)
    requires Balanced(rec, books) && (same <==> books != [] && books[|books| - 1].manager == a.manager)
    requires rest == if same then books[..|books| - 1] else books
    requires a.manager != "" && r.counters.wire
             == Added(rec.counters.wire, a.last, if a.manager == rec.statsManager then rec.statsBase else NO_WIRE)
    ensures forall i :: 0 <= i < WIRE_FIELDS ==> r.counters.wire[i] == Total(rest + [a], i) % TWO_64
  {
    hide Total;
    assert a.manager == rec.statsManager <==> same;
    forall i | 0 <= i < WIRE_FIELDS ensures r.counters.wire[i] == Total(rest + [a], i) % TWO_64 {
      TotalLast(rest, a, i);
      if same {
        var was := books[|books| - 1];
        TotalLast(rest, was, i);
        assert books == rest + [was];
        var now: int, base: int := a.last[i], was.last[i];
        ModAdd(Total(books, i), now - base);
      } else {
        ModAdd(Total(books, i), a.last[i]);
      }
    }
  }

  lemma TotalLast(rest: seq<Account>, a: Account, i: nat)
    requires i < WIRE_FIELDS
    ensures Total(rest + [a], i) == Total(rest, i) + a.last[i]
  {
    assert (rest + [a])[..|rest|] == rest;
  }

  lemma ModAdd(x: int, d: int)
    ensures (x % TWO_64 + d) % TWO_64 == (x + d) % TWO_64
  {
  }

  /** After any events a record's wire counters are, field by field and to the
      width of the word, the sum over the managers it has counted for of each
      one's last accepted snapshot. */
  lemma {:induction false} CountersAreConserved(evs: seq<Event>)
    ensures Balanced(Follow(evs), Ledger(evs))
  {
    hide Fold, Balanced;
    if evs == [] {
      NothingBalances();
    } else {
      var n := |evs| - 1;
      CountersAreConserved(evs[..n]);
      var rec, ev := Follow(evs[..n]), evs[n];
      if ev.op == OpStats && Fold(rec, ev).Accepted() {
        SnapshotBalances(rec, ev, Ledger(evs[..n]));
        FoldNames(rec, ev);
      } else {
        OthersBalance(rec, ev, Ledger(evs[..n]));
      }
    }
  }

  lemma OthersBalance(rec: Record, ev: Event, books: seq<Account>)
    requires Balanced(rec, books) && (ev.op != OpStats || !Fold(rec, ev).Accepted())
    ensures
      var next := Fold(rec, ev).rec;
      Balanced(if next.phase == PhaseUnset then NO_RECORD else next, books)
  {
    hide Fold, Total;
    OthersKeepBooks(rec, ev);
    FoldNames(rec, ev);
    NothingBalances();
  }

  /** What a manager last got accepted. */
  function LastSnapshot(evs: seq<Event>, manager: string): Option<Wire> {
    if evs == [] then None
    else
      var n := |evs| - 1;
      var ev := evs[n];
      if ev.op == OpStats && ev.manager == manager && Fold(Follow(evs[..n]), ev).Accepted() then ev.stats
      else LastSnapshot(evs[..n], manager)
  }

  /** The books are those snapshots: one account for each manager that had any
      accepted, holding the last. */
  lemma {:induction false} LedgerIsLastSnapshots(evs: seq<Event>, manager: string, w: Wire)
    ensures Account(manager, w) in Ledger(evs) <==> LastSnapshot(evs, manager) == Some(w)
  {
    hide Fold;
    if evs != [] {
      var n := |evs| - 1;
      LedgerIsLastSnapshots(evs[..n], manager, w);
      CountersAreConserved(evs[..n]);
      var rec, ev, books := Follow(evs[..n]), evs[n], Ledger(evs[..n]);
      if ev.op == OpStats && Fold(rec, ev).Accepted() {
        SnapshotBalances(rec, ev, books);
        CountersAreConserved(evs);
        OneAccount(books, Ledger(evs), Account(ev.manager, ev.stats.value), Account(manager, w));
      }
    }
  }

  lemma OneAccount(books: seq<Account>, more: seq<Account>, a: Account, x: Account)
    requires forall i, j :: 0 <= i < j < |books| ==> books[i].manager != books[j].manager
    requires forall i, j :: 0 <= i < j < |more| ==> more[i].manager != more[j].manager
    requires more == if books != [] && books[|books| - 1].manager == a.manager then books[..|books| - 1] + [a]
            else books + [a]
    ensures x.manager == a.manager ==> (x in more <==> x == a)
    ensures x.manager != a.manager ==> (x in more <==> x in books)
  {
    var n := |more| - 1;
    assert more[n] == a;
    assert more == more[..n] + [a];
  }

  /** A manager id that has been replaced may not count again, and no counter
      may fall within one manager's run. */
  lemma SnapshotAcceptedIff(evs: seq<Event>, ev: Event)
    requires ev.op == OpStats && ev.manager != "" && ev.stats.Some? && Envelope(Follow(evs), ev) == RejectNone
    ensures
      var books := Ledger(evs);
      var same := books != [] && books[|books| - 1].manager == ev.manager;
      Fold(Follow(evs), ev).Accepted() <==>
        if same then !Backwards(ev.stats.value, books[|books| - 1].last) else ev.manager !in Managers(books)
  {
    CountersAreConserved(evs);
    var now := ev.stats.value;
    assert !Backwards(now, NO_WIRE);
  }
}
