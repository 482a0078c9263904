/** The journal: what one recorded step keeps, and what can be rebuilt from it. */
module Journal {
  import opened Clock
  import opened Lease
  import opened Dhcp4
  import opened Dhcp4Invariant
  import opened Dhcp4Runs
  import opened Dhcp4Conflict

  type Octets = seq<nat>

  /** The decoders and the rendering of an action, which this model does not look into. */
  datatype Codec = Codec(frame: Octets -> Option<Frame>, message: Octets -> Option<Message>,
                         advert: Octets -> bool, render: Stamped -> string)

  datatype EventKind =
    | EvStart | EvStop | EvRelease | EvLinkDown | EvLinkUp | EvConflict | EvAddressLost | EvReceived
    | EvTimerFired | EvActionFailed | EvARPReceived | EvRouterAdvert | EvDADResult | EvSetHostname

  function KindOf(ev: Event): EventKind {
    match ev
    case Start => EvStart
    case Stop => EvStop
    case Release => EvRelease
    case LinkDown => EvLinkDown
    case LinkUp => EvLinkUp
    case ConflictDetected => EvConflict
    case AddressLost => EvAddressLost
    case Received(_, _, _) => EvReceived
    case TimerFired(_) => EvTimerFired
    case ActionFailed(_) => EvActionFailed
    case ARPReceived(_) => EvARPReceived
    case RouterAdvert(_) => EvRouterAdvert
    case DADResult(_, _) => EvDADResult
    case SetHostname(_) => EvSetHostname
  }

  /** One step as recorded. There is no room in it for an ARP packet. */
  datatype Entry = Entry(seqNo: nat, now: Instant, rnd: Entropy, kind: EventKind, raw: Octets, dst: Option<Addr>,
                         ra: Octets, hostname: string, dadAddr: nat, duplicate: bool, timer: TimerID, action: nat,
                         from: State, to: State, actions: seq<string>)

  function Rendered(codec: Codec, acts: seq<Stamped>): (r: seq<string>)
    ensures |r| == |acts|
  {
    if acts == [] then [] else Rendered(codec, acts[..|acts| - 1]) + [codec.render(acts[|acts| - 1])]
  }

  function NewEntry(codec: Codec, seqNo: nat, i: Input, from: State, to: State, acts: seq<Stamped>): Entry {
    var ev := i.ev;
    Entry(seqNo, i.now, i.rnd, KindOf(ev),
          if ev.Received? && ev.raw.Some? then ev.raw.value.octets else [],
          if ev.Received? then ev.dst else None,
          if ev.RouterAdvert? then ev.octets else [],
          if ev.SetHostname? then ev.name else "",
          if ev.DADResult? then ev.addr else 0,
          ev.DADResult? && ev.duplicate,
          if ev.TimerFired? then ev.timer else TimerRetransmit,
          if ev.ActionFailed? then ev.action else 0,
          from, to, Rendered(codec, acts))
  }

  /** The event an entry stands for, where its octets can be decoded again. */
  function EventOf(codec: Codec, e: Entry): Option<Event> {
    match e.kind
    case EvReceived =>
      if codec.message(e.raw).None? then None else Some(Received(codec.message(e.raw), codec.frame(e.raw), e.dst))
    case EvTimerFired => Some(TimerFired(e.timer))
    case EvActionFailed => Some(ActionFailed(e.action))
    case EvRouterAdvert => if e.ra == [] || !codec.advert(e.ra) then None else Some(RouterAdvert(e.ra))
    case EvDADResult => Some(DADResult(e.dadAddr, e.duplicate))
    case EvSetHostname => Some(SetHostname(e.hostname))
    case EvStart => Some(Start)
    case EvStop => Some(Stop)
    case EvRelease => Some(Event.Release)
    case EvLinkDown => Some(LinkDown)
    case EvLinkUp => Some(LinkUp)
    case EvConflict => Some(ConflictDetected)
    case EvAddressLost => Some(AddressLost)
    case EvARPReceived => Some(ARPReceived(None))
  }

  datatype Field = FromState | ToState | ActionCount | ActionAt(i: nat)

  datatype Outcome = Done(w: World) | Diverged(seqNo: nat, field: Field) | Unreadable(seqNo: nat)

  /** The first place two renderings differ. */
  function FirstDifference(a: seq<string>, b: seq<string>, from: nat): (r: Option<nat>)
    requires |a| == |b| && from <= |a|
    ensures r.None? <==> a[from..] == b[from..]
    ensures r.Some? ==> from <= r.value < |a| && a[r.value] != b[r.value] && a[from..r.value] == b[from..r.value]
    decreases |a| - from
  {
    if from == |a| then None
    else if a[from] != b[from] then Some(from)
    else
      var r := FirstDifference(a, b, from + 1);
      assert a[from..] == [a[from]] + a[from + 1..] && b[from..] == [b[from]] + b[from + 1..];
      assert r.Some? ==> a[from..r.value] == [a[from]] + a[from + 1..r.value]
                         && b[from..r.value] == [b[from]] + b[from + 1..r.value];
      r
  }

  /** One recorded step taken again. */
  function ReplayOne(codec: Codec, w: World, e: Entry): Outcome {
    if w.m.state != e.from then Diverged(e.seqNo, FromState)
    else
      var ev := EventOf(codec, e);
      if ev.None? then Unreadable(e.seqNo)
      else
        var i := Input(e.now, e.rnd, ev.value);
        var r, got := Next(w, i), Rendered(codec, Emitted(w, i));
        if r.m.state != e.to then Diverged(e.seqNo, ToState)
        else if |got| != |e.actions| then Diverged(e.seqNo, ActionCount)
        else
          var k := FirstDifference(got, e.actions, 0);
          if k.Some? then Diverged(e.seqNo, ActionAt(k.value)) else Done(r)
  }

  function Emitted(w: World, i: Input): seq<Stamped> { Advance(w.m, w.e, i.now, i.rnd, i.ev).out }

  function Replayed(codec: Codec, w: World, entries: seq<Entry>): Outcome {
    if entries == [] then Done(w)
    else
      var before := Replayed(codec, w, entries[..|entries| - 1]);
      if before.Done? then ReplayOne(codec, before.w, entries[|entries| - 1]) else before
  }

  lemma {:induction false} StaysStopped(codec: Codec, w: World, entries: seq<Entry>, k: nat)
    requires k <= |entries| && !Replayed(codec, w, entries[..k]).Done?
    ensures Replayed(codec, w, entries) == Replayed(codec, w, entries[..k])
  {
    if k == |entries| {
      assert entries[..k] == entries;
    } else {
      assert entries[..|entries| - 1][..k] == entries[..k];
      StaysStopped(codec, w, entries[..|entries| - 1], k);
    }
  }

  /** Replay as the program runs it: one pass, stopping at the first difference. */
  method Replay(codec: Codec, p: Params, start: Instant, entries: seq<Entry>) returns (r: Outcome)
    ensures r == Replayed(codec, Initial(p, start), entries)
  {
    hide ReplayOne;
    var w := Initial(p, start);
    var n := 0;
    while n < |entries|
      invariant 0 <= n <= |entries|
      invariant Replayed(codec, Initial(p, start), entries[..n]) == Done(w)
    {
      var one := ReplayOne(codec, w, entries[n]);
      assert entries[..n + 1][..n] == entries[..n];
      if !one.Done? {
        StaysStopped(codec, Initial(p, start), entries, n + 1);
        return one;
      }
      w := one.w;
      n := n + 1;
    }
    assert entries[..n] == entries;
    return Done(w);
  }

  /** The journal of a run. */
  function Recorded(codec: Codec, w: World, ins: seq<Input>): (r: seq<Entry>)
    ensures |r| == |ins|
  {
    if ins == [] then []
    else
      var k := |ins| - 1;
      var v := Play(w, ins[..k]);
      Recorded(codec, w, ins[..k]) + [NewEntry(codec, k, ins[k], v.m.state, Next(v, ins[k]).m.state,
                                               Emitted(v, ins[k]))]
  }

  /** What was received is what its octets decode to. */
  predicate Faithful(codec: Codec, ins: seq<Input>) {
    forall k :: 0 <= k < |ins| ==> FaithfulEvent(codec, ins[k].ev)
  }

  predicate FaithfulEvent(codec: Codec, ev: Event) {
    && (ev.Received? ==> ev.raw.Some? && ev.msg.Some? && codec.message(ev.raw.value.octets) == ev.msg
                         && codec.frame(ev.raw.value.octets) == ev.raw)
    && (ev.RouterAdvert? ==> ev.octets != [] && codec.advert(ev.octets))
  }

  /** The step is one whose ARP packet decided something. */
  predicate Decisive(w: World, i: Input) { i.ev.ARPReceived? && i.ev.pkt.Some? && Disputes(w.m, i.ev.pkt.value) }

  predicate NoneDecisive(w: World, ins: seq<Input>) {
    forall k :: 0 <= k < |ins| ==> !Decisive(Play(w, ins[..k]), ins[k])
  }

  /** The entry gives the event back, less any ARP packet. */
  lemma EventComesBack(codec: Codec, seqNo: nat, i: Input, from: State, to: State, acts: seq<Stamped>)
    requires FaithfulEvent(codec, i.ev)
    ensures EventOf(codec, NewEntry(codec, seqNo, i, from, to, acts))
            == Some(if i.ev.ARPReceived? then ARPReceived(None) else i.ev)
  {
  }

  lemma NoPacketNoChange(w: World, now: Instant, rnd: Entropy)
    requires Inv(w.m, w.e)
    ensures
      var i := Input(now, rnd, ARPReceived(None));
      Next(w, i) == World(w.m, w.e.(now := now)) && Emitted(w, i) == []
  {
    hide Executed, ApplyAll, DropLease, BeginAcquisition;
  }

  lemma UndisputedEmitsNothing(w: World, i: Input)
    requires Inv(w.m, w.e) && w.e.now <= i.now && i.ev.ARPReceived? && !Decisive(w, i)
    ensures Next(w, i) == World(w.m, w.e.(now := i.now)) && Emitted(w, i) == []
  {
    hide Executed, ApplyAll, DropLease, BeginAcquisition, Disputes;
    if i.ev.pkt.None? {
      NoPacketNoChange(w, i.now, i.rnd);
    } else {
      ArpDecides(w.m, w.e, i.now, i.rnd, i.ev.pkt.value);
      if w.m.state.Probing? || HoldsLease(w.m.state) {
        OnArpDecides(Begin(w.m, Deliver(w.e, i.now, i.ev)), i.rnd, i.ev.pkt.value);
      }
    }
  }

  /** One step recorded and replayed from the same world: it succeeds, and
      ends where the step did, unless an ARP packet decided the step. */
  lemma StepRoundTrip(codec: Codec, seqNo: nat, w: World, i: Input)
    requires Inv(w.m, w.e) && Admissible(w.e, i.now, i.ev) && FaithfulEvent(codec, i.ev)
    ensures
      var e := NewEntry(codec, seqNo, i, w.m.state, Next(w, i).m.state, Emitted(w, i));
      ReplayOne(codec, w, e) == if Decisive(w, i) then Diverged(seqNo, ToState) else Done(Next(w, i))
  {
    hide Next, Emitted, Disputes, Rendered, Inv;
    var e := NewEntry(codec, seqNo, i, w.m.state, Next(w, i).m.state, Emitted(w, i));
    EventComesBack(codec, seqNo, i, w.m.state, Next(w, i).m.state, Emitted(w, i));
    if i.ev.ARPReceived? {
      NoPacketNoChange(w, i.now, i.rnd);
      if Decisive(w, i) {
        DisputeEndsInInit(w, i);
      } else {
        UndisputedEmitsNothing(w, i);
      }
    }
  }

  lemma DisputeEndsInInit(w: World, i: Input)
    requires Inv(w.m, w.e) && w.e.now <= i.now && Decisive(w, i)
    ensures Next(w, i).m.state == Init && w.m.state != Init
  {
    hide Executed, StepBody;
    ArpDecides(w.m, w.e, i.now, i.rnd, i.ev.pkt.value);
  }

  /** A recorded run replays to its own end exactly when no ARP packet in it
      disputed the client's address; otherwise replay stops at the first one
      that did, and says so. */
  lemma {:induction false} JournalRoundTrip(codec: Codec, p: Params, start: Instant, ins: seq<Input>)
    requires p.Valid() && Legal(Initial(p, start), ins) && Faithful(codec, ins)
    ensures
      var w := Initial(p, start);
      var r := Replayed(codec, w, Recorded(codec, w, ins));
      && (r.Done? <==> NoneDecisive(w, ins))
      && (r.Done? ==> r.w == Play(w, ins))
      && (!r.Done? ==> r.Diverged? && r.seqNo < |ins| && r.field == ToState
                       && Decisive(Play(w, ins[..r.seqNo]), ins[r.seqNo]) && NoneDecisive(w, ins[..r.seqNo]))
  {
    hide Inv, Next, Emitted, ReplayOne, Decisive, FaithfulEvent, NewEntry;
    if ins != [] {
      var w, k := Initial(p, start), |ins| - 1;
      var rest := ins[..k];
      LegalPrefix(w, ins, k);
      JournalRoundTrip(codec, p, start, rest);
      assert Recorded(codec, w, ins)[..k] == Recorded(codec, w, rest);
      NewInv(p, start);
      PlayKeepsInv(w, rest);
      assert NoneDecisive(w, ins) <==> NoneDecisive(w, rest) && !Decisive(Play(w, rest), ins[k]) by {
        DecisiveLast(w, ins);
      }
      var before := Replayed(codec, w, Recorded(codec, w, rest));
      if before.Done? {
        StepRoundTrip(codec, k, Play(w, rest), ins[k]);
      } else {
        assert rest[..before.seqNo] == ins[..before.seqNo];
      }
    }
  }

  lemma DecisiveLast(w: World, ins: seq<Input>)
    requires |ins| > 0
    ensures
      var k := |ins| - 1;
      NoneDecisive(w, ins) <==> NoneDecisive(w, ins[..k]) && !Decisive(Play(w, ins[..k]), ins[k])
  {
    hide Decisive, Play;
    var k := |ins| - 1;
    if NoneDecisive(w, ins[..k]) && !Decisive(Play(w, ins[..k]), ins[k]) {
      forall j | 0 <= j < |ins| ensures !Decisive(Play(w, ins[..j]), ins[j]) {
        if j < k {
          assert ins[..k][..j] == ins[..j];
          assert !Decisive(Play(w, ins[..k][..j]), ins[..k][j]);
        }
      }
    }
    if NoneDecisive(w, ins) {
      forall j | 0 <= j < k ensures !Decisive(Play(w, ins[..k][..j]), ins[..k][j]) {
        assert ins[..k][..j] == ins[..j];
      }
    }
  }
}
