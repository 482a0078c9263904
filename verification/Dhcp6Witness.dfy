/** Two runs of the DHCPv6 client, from its start, to where it fails: bound
    with no lease and no timer, and with an address it never checked. */
module Dhcp6Witness {
  import opened Clock
  import opened Lease
  import opened Lease6
  import opened Dhcp6
  import opened Dhcp6Invariant
  import opened Dhcp6Steps
  import opened Dhcp6Runs
  import opened Dhcp6Unchecked
  import opened Dhcp6Kept
  import opened Dhcp6Stalls
  import Backoff6
  import Messages = Dhcp6Messages

  const CLIENT: Duid := [1]
  const SERVER: Duid := [2]
  const STABLE: Addr := 1
  const TEMPORARY: Addr := 2
  const KEY := 3
  const LIFETIME: Seconds32 := 100
  const FOREVER: Seconds32 := 0xFFFF_FFFF
  const LIFE: Duration := LIFETIME * SECOND

  const TABLE := Backoff6.Table(SECOND, SECOND, MINUTE, SECOND, MINUTE, 10, SECOND, SECOND, MINUTE, MINUTE, SECOND,
                                MINUTE, SECOND, MINUTE, SECOND, SECOND, MINUTE, SECOND, 4, SECOND, 4, MINUTE, MINUTE)

  const PARAMS := Params(CLIENT, 1, TABLE, true, true, 0, 0, 0, "", None, [])

  const KEYED := RKAP(true, KEY, 0)

  function Na(addrs: seq<Addr>): IA { IA(1, FOREVER, FOREVER, NoStatus, Some(Granting(addrs))) }

  function Granting(addrs: seq<Addr>): seq<IAAddr> {
    seq(|addrs|, i requires 0 <= i < |addrs| => IAAddr(addrs[i], LIFETIME, LIFETIME))
  }

  const FROM_SERVER := Message(Reply, 0, [SERVER], Some(CLIENT), NoStatus, 255, None, None, None, None, None, 0,
                               NoReconfigure, NoAuth)

  const ADVERTISE := FROM_SERVER.(kind := Advertise, nas := Some([Na([STABLE])]))
  const GRANT := FROM_SERVER.(nas := Some([Na([STABLE])]),
                              tas := Some([IA(1, 0, 0, NoStatus, Some(Granting([TEMPORARY])))]), auth := KEYED)

  function Asking(kind: Kind): Message {
    FROM_SERVER.(kind := Reconfigure, reconfigure := AsksFor(kind), auth := RKAP(false, 0, 1))
  }

  /** The Reply to the renewal: the temporary address granted as a stable one. */
  const SWAP := FROM_SERVER.(nas := Some([Na([STABLE, TEMPORARY])]))

  /** The Reply to the Information-request: nothing to refresh. */
  const FOR_GOOD := FROM_SERVER.(refresh := Some(FOREVER))

  function Hears(now: Instant, msg: Message): Input { Input(now, 0, Received(Some(msg), Frame({KEY}), Some(1))) }

  // ------------------------------------------------------------------- runs --

  /** A run so far, with every timer fired on time. */
  ghost predicate Reached(ins: seq<Input>, w: World) {
    var w0 := Initial(PARAMS, 0);
    Legal(w0, ins) && OnTime(w0, ins) && Play(w0, ins) == w && Inv(w.m, w.e)
  }

  lemma Begins()
    ensures Reached([], Initial(PARAMS, 0))
  {
    NewInv(PARAMS, 0);
  }

  lemma NothingIsLegal(w: World)
    ensures Legal(w, [])
  {
  }

  lemma Goes(ins: seq<Input>, w: World, i: Input)
    requires Reached(ins, w) && Admissible(w.e, i.now, i.ev) && Prompt(w.e, i.now)
    ensures Reached(ins + [i], Next(w, i))
  {
    hide Next, Admissible, Prompt, Inv;
    var w0, all, n := Initial(PARAMS, 0), ins + [i], |ins|;
    assert all[..n] == ins;
    forall j | 0 <= j < |all| ensures Admissible(Play(w0, all[..j]).e, all[j].now, all[j].ev)
        && Prompt(Play(w0, all[..j]).e, all[j].now) {
      if j < n {
        assert all[..j] == ins[..j];
      }
    }
    NextInv(w, i);
  }

  /** Nothing held, nothing asked, nothing yet known of any server. */
  predicate Fresh(m: Client, e: Env) {
    && m.params == PARAMS && m.lease.None? && m.resume.None? && m.hostname == "" && m.tried == []
    && !m.reconfDetour && !m.refreshOwed && m.reconf == map[] && m.declined == []
    && e.now == 0 && e.awaiting == {} && e.vouched == {} && e.gated && e.apart
  }

  /** Only the retransmission runs, and not yet due. */
  predicate Retransmits(t: Timers, now: Instant) {
    t.retransmit.Some? && now <= t.retransmit.value && t == NO_TIMERS.(retransmit := t.retransmit)
  }

  predicate AtInit(w: World) {
    && Fresh(w.m, w.e) && w.m.state == Init && w.m.pendingType == Solicit && w.m.msgType.None?
    && w.e.armed == NO_TIMERS.(delay := Some(0))
  }

  lemma Starts(w: World)
    requires w == Initial(PARAMS, 0)
    ensures AtInit(Next(w, Input(0, 0, Start)))
  {
    hide Executed;
    var c := Begun(w.m, Deliver(w.m, w.e, 0, Start));
    var r := Begin(c, 0);
    assert w.m.params == PARAMS;
    assert c.env() == w.e;
    assert RandomDelay(TABLE.solMaxDelay, 0) == 0;
    assert StepBody(c, 0, Start) == r;
    assert r.m.state == Init && r.m.pendingType == Solicit && r.m.msgType.None?;
    assert r.env().armed == NO_TIMERS.(delay := Some(0));
    assert r.m.reconf == map[];
    assert r.m.declined == [];
    assert r.m.tried == [];
    assert r.m.hostname == "";
    assert Fresh(r.m, r.env());
  }

  predicate AtSelecting(w: World) {
    && Fresh(w.m, w.e) && w.m.state == Selecting && w.m.msgType == Some(Solicit) && w.m.xid == 0 && w.m.adverts == []
    && !w.m.windowDone && Retransmits(w.e.armed, 0)
  }

  /** What starting an exchange comes to, at a moment when nothing else runs. */
  lemma Exchanges(c: Ctx, t: Kind, sid: Duid)
    requires c.m.params == PARAMS && Messages.MayStart(c.m, t)
            && t in {Solicit, Request, Renew, InformationRequest, Decline}
    ensures
      var r := StartExchangeFor(c, 0, t, sid);
      && r.m.xid == 0 && r.m.msgType == Some(t) && r.m.state == Waiting(t, c.m.state)
      && r.env() == c.env().(armed := r.env().armed, mail := r.env().mail, told := r.env().told)
      && r.env().armed == c.env().armed.(retransmit := r.env().armed.retransmit)
      && r.env().armed.retransmit.Some? && r.env().armed.retransmit.value >= c.now()
      && r.m.lease == c.m.lease && r.m.params == c.m.params && r.m.resume == c.m.resume && r.m.hostname == c.m.hostname
      && r.m.tried == c.m.tried && r.m.reconfDetour == c.m.reconfDetour && r.m.refreshOwed == c.m.refreshOwed
      && r.m.reconf == c.m.reconf && r.m.declined == c.m.declined && r.m.server == c.m.server
      && r.m.pending == c.m.pending && r.m.exchangeStart == c.now()
           && r.m.adverts == (if t == Solicit then [] else c.m.adverts)
      && (t == Solicit ==> !r.m.windowDone)
  {
    hide Executed, StartExchangeFor, Schedule, Backoff6.Retransmit.First;
    StartExchangeAside(c, 0, t, sid);
    ExchangesInTime(c, t, sid);
  }

  lemma ExchangesInTime(c: Ctx, t: Kind, sid: Duid)
    requires c.m.params == PARAMS && Messages.MayStart(c.m, t)
            && t in {Solicit, Request, Renew, InformationRequest, Decline}
    ensures
      var r := StartExchangeFor(c, 0, t, sid);
      r.env().armed.retransmit.Some? && r.env().armed.retransmit.value >= c.now()
  {
    hide Executed, StartExchangeFor, Messages.Proper;
    Messages.StartExchangeWrites(c, 0, t, sid);
    StartExchangeAside(c, 0, t, sid);
    var r := StartExchangeFor(c, 0, t, sid);
    assert r.m.msgType == Some(t) by { StartExchangeKind(c, t, sid); }
    assert r.m.sched == Schedule(r.m.params, t).(mrt := r.m.sched.mrt);
    assert Messages.Scheduled(r.m);
  }

  lemma StartExchangeKind(c: Ctx, t: Kind, sid: Duid)
    ensures StartExchangeFor(c, 0, t, sid).m.msgType == Some(t)
  {
    hide Executed, StartExchangeFor, Opened;
    OpenedFacts(c.m, c.now(), 0, t, sid);
    StartExchangeAside(c, 0, t, sid);
  }

  lemma Solicits(w: World)
    requires AtInit(w)
    ensures AtSelecting(Next(w, Input(0, 0, TimerFired(TimerDelay))))
  {
    hide Executed, StartExchangeFor;
    Exchanges(Begun(w.m, Deliver(w.m, w.e, 0, TimerFired(TimerDelay))), Solicit, []);
  }

  predicate AtRequesting(w: World) {
    && Fresh(w.m, w.e) && w.m.state == Requesting && w.m.msgType == Some(Request) && w.m.xid == 0
    && w.m.exchangeStart == 0 && Retransmits(w.e.armed, 0)
  }

  /** What one granted address, and one association, read as. */
  lemma ReadsOne(a: Addr, b: Addr)
    requires Usable(a) && Usable(b)
    ensures Granted(Granting([a])) == [Addr6(a, LIFE, LIFE)]
    ensures Granted(Granting([a, b])) == [Addr6(a, LIFE, LIFE), Addr6(b, LIFE, LIFE)]
    ensures Withdrawn(Granting([a])) == [] && Withdrawn(Granting([a, b])) == []
  {
    var one, two := Granting([a]), Granting([a, b]);
    assert one[..0] == [] && two[..1] == one && two[..0] == [];
    assert Granted(one[..0]) == [] && Withdrawn(one[..0]) == [];
  }

  lemma ReadsIA(ia: IA, timed: bool)
    requires IsOurs(ia, 1, timed)
    ensures ReadFirst([ia], 1, timed) == ReadOne(ia)
  {
    assert [ia][..0] == [];
    assert ReadFirst([], 1, timed) == NO_IA;
  }

  lemma ReadsNa(addrs: seq<Addr>)
    ensures ReadIA(Some([Na(addrs)]), 1)
            == IAResult(Granted(Granting(addrs)), Withdrawn(Granting(addrs)), INFINITE, INFINITE, NoStatus, true)
  {
    ReadsIA(Na(addrs), true);
  }

  const BOUND_ONE := [Addr6(STABLE, LIFE, LIFE)]
  const BOUND_TEMP := [Addr6(TEMPORARY, LIFE, LIFE)]
  const LEASE := Lease6(1, BOUND_ONE, BOUND_TEMP, SERVER, INFINITE, INFINITE, 0, 0, None)
  const HELD := LEASE.(authority := Some(Authority(Some(KEY), 0, false)))

  const ADVERT := Advert(SERVER, 255, BOUND_ONE, [], INFINITE, INFINITE)

  function Advertised(c: Ctx): Ctx { c.(m := c.m.(adverts := [ADVERT], windowDone := true)) }

  lemma TakesAdvert(c: Ctx)
    requires c.m.params == PARAMS && c.m.adverts == []
    ensures TakeAdvertise(c, 0, ADVERTISE) == SelectAndRequest(Advertised(c), 0).0
  {
    hide Executed, SelectAndRequest, ReadIA;
    ReadsNa([STABLE]);
    ReadsOne(STABLE, TEMPORARY);
    assert ApplyMaxRT(c, ADVERTISE) == c;
    assert ReadTemporary(None, 1, BOUND_ONE) == [];
    assert c.m.adverts + [ADVERT] == [ADVERT];
  }

  lemma Selects(c: Ctx)
    requires c.m.params == PARAMS && c.m.adverts == [ADVERT] && c.m.tried == []
    ensures
      var l := Lease6(1, BOUND_ONE, [], SERVER, INFINITE, INFINITE, 0, 0, None);
      SelectAndRequest(c, 0).0 == StartExchange(c.(m := c.m.(server := SERVER, pending := l)), 0, Request)
  {
    hide Executed, StartExchangeFor;
    assert [ADVERT][..0] == [];
    assert Best([], []) == None;
    assert Best([ADVERT], []) == Some(0);
  }

  lemma Requests(w: World)
    requires AtSelecting(w)
    ensures AtRequesting(Next(w, Hears(0, ADVERTISE)))
  {
    hide Executed, StartExchangeFor, TakeAdvertise, SelectAndRequest;
    var c := Begun(w.m, Deliver(w.m, w.e, 0, Hears(0, ADVERTISE).ev));
    var d := Advertised(c);
    TakesAdvert(c);
    Selects(d);
    var l := Lease6(1, BOUND_ONE, [], SERVER, INFINITE, INFINITE, 0, 0, None);
    Exchanges(d.(m := d.m.(server := SERVER, pending := l)), Request, []);
  }

  /** Waiting for the two checks, or for the second of them. */
  predicate AtChecking(w: World, first: bool) {
    && w.m.params == PARAMS && w.m.lease.None? && w.m.resume.None? && w.m.hostname == ""
    && !w.m.reconfDetour && !w.m.refreshOwed && w.m.reconf == map[SERVER := Authority(Some(KEY), 0, false)]
    && w.m.state == Checking && w.m.msgType.None? && w.m.pending == LEASE && w.m.dadBad == []
    && w.e.now == 0 && w.e.gated && w.e.apart
    && w.e.armed == NO_TIMERS.(dad := Some(DEFAULT_DAD_TIMEOUT))
    && w.m.dadWait == (if first then [STABLE, TEMPORARY] else [TEMPORARY])
    && w.e.awaiting == (if first then {STABLE, TEMPORARY} else {TEMPORARY})
    && w.e.vouched == if first then {} else {STABLE}
  }

  /** The grant, up to what is asked about it. */
  lemma TakesGrant(c: Ctx)
    requires c.m.params == PARAMS && c.m.lease.None? && c.m.state == Requesting && c.m.exchangeStart == 0
    requires c.m.reconf == map[]
    ensures
      var k := Cancel(c.(m := c.m.(server := SERVER, pending := LEASE, carried := [])), TimerRetransmit);
      var k := k.(m := k.m.(msgType := None, reconf := map[SERVER := Authority(Some(KEY), 0, false)]));
      TakeReply(c, 0, GRANT) == StartChecking(k, [STABLE, TEMPORARY])
  {
    hide Executed, ReadIA, StartChecking, EnterBound, Merged;
    GrantsLease(c);
    NotHeldNothing();
    assert ApplyMaxRT(c, GRANT) == c;
    assert TakeReply(c, 0, GRANT) == TakeIA(c, 0, GRANT);
    var (l, res) := LeaseFromReply(c.m, GRANT);
    assert TakeIA(c, 0, GRANT) == TakeGrant(c, 0, GRANT, l, []);
    var p := Pend(c, GRANT, l, []);
    assert p == Cancel(c.(m := c.m.(server := SERVER, pending := LEASE, carried := [])), TimerRetransmit)
               .(m := p.m);
    var k := NoteKey(p, GRANT);
    assert k.m.reconf == map[SERVER := Authority(Some(KEY), 0, false)];
    assert Unchecked(k.m, LEASE) == [STABLE, TEMPORARY];
  }

  /** What the grant reads as, and merges to. */
  lemma GrantsLease(c: Ctx)
    requires c.m.params == PARAMS && c.m.lease.None? && c.m.state == Requesting && c.m.exchangeStart == 0
    ensures
      var (l, res) := LeaseFromReply(c.m, GRANT);
      && l == LEASE.(temps := []) && res.status == NoStatus && res.zeroed == []
      && Merged(c.m, GRANT, l, [], c.now()) == LEASE
  {
    hide Executed, ReadIA;
    ReadsNa([STABLE]);
    ReadsOne(STABLE, TEMPORARY);
    ReadsTemps();
  }

  lemma Checks(w: World)
    requires AtRequesting(w)
    ensures AtChecking(Next(w, Hears(0, GRANT)), true)
  {
    hide Executed, TakeReply, StartChecking, ReadIA, ReadFirst;
    var c := Begun(w.m, Deliver(w.m, w.e, 0, Hears(0, GRANT).ev));
    TakesGrant(c);
    var k := Cancel(c.(m := c.m.(server := SERVER, pending := LEASE, carried := [])), TimerRetransmit);
    ChecksBoth(k.(m := k.m.(msgType := None, reconf := map[SERVER := Authority(Some(KEY), 0, false)])));
    assert StepBody(c, 0, Hears(0, GRANT).ev) == TakeReply(c, 0, GRANT);
  }

  lemma ReadsTemps()
    ensures ReadTemporary(GRANT.tas, 1, BOUND_ONE) == BOUND_TEMP
  {
    ReadsOne(TEMPORARY, STABLE);
    ReadsIA(GRANT.tas.value[0], false);
    assert BOUND_TEMP[..0] == [];
    assert DropStable([], BOUND_ONE) == [];
    assert BOUND_ONE[0].addr == STABLE;
    assert !Has(BOUND_ONE, TEMPORARY);
  }

  lemma NotHeldNothing()
    ensures NotHeld(BOUND_ONE, []) == [STABLE] && NotHeld(BOUND_TEMP, []) == [TEMPORARY]
  {
    assert BOUND_ONE[..0] == [] && BOUND_TEMP[..0] == [];
    assert NotHeld([], []) == [];
  }

  lemma ChecksBoth(c: Ctx)
    requires c.m.params == PARAMS
    ensures
      var r, both := StartChecking(c, [STABLE, TEMPORARY]), {STABLE, TEMPORARY};
      && r.m == c.m.(dadWait := [STABLE, TEMPORARY], dadBad := [], state := Checking, nextAction := r.m.nextAction)
      && r.env() == c.env().(awaiting := c.env().awaiting + both, vouched := c.env().vouched - both,
                             moved := r.env().moved, asks := true,
                             armed := c.env().armed.(dad := Some(c.now() + DEFAULT_DAD_TIMEOUT)))
  {
    hide Executed, AskAll;
    var asked := [STABLE, TEMPORARY];
    AskAllHolds(c.(m := c.m.(dadWait := asked, dadBad := [], state := Checking)), asked);
    assert Members(asked) == {STABLE, TEMPORARY};
  }

  lemma FirstIsFree(w: World)
    requires AtChecking(w, true)
    ensures AtChecking(Next(w, Input(0, 0, DADResult(STABLE, false))), false)
  {
    hide Executed, Checked;
    var s := [STABLE, TEMPORARY];
    assert s[1..] == [TEMPORARY];
    assert Without(s, STABLE) == [TEMPORARY];
  }

  /** Bound, with both addresses checked, to the last until their lifetime ends. */
  predicate AtBound(w: World) {
    && w.m.params == PARAMS && w.m.state == Bound && w.m.lease == Some(HELD) && w.m.resume.None? && w.m.hostname == ""
    && w.m.msgType.None? && !w.m.reconfDetour && !w.m.refreshOwed
    && w.m.reconf == map[SERVER := Authority(Some(KEY), 0, false)] && w.m.dadWait == [] && w.m.dadBad == []
    && w.e.now == 0 && w.e.gated && w.e.apart && w.e.awaiting == {} && w.e.vouched == {STABLE, TEMPORARY}
    && w.e.held == Some(HELD)
    && w.e.armed == NO_TIMERS.(expire := Some(LIFE))
  }

  lemma HeldDeadlines()
    ensures HELD.Deadlines() == Timing(None, None, Some(LIFE)) && ExpiryOf(HELD) == Some(LIFE)
    ensures Vouches(Initial(PARAMS, 0).e.(vouched := {STABLE, TEMPORARY}), HELD)
  {
    assert BOUND_ONE[..0] == [];
    assert LongestValid([]) == 0;
    assert LongestValid(BOUND_ONE) == LIFE;
    var both := HELD.Bindings();
    assert both[..1] == BOUND_ONE && both[1] == BOUND_TEMP[0];
    assert EarliestEnd(0, []) == None;
    assert EarliestEnd(0, BOUND_ONE) == Some(LIFE);
    assert EarliestEnd(0, both) == Some(LIFE);
  }

  /** Binding what has been checked. */
  lemma Binds(c: Ctx)
    requires c.m.params == PARAMS && c.m.lease.None? && c.m.hostname == "" && !c.m.refreshOwed && c.now() == 0
    requires c.m.reconf == map[SERVER := Authority(Some(KEY), 0, false)] && c.env().vouched == {STABLE, TEMPORARY}
    requires c.env().gated
    ensures
      var r := EnterBound(c, 0, LEASE);
      && r.m == Adopt(c.m, LEASE).(nextAction := r.m.nextAction)
      && r.env() == c.env().(armed := c.env().armed.(retransmit := None, renew := None, rebind := None,
                                                     expire := Some(LIFE)),
                             held := Some(HELD), heldAt := 0, coherent := r.env().coherent, traced := r.env().traced,
                             told := r.env().told)
  {
    hide Executed, Lease6.Deadlines, ExpiryOf, Vouches, Execute, Emit;
    HeldDeadlines();
    VouchesIs(Initial(PARAMS, 0).e.(vouched := {STABLE, TEMPORARY}), HELD);
    var k := Cancel(c, TimerRetransmit);
    CancelsRetransmit(c);
    var a := k.(m := Adopt(k.m, LEASE));
    assert a.m.Held() == HELD;
    VouchesIs(a.env(), HELD);
    var d := AnnounceLease(a, None);
    Announces(a);
    var x := ArmExpiry(ArmRenewal(d));
    Arms(d);
    assert EnterBound(c, 0, LEASE) == x;
  }

  lemma CancelsRetransmit(c: Ctx)
    ensures
      var k := Cancel(c, TimerRetransmit);
      k.env() == c.env().(armed := c.env().armed.(retransmit := None)) && k.m == c.m.(nextAction := c.m.nextAction + 1)
  {
    hide Executed;
  }

  lemma Announces(c: Ctx)
    requires c.m.lease.Some?
    ensures
      var r, e := AnnounceLease(c, None), c.env();
      && r.m == c.m.(nextAction := r.m.nextAction) && r.start == c.start
      && r.env() == e.(held := c.m.lease, heldAt := c.now(), coherent := r.env().coherent, told := r.env().told,
                       traced := r.env().traced, gated := e.gated && Vouches(e, c.m.Held()))
  {
    hide Executed, Vouches;
  }

  lemma Arms(c: Ctx)
    requires c.m.lease == Some(HELD) && c.now() == 0
    ensures
      var r := ArmExpiry(ArmRenewal(c));
      && r.m == c.m.(nextAction := r.m.nextAction)
      && r.env() == c.env().(armed := c.env().armed.(renew := None, rebind := None, expire := Some(LIFE)))
  {
    hide Executed, Lease6.Deadlines, ExpiryOf, Emit;
    HeldDeadlines();
  }

  lemma SecondIsFree(w: World)
    requires AtChecking(w, false)
    ensures AtBound(Next(w, Input(0, 0, DADResult(TEMPORARY, false))))
  {
    hide Executed, EnterBound, TakeDADResult;
    var c := Begun(w.m, Deliver(w.m, w.e, 0, DADResult(TEMPORARY, false)));
    var d := Cancel(c.(m := c.m.(dadWait := [], dadBad := [])), TimerDAD);
    var k := d.(m := DropPending(d.m));
    LastFree(c);
    Binds(k);
  }

  lemma LastFree(c: Ctx)
    requires c.m.dadWait == [TEMPORARY] && c.m.dadBad == []
    ensures
      var d := Cancel(c.(m := c.m.(dadWait := [], dadBad := [])), TimerDAD);
      TakeDADResult(c, 0, TEMPORARY, false) == EnterBound(d.(m := DropPending(d.m)), 0, c.m.pending)
  {
    hide Executed, EnterBound;
    assert Without([TEMPORARY], TEMPORARY) == [];
  }

  // ------------------------------------------------------------ to a dead end --

  /** As far as BOUND, everything at once and on time. */
  lemma ReachesBound() returns (ins: seq<Input>, w: World)
    ensures Reached(ins, w) && AtBound(w)
  {
    hide Next, Inv, Reached;
    Begins();
    ins, w := [], Initial(PARAMS, 0);
    Starts(w);
    ins, w := Onward(ins, w, Input(0, 0, Start));
    Solicits(w);
    ins, w := Onward(ins, w, Input(0, 0, TimerFired(TimerDelay)));
    Requests(w);
    ins, w := Onward(ins, w, Hears(0, ADVERTISE));
    Checks(w);
    ins, w := Onward(ins, w, Hears(0, GRANT));
    FirstIsFree(w);
    ins, w := Onward(ins, w, Input(0, 0, DADResult(STABLE, false)));
    SecondIsFree(w);
    ins, w := Onward(ins, w, Input(0, 0, DADResult(TEMPORARY, false)));
  }

  lemma Onward(before: seq<Input>, v: World, i: Input) returns (ins: seq<Input>, w: World)
    requires Reached(before, v) && Admissible(v.e, i.now, i.ev) && Prompt(v.e, i.now)
    ensures ins == before + [i] && w == Next(v, i) && Reached(ins, w)
  {
    hide Next, Inv, Reached, Admissible, Prompt;
    Goes(before, v, i);
    ins, w := before + [i], Next(v, i);
  }

  predicate AtDetour(w: World) {
    && w.m.params == PARAMS && w.m.state == InfoRequesting && w.m.lease == Some(HELD) && w.m.reconfDetour
    && w.m.msgType == Some(InformationRequest) && w.m.xid == 0 && w.e.now == LIFE
    && w.e.armed.retransmit.Some? && w.e.armed.retransmit.value >= LIFE
    && w.e.armed == NO_TIMERS.(expire := Some(LIFE), retransmit := w.e.armed.retransmit)
  }

  lemma StepsAside(w: World)
    requires AtBound(w)
    ensures AtDetour(Next(w, Hears(LIFE, Asking(InformationRequest))))
  {
    hide Executed, StartExchangeFor;
    var c := Begun(w.m, Deliver(w.m, w.e, LIFE, Hears(LIFE, Asking(InformationRequest)).ev));
    Exchanges(c.(m := c.m.(reconfDetour := true)), InformationRequest, SERVER);
  }

  predicate AtStale(w: World) {
    && w.m.params == PARAMS && Stale(w.m) && w.m.msgType == Some(InformationRequest) && w.m.xid == 0 && w.e.now == LIFE
    && w.e.armed.retransmit.Some? && w.e.armed.retransmit.value >= LIFE
    && w.e.armed == NO_TIMERS.(retransmit := w.e.armed.retransmit)
  }

  lemma Expires(w: World)
    requires AtDetour(w)
    ensures AtStale(Next(w, Input(LIFE, 0, TimerFired(TimerExpire))))
  {
    hide Executed, ExpireLease;
    Loses(Begun(w.m, Deliver(w.m, w.e, LIFE, TimerFired(TimerExpire))));
  }

  lemma Loses(c: Ctx)
    requires c.m.lease == Some(HELD) && c.m.state == InfoRequesting && c.now() == LIFE
    ensures
      var r := ExpireLease(c, 0);
      && r.m == c.m.(lease := None, nextAction := r.m.nextAction)
      && r.env().now == LIFE && r.env().armed == c.env().armed.(expire := None)
  {
    hide Executed, RestartDiscovery, Lease6.Deadlines;
    HeldDeadlines();
    assert AllEnded(HELD, LIFE);
  }

  /** A run from the start, every timer on time, that ends bound with no lease
      and no timer: an authenticated Reconfigure asks for an
      Information-request as the lease ends, and its Reply needs no refresh. */
  lemma DeadEndReached() returns (ins: seq<Input>)
    ensures PARAMS.Valid() && Legal(Initial(PARAMS, 0), ins) && OnTime(Initial(PARAMS, 0), ins)
    ensures Dead(Play(Initial(PARAMS, 0), ins))
  {
    hide Next, Inv, Legal, OnTime, Play, Configures;
    var w;
    ins, w := ReachesBound();
    StepsAside(w);
    ins, w := Onward(ins, w, Hears(LIFE, Asking(InformationRequest)));
    Expires(w);
    ins, w := Onward(ins, w, Input(LIFE, 0, TimerFired(TimerExpire)));
    var i := Hears(LIFE, FOR_GOOD);
    assert Configures(w.m, i.ev) by { EndsRequest(w.m); }
    BareFrom(w, i);
    BareStep(w, i);
    ins, w := Onward(ins, w, i);
  }

  lemma EndsRequest(m: Client)
    requires m.params == PARAMS && Stale(m) && m.msgType == Some(InformationRequest) && m.xid == 0
    ensures Configures(m, Hears(LIFE, FOR_GOOD).ev)
  {
  }

  // ------------------------------------------------- to an unchecked address --

  const SWAPPED_ADDRS := [Addr6(STABLE, LIFE, LIFE), Addr6(TEMPORARY, LIFE, LIFE)]
  const SWAPPED := Lease6(1, SWAPPED_ADDRS, BOUND_TEMP, SERVER, INFINITE, INFINITE, 0, 0, None)

  predicate AtRenewing(w: World) {
    && w.m.params == PARAMS && w.m.state == Renewing && w.m.lease == Some(HELD) && w.m.server == SERVER
    && w.m.msgType == Some(Renew) && w.m.xid == 0 && w.m.exchangeStart == 0
    && w.e.now == 0 && w.e.gated && w.e.awaiting == {} && w.e.vouched == {STABLE, TEMPORARY} && w.e.held == Some(HELD)
    && w.e.armed.retransmit.Some? && w.e.armed.retransmit.value >= 0
    && w.e.armed == NO_TIMERS.(expire := Some(LIFE), retransmit := w.e.armed.retransmit)
  }

  lemma Renews(w: World)
    requires AtBound(w)
    ensures AtRenewing(Next(w, Hears(0, Asking(Renew))))
  {
    hide Executed, StartExchangeFor, TakeReconfigure;
    var c := Begun(w.m, Deliver(w.m, w.e, 0, Hears(0, Asking(Renew)).ev));
    var k := c.(m := c.m.(server := SERVER));
    Exchanges(k, Renew, []);
    TakesRenew(c);
    assert StepBody(c, 0, Hears(0, Asking(Renew)).ev) == TakeReconfigure(c, 0, Asking(Renew), Frame({KEY}), Some(1));
  }

  lemma TakesRenew(c: Ctx)
    requires c.m.params == PARAMS && c.m.msgType.None? && c.m.state == Bound && c.m.lease == Some(HELD)
            && !c.m.refreshOwed
    requires c.m.reconf == map[SERVER := Authority(Some(KEY), 0, false)]
    ensures
      var r, x := TakeReconfigure(c, 0, Asking(Renew), Frame({KEY}), Some(1)),
                  StartExchange(c.(m := c.m.(server := SERVER)), 0, Renew);
      r.m == x.m.(reconf := r.m.reconf, counts := r.m.counts) && r.env() == x.env()
  {
    hide Executed, StartExchangeFor, EnterRenewing, ReconfigureFault;
    AcceptsRenew(c.m);
    RenewsBySelf(c);
  }

  lemma AcceptsRenew(m: Client)
    requires m.params == PARAMS && m.msgType.None? && m.state == Bound && m.lease == Some(HELD)
    requires m.reconf == map[SERVER := Authority(Some(KEY), 0, false)]
    ensures ReconfigureFault(m, Asking(Renew), Frame({KEY}), Some(1)) == None
  {
  }

  lemma RenewsBySelf(c: Ctx)
    requires c.m.lease == Some(HELD) && !c.m.refreshOwed
    ensures EnterRenewing(c, 0) == StartExchange(c.(m := c.m.(server := SERVER)), 0, Renew)
  {
    hide Executed, StartExchangeFor;
  }

  /** The temporary address is on both sides, and asked about once more. */
  predicate AtSwapped(w: World) {
    && w.m.params == PARAMS && w.m.state == Checking && w.m.msgType.None? && w.m.pending == SWAPPED
    && w.m.dadWait == [TEMPORARY] && w.m.dadBad == []
    && w.e.now == 0 && w.e.gated && w.e.awaiting == {TEMPORARY} && w.e.vouched == {STABLE} && TEMPORARY in w.e.moved
    && w.e.armed == NO_TIMERS.(expire := Some(LIFE), dad := Some(DEFAULT_DAD_TIMEOUT))
  }

  lemma MergesSwap(m: Client)
    requires m.params == PARAMS && m.lease == Some(HELD) && m.state == Renewing && m.exchangeStart == 0
    ensures
      var (l, res) := LeaseFromReply(m, SWAP);
      && l == SWAPPED.(temps := []) && res.status == NoStatus && res.zeroed == []
      && Merged(m, SWAP, l, [], 0) == SWAPPED
  {
    hide ReadIA, FromHeld, Added;
    ReadsNa([STABLE, TEMPORARY]);
    ReadsOne(STABLE, TEMPORARY);
    RenewsBoth();
    CarriesTemp();
  }

  lemma RenewsBoth()
    ensures RenewedAddrs(BOUND_ONE, 0, SWAPPED_ADDRS, [], 0, 0) == SWAPPED_ADDRS
  {
    assert BOUND_ONE[..0] == [] && SWAPPED_ADDRS[..1] == BOUND_ONE;
    assert IndexOf(SWAPPED_ADDRS, STABLE) == Some(0);
    assert FromHeld([], 0, SWAPPED_ADDRS, [], 0, 0) == [];
    assert FromHeld(BOUND_ONE, 0, SWAPPED_ADDRS, [], 0, 0) == BOUND_ONE;
    assert Added([], BOUND_ONE) == [] && Added(BOUND_ONE, BOUND_ONE) == [];
    assert Added(SWAPPED_ADDRS, BOUND_ONE) == BOUND_TEMP;
  }

  lemma CarriesTemp()
    ensures CarriedTemps(BOUND_TEMP, 0, 0, 0) == BOUND_TEMP
  {
    assert BOUND_TEMP[..0] == [];
    assert FromHeld([], 0, [], [], 0, 0) == [];
  }

  lemma NotHeldSwapped()
    ensures NotHeld(SWAPPED_ADDRS, BOUND_ONE) == [TEMPORARY] && NotHeld(BOUND_TEMP, BOUND_TEMP) == []
  {
    assert BOUND_TEMP[..0] == [] && SWAPPED_ADDRS[..1] == BOUND_ONE && BOUND_ONE[..0] == [];
    assert NotHeld([], BOUND_ONE) == [] && NotHeld(BOUND_ONE, BOUND_ONE) == [];
    assert NotHeld([], BOUND_TEMP) == [];
  }

  lemma TakesSwap(c: Ctx)
    requires c.m.params == PARAMS && c.m.lease == Some(HELD) && c.m.state == Renewing && c.m.exchangeStart == 0
            && c.now() == 0
    ensures
      var p := Pend(c, SWAP, SWAPPED.(temps := []), []);
      TakeReply(c, 0, SWAP) == StartChecking(p, [TEMPORARY]) && p.m.pending == SWAPPED
  {
    hide Executed, ReadIA, StartChecking, EnterBound, Merged;
    MergesSwap(c.m);
    NotHeldSwapped();
    assert ApplyMaxRT(c, SWAP) == c;
    assert TakeReply(c, 0, SWAP) == TakeIA(c, 0, SWAP);
    assert TakeIA(c, 0, SWAP) == TakeGrant(c, 0, SWAP, SWAPPED.(temps := []), []);
    var p := Pend(c, SWAP, SWAPPED.(temps := []), []);
    assert p.m.Held() == HELD && p.m.pending == SWAPPED;
    assert Unchecked(p.m, SWAPPED) == [TEMPORARY];
  }

  lemma ChecksOne(c: Ctx)
    requires c.m.params == PARAMS
    ensures
      var r := StartChecking(c, [TEMPORARY]);
      && r.m == c.m.(dadWait := [TEMPORARY], dadBad := [], state := Checking, nextAction := r.m.nextAction)
      && r.env() == c.env().(awaiting := c.env().awaiting + {TEMPORARY}, vouched := c.env().vouched - {TEMPORARY},
                             moved := r.env().moved, asks := true,
                             armed := c.env().armed.(dad := Some(c.now() + DEFAULT_DAD_TIMEOUT)))
      && (c.env().held == Some(HELD) ==> TEMPORARY in r.env().moved)
  {
    hide Executed, AskAll;
    assert BOUND_TEMP[0].addr == TEMPORARY && HELD.Lists(TEMPORARY);
    var asked := [TEMPORARY];
    AskAllHolds(c.(m := c.m.(dadWait := asked, dadBad := [], state := Checking)), asked);
    assert Members(asked) == {TEMPORARY};
  }

  lemma Swaps(w: World)
    requires AtRenewing(w)
    ensures AtSwapped(Next(w, Hears(0, SWAP)))
  {
    hide Executed, TakeReply, StartChecking, ReadIA, Merged, CarriedAddrs;
    var c := Begun(w.m, Deliver(w.m, w.e, 0, Hears(0, SWAP).ev));
    TakesSwap(c);
    ChecksOne(Pend(c, SWAP, SWAPPED.(temps := []), []));
    assert StepBody(c, 0, Hears(0, SWAP).ev) == TakeReply(c, 0, SWAP);
  }

  /** The moved address turns out to be in use. */
  lemma SwapInUse(w: World)
    requires AtSwapped(w)
    ensures KeepsRest(w.m, DADResult(TEMPORARY, true)) && Temporary(SWAPPED, [TEMPORARY]) == [TEMPORARY]
    ensures Answered(w.e, TEMPORARY, true).Loose(TEMPORARY) && Has(SWAPPED_ADDRS, TEMPORARY)
  {
    var bad := InUse(w.m, DADResult(TEMPORARY, true));
    assert bad == [TEMPORARY] && bad[..0] == [];
    assert Temporary(SWAPPED, []) == [];
    assert Temporary(SWAPPED, bad) == [TEMPORARY] by { assert BOUND_TEMP[0].addr == TEMPORARY; }
    assert SWAPPED_ADDRS[1].addr == TEMPORARY;
  }

  /** So what is kept of the lease names an address that failed its check. */
  lemma SwapTaints(w: World)
    requires AtSwapped(w)
    ensures
      var ev := DADResult(TEMPORARY, true);
      var r := Next(w, Input(0, 0, ev));
      Waits(r.m) && r.e.gated && Tainted(r.e, w.m.pending.(temps := Excluding(w.m.pending.temps, InUse(w.m, ev))))
  {
    hide Next, KeepsRest, InUse, Excluding, Answered;
    var i := Input(0, 0, DADResult(TEMPORARY, true));
    SwapInUse(w);
    LastAnswer(w, i);
    assert Next(w, i).e.Loose(TEMPORARY);
    assert w.m.pending.(temps := Excluding(w.m.pending.temps, InUse(w.m, i.ev))).Lists(TEMPORARY);
  }

  lemma DeclinesInTime(c: Ctx)
    requires c.m.params == PARAMS
    ensures
      var r := DeclineSet(c, 0, SERVER, [], [TEMPORARY], BindKept);
      && r.env().armed == c.env().armed.(dad := None, retransmit := r.env().armed.retransmit)
      && r.env().armed.retransmit.Some? && r.env().armed.retransmit.value >= c.now()
      && r.m.params == PARAMS
  {
    hide Executed, StartExchangeFor;
    var d := c.(m := c.m.(declined := Remember(c.m.declined, [])));
    var m := d.m.(server := SERVER, declining := [], decliningTA := [TEMPORARY], afterDecline := Some(BindKept),
                  state := Checking);
    Exchanges(Cancel(d.(m := m), TimerDAD), Decline, []);
  }

  lemma SwapDeclines(w: World)
    requires AtSwapped(w)
    ensures
      var r := Next(w, Input(0, 0, DADResult(TEMPORARY, true)));
      && r.e.armed == NO_TIMERS.(expire := Some(LIFE), retransmit := r.e.armed.retransmit) && r.m.params == PARAMS
      && r.e.armed.retransmit.Some? && r.e.armed.retransmit.value >= 0 && r.e.now == 0
  {
    hide Executed, TakeDADResult;
    var c := Begun(w.m, Deliver(w.m, w.e, 0, DADResult(TEMPORARY, true)));
    SwapInUse(w);
    LastInUse(c);
    assert StepBody(c, 0, DADResult(TEMPORARY, true)) == TakeDADResult(c, 0, TEMPORARY, true);
  }

  lemma LastInUse(c: Ctx)
    requires c.m.params == PARAMS && c.m.dadWait == [TEMPORARY] && c.m.dadBad == [] && c.m.pending == SWAPPED
    requires Temporary(SWAPPED, [TEMPORARY]) == [TEMPORARY]
    ensures
      var r := TakeDADResult(c, 0, TEMPORARY, true);
      && r.env().armed == c.env().armed.(dad := None, retransmit := r.env().armed.retransmit) && r.m.params == PARAMS
      && r.env().armed.retransmit.Some? && r.env().armed.retransmit.value >= c.now()
  {
    hide Executed, DeclineSet, EnterBound, Temporary, Excluding;
    assert Without([TEMPORARY], TEMPORARY) == [] && c.m.dadBad + [TEMPORARY] == [TEMPORARY];
    var d := Cancel(c.(m := c.m.(dadWait := [], dadBad := [TEMPORARY])), TimerDAD);
    var rest := SWAPPED.(temps := Excluding(BOUND_TEMP, [TEMPORARY]));
    DeclinesInTime(d.(m := d.m.(pending := rest, dadWait := [], dadBad := [])));
  }

  /** A run from the start that ends with an address announced that failed its
      check: a server grants the client's temporary address as a stable one,
      and the check it makes then finds the address in use. */
  lemma UncheckedReached() returns (ins: seq<Input>)
    ensures PARAMS.Valid() && Legal(Initial(PARAMS, 0), ins) && OnTime(Initial(PARAMS, 0), ins)
    ensures !Play(Initial(PARAMS, 0), ins).e.gated
  {
    hide Next, Inv, Legal, OnTime, KeepsRest, InUse, Tainted, Excluding, Answered;
    var w;
    ins, w := ReachesBound();
    Renews(w);
    ins, w := Onward(ins, w, Hears(0, Asking(Renew)));
    Swaps(w);
    ins, w := Onward(ins, w, Hears(0, SWAP));
    var i := Input(0, 0, DADResult(TEMPORARY, true));
    SwapInUse(w);
    SwapDeclines(w);
    SwapTaints(w);
    var v := w;
    ins, w := Onward(ins, w, i);
    var j := Hears(0, FROM_SERVER.(xid := w.m.xid));
    assert Play(w, []) == w && WaitsThrough(w, []);
    NothingIsLegal(w);
    KeptLeaseUnchecked(v, i, [], j);
    ins, w := Onward(ins, w, j);
  }
}
