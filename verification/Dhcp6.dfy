/** The DHCPv6 client state machine of RFC 9915 for one IA_NA, and optionally
    one IA_TA, as a function of its inputs. */
module Dhcp6 {
  import opened Clock
  import opened Lease
  import opened Lease6
  import Backoff6

  datatype State =
    | Stopped | Init | Selecting | Requesting | Confirming | InfoRequesting | Checking | Bound | Renewing | Rebinding

  datatype TimerID =
    | TimerRetransmit | TimerDelay | TimerExpire | TimerRenew | TimerRebind | TimerDAD | TimerRefresh

  const ALL_TIMERS: seq<TimerID> :=
    [TimerRetransmit, TimerDelay, TimerExpire, TimerRenew, TimerRebind, TimerDAD, TimerRefresh]

  datatype Reason =
    | ReasonStopped | ReasonReleased | ReasonLinkDown | ReasonConflict | ReasonExpired | ReasonNak
    | ReasonTransport | ReasonDADIncomplete

  datatype Kind =
    | Solicit | Advertise | Request | Confirm | Renew | Rebind | Reply | Release | Decline | Reconfigure
    | InformationRequest | OtherKind

  datatype Status = NoStatus | BadStatus | Code(code: nat)

  const SUCCESS := 0
  const UNSPEC_FAIL := 1
  const NO_ADDRS_AVAIL := 2
  const NO_BINDING := 3
  const NOT_ON_LINK := 4

  datatype IAAddr = IAAddr(addr: Addr, preferred: Seconds32, valid: Seconds32)

  /** An identity association as decoded; no addresses where one of them would not decode. */
  datatype IA = IA(iaid: nat, t1: Seconds32, t2: Seconds32, status: Status, addrs: Option<seq<IAAddr>>)

  datatype ReconfigureOption = NoReconfigure | BadReconfigure | AsksFor(kind: Kind)

  /** The Authentication option of a received message. */
  datatype Auth = NoAuth | UnreadableAuth | NotRKAP | RKAP(isKey: bool, key: int, replay: nat)

  /** A received message, already decoded. */
  datatype Message = Message(kind: Kind, xid: nat, servers: seq<Duid>, client: Option<Duid>, status: Status,
                             preference: nat, nas: Option<seq<IA>>, tas: Option<seq<IA>>,
                             solMaxRT: Option<Seconds32>, infMaxRT: Option<Seconds32>, refresh: Option<Seconds32>,
                             config: int, reconfigure: ReconfigureOption, auth: Auth)
  {
    function Server(): Duid { if servers == [] then [] else servers[0] }
  }

  /** The keys the octets of a message verify under. */
  datatype Frame = Frame(verifiesUnder: set<int>)

  datatype Outgoing = Outgoing(kind: Kind, xid: nat, server: Duid, addrs: seq<Addr>, temps: seq<Addr>, name: string)

  datatype Action =
    | Send(msg: Outgoing)
    | SetTimer(timer: TimerID, after: Duration)
    | CancelTimer(timer: TimerID)
    | StartDAD(target: Addr)
    | LeaseAcquired(lease: Lease6)
    | LeaseRenewed(lease: Lease6)
    | LeaseChanged(lease: Lease6)
    | LeaseLost(reason: Reason, lease: Lease6)
    | Failed(reason: Reason)
    | Refused(code: nat)
    | Configured(config: int, refresh: Duration)

  datatype Stamped = Stamped(id: nat, act: Action)

  datatype Event =
    | Start | Stop | Release | LinkDown | LinkUp | AddressLost | ConflictDetected | ARPReceived
    | Received(msg: Option<Message>, raw: Frame, dst: Option<Addr>)
    | TimerFired(timer: TimerID)
    | ActionFailed(action: nat)
    | DADResult(addr: Addr, duplicate: bool)
    | RouterAdvert(managed: bool, other: bool)
    | SetHostname(name: string)

  /** An IPv6 address a client can use: not unspecified, not IPv4-mapped. */
  predicate Usable(a: Addr) { a != 0 && a / 0x1_0000_0000 != 0xFFFF }

  datatype Resume = Resume(addrs: seq<Addr6>, server: Duid, t1: Duration, t2: Duration, config: int,
                           authority: Option<Authority>)
  {
    predicate Live() { exists i :: 0 <= i < |addrs| && Usable(addrs[i].addr) }
  }

  const DEFAULT_DAD_TIMEOUT: Duration := 4 * SECOND
  const DEFAULT_MAX_SEND_FAILURES := 5

  datatype Params = Params(duid: Duid, iaid: nat, table: Backoff6.Table, acceptReconfigure: bool, temporary: bool,
                           dadTimeout: Duration, maxSendFailures: int, hint: Addr, hostname: string,
                           resume: Option<Resume>, declined: seq<Addr>)
  {
    predicate Valid() {
      && duid != [] && table.Valid() && dadTimeout >= 0 && ValidHostname(hostname)
      && (resume.Some? ==> resume.value.Live())
    }

    function DADTimeout(): (d: Duration)
      ensures d > 0
    {
      if dadTimeout <= 0 then DEFAULT_DAD_TIMEOUT else dadTimeout
    }

    function MaxSendFailures(): int { if maxSendFailures <= 0 then DEFAULT_MAX_SEND_FAILURES else maxSendFailures }
  }

  predicate ValidHostname(name: string) {
    |name| <= 255 && forall i :: 0 <= i < |name| ==> '!' <= name[i] <= '~'
  }

  datatype Advert = Advert(server: Duid, preference: nat, addrs: seq<Addr6>, temps: seq<Addr6>, t1: Duration,
                           t2: Duration)

  datatype Refusal =
    | Unwilling | ExchangeInFlight | NotUnicast | NoServerID | AmbiguousServerID | NoClientID | ForeignClientID
    | NoReconfigureMessage | BadReconfigureMessage | NoAuthentication | UnreadableAuthentication | NotRKAPAuth | NoKey
    | BadDigest | Replayed | NoLease | NoConfiguration | UndefinedMessage

  datatype Counters = Counters(accepted: nat, refused: multiset<Refusal>)

  /** What follows a Decline once it is answered or given up. */
  datatype Continuation = Restart | BindKept

  datatype Client = Client(params: Params, state: State, nextAction: nat, hostname: string, exchangeName: string,
                           nameOnWire: string, msgType: Option<Kind>, xid: nat, sched: Backoff6.Retransmit,
                           exchangeStart: Instant, rt: Duration, transmits: nat, sendFailures: nat, pendingType: Kind,
                           adverts: seq<Advert>, windowDone: bool, tried: seq<Duid>, server: Duid,
                           lease: Option<Lease6>, pending: Lease6, dadWait: seq<Addr>, dadBad: seq<Addr>,
                           carried: seq<Addr>, declining: seq<Addr>, decliningTA: seq<Addr>, releasing: seq<Addr>,
                           releasingTA: seq<Addr>, afterDecline: Option<Continuation>, declined: seq<Addr>,
                           resume: Option<Resume>, refresh: Duration, reconf: map<Duid, Authority>, counts: Counters,
                           reconfDetour: bool, reconfServerID: Duid, refreshOwed: bool)
  {
    function Held(): Lease6 { if lease.Some? then lease.value else NO_LEASE }
  }

  const NO_SCHEDULE := Backoff6.Retransmit(0, 0, 0, 0)

  function New(p: Params): Client {
    Client(p, Stopped, 0, p.hostname, "", "", None, 0, NO_SCHEDULE, 0, 0, 0, 0, Solicit, [], false, [], [], None,
           NO_LEASE, [], [], [], [], [], [], [], None, Remember([], p.declined), p.resume, 0, Seeded(p.resume),
           Counters(0, multiset{}), false, [], false)
  }

  /** A remembered key is the only authority a new client starts with. */
  function Seeded(r: Option<Resume>): map<Duid, Authority> {
    if r.None? || r.value.authority.None? || r.value.authority.value.key.None? then map[]
    else
      var a := r.value.authority.value;
      map[r.value.server := a.(seen := a.seen || a.replay != 0)]
  }

  // --------------------------------------------------------- environment --

  datatype Timers = Timers(retransmit: Option<Instant>, delay: Option<Instant>, expire: Option<Instant>,
                           renew: Option<Instant>, rebind: Option<Instant>, dad: Option<Instant>,
                           refresh: Option<Instant>)
  {
    function At(t: TimerID): Option<Instant> {
      match t
      case TimerRetransmit => retransmit
      case TimerDelay => delay
      case TimerExpire => expire
      case TimerRenew => renew
      case TimerRebind => rebind
      case TimerDAD => dad
      case TimerRefresh => refresh
    }

    function With(t: TimerID, at: Option<Instant>): Timers {
      match t
      case TimerRetransmit => this.(retransmit := at)
      case TimerDelay => this.(delay := at)
      case TimerExpire => this.(expire := at)
      case TimerRenew => this.(renew := at)
      case TimerRebind => this.(rebind := at)
      case TimerDAD => this.(dad := at)
      case TimerRefresh => this.(refresh := at)
    }
  }

  const NO_TIMERS := Timers(None, None, None, None, None, None, None)

  /** What the caller has after executing a list of actions: the running
      timers, the lease it was told of and when, whether each announcement
      agreed with the ones before it, the messages sent, the checks it was
      asked to run and has not answered, the addresses whose last check it
      answered free, and those last asked about while its lease named them;
      whether no lease was ever announced with an address not vouched for,
      whether none was with an address neither vouched for nor asked about in
      that way, whether the step under way has asked, and whether no server has
      yet moved an address between the stable and the temporary ones. */
  datatype Env = Env(now: Instant, armed: Timers, held: Option<Lease6>, heldAt: Instant, coherent: bool,
                     mail: seq<Outgoing>, told: seq<Action>, awaiting: set<Addr>, vouched: set<Addr>, moved: set<Addr>,
                     gated: bool, traced: bool, asks: bool, apart: bool)
  {
    /** The addresses a lease may come to name. */
    function Trusted(): set<Addr> { vouched + moved }

    /** Asked about while the lease named it, and since then not found free. */
    predicate Loose(a: Addr) { a in moved && a !in vouched }
  }

  /** A caller that has been told nothing. */
  function Untold(now: Instant): Env {
    Env(now, NO_TIMERS, None, now, true, [], [], {}, {}, {}, true, true, false, true)
  }

  predicate AllIn(bs: seq<Addr6>, s: set<Addr>) { forall i :: 0 <= i < |bs| ==> bs[i].addr in s }

  predicate Vouches(e: Env, l: Lease6) { AllIn(l.addrs, e.vouched) && AllIn(l.temps, e.vouched) }

  predicate Trusts(e: Env, l: Lease6) { AllIn(l.addrs, e.Trusted()) && AllIn(l.temps, e.Trusted()) }

  function Announced(e: Env, l: Lease6, a: Action, held: bool): Env {
    e.(held := Some(l), heldAt := e.now, coherent := e.coherent && e.held.Some? == held,
       gated := e.gated && Vouches(e, l), traced := e.traced && Trusts(e, l) && !e.asks, told := e.told + [a])
  }

  function Execute(e: Env, a: Action): Env {
    match a
    case Send(msg) => e.(mail := e.mail + [msg])
    case SetTimer(t, d) => e.(armed := e.armed.With(t, Some(e.now + d)))
    case CancelTimer(t) => e.(armed := e.armed.With(t, None))
    case StartDAD(x) =>
      e.(awaiting := e.awaiting + {x}, vouched := e.vouched - {x},
         moved := if e.held.Some? && e.held.value.Lists(x) then e.moved + {x} else e.moved - {x}, asks := true)
    case LeaseAcquired(l) => Announced(e, l, a, false)
    case LeaseRenewed(l) => Announced(e, l, a, true)
    case LeaseChanged(l) => Announced(e, l, a, true)
    case LeaseLost(_, _) => e.(held := None, coherent := e.coherent && e.held.Some?, told := e.told + [a])
    case _ => e.(told := e.told + [a])
  }

  function Executed(e: Env, acts: seq<Stamped>): (r: Env)
    ensures r.now == e.now
  {
    if acts == [] then e else Execute(Executed(e, acts[..|acts| - 1]), acts[|acts| - 1].act)
  }

  datatype Ctx = Ctx(m: Client, out: seq<Stamped>, start: Env) {
    function env(): (e: Env)
      ensures e.now == now()
    {
      Executed(start, out)
    }

    /** All of the environment that a step can see. */
    function now(): Instant { start.now }
  }

  function Begun(m: Client, e: Env): (c: Ctx)
    ensures c.env() == e
  {
    Ctx(m, [], e)
  }

  function Emit(c: Ctx, a: Action): (r: Ctx)
    ensures r.env() == Execute(c.env(), a)
    ensures r.start == c.start && r.m == c.m.(nextAction := c.m.nextAction + 1)
  {
    var out := c.out + [Stamped(c.m.nextAction, a)];
    assert out[..|out| - 1] == c.out;
    Ctx(c.m.(nextAction := c.m.nextAction + 1), out, c.start)
  }

  function Set(c: Ctx, t: TimerID, d: Duration): Ctx { Emit(c, SetTimer(t, d)) }

  function Cancel(c: Ctx, t: TimerID): Ctx { Emit(c, CancelTimer(t)) }

  function CancelMany(c: Ctx, n: nat): (r: Ctx)
    requires n <= |ALL_TIMERS|
    ensures r.start == c.start
    ensures r.m == c.m.(nextAction := c.m.nextAction + n)
    ensures r.env() == c.env().(armed := Cleared(c.env().armed, n))
  {
    if n == 0 then c else Cancel(CancelMany(c, n - 1), ALL_TIMERS[n - 1])
  }

  function Cleared(t: Timers, n: nat): Timers
    requires n <= |ALL_TIMERS|
  {
    if n == 0 then t else Cleared(t, n - 1).With(ALL_TIMERS[n - 1], None)
  }

  function CancelAll(c: Ctx): (r: Ctx)
    ensures r.start == c.start
    ensures r.m == c.m.(nextAction := c.m.nextAction + |ALL_TIMERS|)
    ensures r.env() == c.env().(armed := NO_TIMERS)
  {
    AllCleared(c.env().armed);
    CancelMany(c, |ALL_TIMERS|)
  }

  lemma AllCleared(t: Timers)
    ensures Cleared(t, |ALL_TIMERS|) == NO_TIMERS
  {
    assert Cleared(t, 1) == t.With(ALL_TIMERS[0], None);
    assert Cleared(t, 2) == Cleared(t, 1).With(ALL_TIMERS[1], None);
    assert Cleared(t, 3) == Cleared(t, 2).With(ALL_TIMERS[2], None);
    assert Cleared(t, 4) == Cleared(t, 3).With(ALL_TIMERS[3], None);
    assert Cleared(t, 5) == Cleared(t, 4).With(ALL_TIMERS[4], None);
    assert Cleared(t, 6) == Cleared(t, 5).With(ALL_TIMERS[5], None);
  }

  function RandomDelay(max: Duration, rnd: Entropy): (d: Duration)
    ensures 0 <= d
    ensures max > 0 ==> d <= max
  {
    if max <= 0 then 0 else rnd % (max + 1)
  }

  /** A transition changes neither the moment, the parameters, nor anything
      Reconfigure authentication rests on. */
  ghost predicate Keeps(c: Ctx, r: Ctx) {
    r.start == c.start && r.m.params == c.m.params && r.m.reconf == c.m.reconf && r.m.counts == c.m.counts
  }

  /** The replay value last accepted from a server, if any ever was. */
  function Floor(reconf: map<Duid, Authority>, sid: Duid): Option<nat> {
    if sid in reconf && reconf[sid].seen then Some(reconf[sid].replay) else None
  }

  /** No server's replay floor moves, though a key may come in its place. */
  ghost predicate KeepsFloors(c: Ctx, r: Ctx) {
    forall sid :: Floor(r.m.reconf, sid) == Floor(c.m.reconf, sid)
  }

  // ------------------------------------------------------------ exchanges --

  function Schedule(p: Params, t: Kind): Backoff6.Retransmit {
    match t
    case Solicit => p.table.Solicit()
    case Request => p.table.Request()
    case Confirm => p.table.Confirm()
    case Renew => p.table.Renew()
    case Rebind => p.table.Rebind()
    case InformationRequest => p.table.InfoRequest()
    case Release => p.table.Release()
    case Decline => p.table.Decline()
    case _ => p.table.Solicit()
  }

  function UsableAddrs(s: seq<Addr>): seq<Addr> {
    if s == [] then []
    else UsableAddrs(s[..|s| - 1]) + if Usable(s[|s| - 1]) then [s[|s| - 1]] else []
  }

  /** The address a Solicit asks for, unless it was declined here. */
  function SolicitHint(m: Client): seq<Addr> {
    if Usable(m.params.hint) && m.params.hint !in m.declined then [m.params.hint] else []
  }

  function BuildAddrs(m: Client, t: Kind): seq<Addr> {
    match t
    case Solicit => SolicitHint(m)
    case Request => UsableAddrs(Addrs(m.pending.addrs))
    case Confirm => if m.resume.Some? then UsableAddrs(Addrs(m.resume.value.addrs)) else []
    case Renew => UsableAddrs(Addrs(m.Held().addrs))
    case Rebind => UsableAddrs(Addrs(m.Held().addrs))
    case Release => UsableAddrs(m.releasing)
    case Decline => UsableAddrs(m.declining)
    case _ => []
  }

  function BuildTemps(m: Client, t: Kind): seq<Addr> {
    match t
    case Request => if m.params.temporary then UsableAddrs(Addrs(m.pending.temps)) else []
    case Release => UsableAddrs(m.releasingTA)
    case Decline => UsableAddrs(m.decliningTA)
    case _ => []
  }

  predicate NeedsServer(t: Kind) { t == Request || t == Renew || t == Kind.Release || t == Decline }

  predicate CarriesName(t: Kind) { t == Solicit || t == Request || t == Renew || t == Rebind }

  /** The message of the exchange in flight. */
  function Compose(m: Client, t: Kind): Outgoing {
    var server := if NeedsServer(t) then m.server else if t == InformationRequest then m.reconfServerID else [];
    Outgoing(t, m.xid, server, BuildAddrs(m, t), BuildTemps(m, t), if CarriesName(t) then m.exchangeName else "")
  }

  function Sent(m: Client, t: Kind): Client {
    m.(transmits := m.transmits + 1, nameOnWire := if CarriesName(t) then m.exchangeName else m.nameOnWire)
  }

  /** Without the server it must name the message cannot be built, and then no
      timer is armed for it. */
  function Transmit(c: Ctx): (r: Ctx)
    ensures Keeps(c, r)
  {
    var t := if c.m.msgType.Some? then c.m.msgType.value else OtherKind;
    if NeedsServer(t) && c.m.server == [] then Emit(c, Failed(ReasonTransport))
    else Set(Emit(c.(m := Sent(c.m, t)), Send(Compose(c.m, t))), TimerRetransmit, c.m.rt)
  }

  /** The client at the start of an exchange, before its first message. */
  function Opened(m: Client, now: Instant, rnd: Entropy, t: Kind, sid: Duid): Client {
    var sched := Schedule(m.params, t);
    var rt := sched.First(rnd);
    var m := m.(reconfServerID := sid, msgType := Some(t), exchangeName := m.hostname, xid := rnd % 0x1_0000_00,
                exchangeStart := now, transmits := 0, sched := sched,
                rt := if t == Solicit && rt <= sched.irt then sched.irt + 1 else rt, state := Waiting(t, m.state));
    if t == Solicit then m.(windowDone := false, adverts := []) else m
  }

  /** The state an exchange waits in; a Release or a Decline leaves it as it is. */
  function Waiting(t: Kind, s: State): State {
    match t
    case Solicit => Selecting
    case Request => Requesting
    case Confirm => Confirming
    case InformationRequest => InfoRequesting
    case Renew => Renewing
    case Rebind => Rebinding
    case _ => s
  }

  function StartExchangeFor(c: Ctx, rnd: Entropy, t: Kind, sid: Duid): (r: Ctx)
    ensures Keeps(c, r)
  {
    Transmit(c.(m := Opened(c.m, c.now(), rnd, t, sid)))
  }

  function StartExchange(c: Ctx, rnd: Entropy, t: Kind): (r: Ctx)
    ensures Keeps(c, r)
  {
    StartExchangeFor(c, rnd, t, [])
  }

  predicate GivesUp(c: Ctx) { c.m.sched.Exhausted(c.m.transmits, c.now() - c.m.exchangeStart) }

  function Resend(c: Ctx, rnd: Entropy): (r: Ctx)
    ensures Keeps(c, r)
  {
    Transmit(c.(m := c.m.(rt := c.m.sched.Next(c.m.rt, rnd))))
  }

  function EndExchange(c: Ctx): (r: Ctx)
    ensures Keeps(c, r)
  {
    Cancel(c.(m := c.m.(msgType := None, declining := [], decliningTA := [], afterDecline := None)), TimerRetransmit)
  }

  // ---------------------------------------------------------- transitions --

  function DropPending(m: Client): Client {
    m.(pending := NO_LEASE, dadWait := [], dadBad := [], carried := [])
  }

  function LoseLease(c: Ctx, why: Reason): (r: Ctx)
    ensures Keeps(c, r)
  {
    if c.m.lease.None? then c
    else Emit(c.(m := c.m.(lease := None)), LeaseLost(why, c.m.lease.value))
  }

  function Halt(c: Ctx, why: Reason): (r: Ctx)
    ensures Keeps(c, r)
  {
    var c := LoseLease(c, why);
    CancelAll(c.(m := DropPending(c.m).(msgType := None, declining := [], decliningTA := [], afterDecline := None,
                                        state := Stopped)))
  }

  function Begin(c: Ctx, rnd: Entropy): (r: Ctx)
    ensures Keeps(c, r)
  {
    var confirm := c.m.resume.Some? && c.m.resume.value.Live();
    var m := c.m.(adverts := [], windowDone := false, tried := [], sendFailures := 0,
                  pendingType := if confirm then Confirm else Solicit, state := Init);
    var max := if confirm then m.params.table.cnfMaxDelay else m.params.table.solMaxDelay;
    Set(c.(m := m), TimerDelay, RandomDelay(max, rnd))
  }

  /** A held lease keeps its expiry through a new search for servers. */
  function RestartDiscovery(c: Ctx, rnd: Entropy): (r: Ctx)
    ensures Keeps(c, r)
  {
    var c := Cancel(Cancel(c.(m := c.m.(resume := None)), TimerRenew), TimerRebind);
    var c := if c.m.lease.None? then Cancel(c, TimerExpire) else c;
    Begin(c, rnd)
  }

  function Due(now: Instant, at: Option<Instant>): Option<Instant> {
    if at.None? then None else Some(Max(at.value, now))
  }

  function ArmDeadline(c: Ctx, t: TimerID, at: Option<Instant>): (r: Ctx)
    ensures r.start == c.start && r.m == c.m.(nextAction := c.m.nextAction + 1)
    ensures r.env() == c.env().(armed := c.env().armed.With(t, Due(c.now(), at)))
  {
    Emit(c, if at.None? then CancelTimer(t) else SetTimer(t, Max(at.value - c.now(), 0)))
  }

  /** The earliest end of any binding, temporary ones included. */
  function ExpiryOf(l: Lease6): Option<Instant> {
    var at, next := l.Deadlines().expire, l.NextEnd();
    if next.Some? && (at.None? || next.value < at.value) then next else at
  }

  function ArmExpiry(c: Ctx): (r: Ctx)
    ensures Keeps(c, r) && r.m == c.m.(nextAction := c.m.nextAction + 1)
    ensures r.env() == c.env().(armed := c.env().armed.(expire := Due(c.now(), ExpiryOf(c.m.Held()))))
  {
    ArmDeadline(c, TimerExpire, ExpiryOf(c.m.Held()))
  }

  function ArmRenewal(c: Ctx): (r: Ctx)
    ensures Keeps(c, r) && r.m == c.m.(nextAction := c.m.nextAction + 2)
  {
    var d := c.m.Held().Deadlines();
    ArmDeadline(ArmDeadline(c, TimerRenew, d.renew), TimerRebind, d.rebind)
  }

  function WithAuthority(m: Client, l: Lease6): Lease6 {
    if l.server in m.reconf then l.(authority := Some(m.reconf[l.server])) else l
  }

  function ArmOwedRefresh(c: Ctx, rnd: Entropy): (r: Ctx)
    ensures Keeps(c, r)
  {
    if !c.m.refreshOwed then c
    else Set(c.(m := c.m.(reconfDetour := true, pendingType := InformationRequest)), TimerDelay,
             RandomDelay(c.m.params.table.infMaxDelay, rnd))
  }

  /** The client with the lease in place, before anything is announced. */
  function Adopt(m: Client, l: Lease6): Client {
    m.(msgType := None, sendFailures := 0, lease := Some(WithAuthority(m, l)), state := Bound, resume := None)
  }

  function AnnounceLease(c: Ctx, prev: Option<Lease6>): (r: Ctx)
    ensures Keeps(c, r) && r.m == c.m.(nextAction := r.m.nextAction)
  {
    var l := c.m.Held();
    if prev.None? then Emit(c, LeaseAcquired(l))
    else
      var c := Emit(c, LeaseRenewed(l));
      if prev.value.Equal(l) then c else Emit(c, LeaseChanged(l))
  }

  function EnterBound(c: Ctx, rnd: Entropy, l: Lease6): (r: Ctx)
    ensures Keeps(c, r)
  {
    var prev := c.m.lease;
    var c := Cancel(c, TimerRetransmit);
    var c := AnnounceLease(c.(m := Adopt(c.m, l)), prev);
    AnnounceHostname(ArmOwedRefresh(ArmExpiry(ArmRenewal(c)), rnd), rnd)
  }

  /** A lease exchange that starts while a refresh is waiting drops the wait. */
  function AbandonRefreshDelay(c: Ctx): (r: Ctx)
    ensures Keeps(c, r)
  {
    if !c.m.refreshOwed || c.m.state != Bound then c
    else Cancel(c.(m := c.m.(reconfDetour := false)), TimerDelay)
  }

  function EnterRebinding(c: Ctx, rnd: Entropy): (r: Ctx)
    ensures Keeps(c, r)
  {
    var c := AbandonRefreshDelay(c);
    StartExchange(c.(m := c.m.(server := [])), rnd, Rebind)
  }

  function EnterRenewing(c: Ctx, rnd: Entropy): (r: Ctx)
    ensures Keeps(c, r)
  {
    var c := AbandonRefreshDelay(c);
    if c.m.Held().server == [] then EnterRebinding(c, rnd)
    else StartExchange(c.(m := c.m.(server := c.m.Held().server)), rnd, Renew)
  }

  /** A name not yet on the wire starts the lease's exchange again to carry it. */
  function AnnounceHostname(c: Ctx, rnd: Entropy): (r: Ctx)
    ensures Keeps(c, r)
  {
    if c.m.hostname == "" || c.m.hostname == c.m.nameOnWire then c
    else match c.m.state
      case Bound => if c.m.lease.None? then c else EnterRenewing(c, rnd)
      case Renewing => StartExchange(c, rnd, Renew)
      case Rebinding => StartExchange(c, rnd, Rebind)
      case _ => c
  }

  function TakeHostname(c: Ctx, rnd: Entropy, name: string): (r: Ctx)
    ensures Keeps(c, r)
  {
    if !ValidHostname(name) then c else AnnounceHostname(c.(m := c.m.(hostname := name)), rnd)
  }

  // --------------------------------------------------------------- expiry --

  predicate AllEnded(l: Lease6, now: Instant) {
    var d := l.Deadlines();
    d.expire.Some? && d.expire.value <= now
  }

  /** The bindings that have ended leave a lease that has not. */
  function DropEnded(c: Ctx): (r: Ctx)
    requires c.m.lease.Some?
    ensures Keeps(c, r)
  {
    var l := c.m.lease.value.WithoutEnded(c.now());
    if |l.Bindings()| == |c.m.lease.value.Bindings()| then ArmExpiry(c)
    else Emit(ArmExpiry(c.(m := c.m.(lease := Some(l)))), LeaseChanged(l))
  }

  function ExpireLease(c: Ctx, rnd: Entropy): (r: Ctx)
    ensures Keeps(c, r)
  {
    if c.m.lease.None? then Cancel(c, TimerExpire)
    else if !AllEnded(c.m.lease.value, c.now()) then DropEnded(c)
    else
      var c := LoseLease(Cancel(c, TimerExpire), ReasonExpired);
      if c.m.state == Bound || c.m.state == Renewing || c.m.state == Rebinding then RestartDiscovery(c, rnd) else c
  }

  // -------------------------------------------------------------- replies --

  /** The answer to the exchange in flight, from one server, to this client. */
  predicate Admits(m: Client, msg: Option<Message>) {
    && msg.Some? && m.msgType.Some? && msg.value.xid == m.xid && |msg.value.servers| == 1
    && msg.value.client == Some(m.params.duid)
  }

  /** SOL_MAX_RT and INF_MAX_RT in any answer move the ceilings they name. */
  function Ceilings(t: Backoff6.Table, msg: Message): (r: Backoff6.Table)
    ensures t.Valid() ==> r.Valid()
    ensures r == t.(solMaxRT := r.solMaxRT, infMaxRT := r.infMaxRT)
  {
    var t := if msg.solMaxRT.Some? then t.ApplySolMaxRT(msg.solMaxRT.value) else t;
    if msg.infMaxRT.Some? then t.ApplyInfMaxRT(msg.infMaxRT.value) else t
  }

  function ApplyMaxRT(c: Ctx, msg: Message): Ctx {
    c.(m := c.m.(params := c.m.params.(table := Ceilings(c.m.params.table, msg))))
  }

  function TopCode(s: Status): nat { if s.Code? then s.code else SUCCESS }

  /** The first code that is neither success nor unreadable. */
  function RefusalCode(a: Status, b: Status): Option<nat> {
    if a.Code? && a.code != SUCCESS then Some(a.code)
    else if b.Code? && b.code != SUCCESS then Some(b.code) else None
  }

  function Refuse(c: Ctx, code: Option<nat>): Ctx { if code.Some? then Emit(c, Refused(code.value)) else c }

  datatype IAResult = IAResult(addrs: seq<Addr6>, zeroed: seq<Addr>, t1: Duration, t2: Duration, status: Status,
                               found: bool)

  const NO_IA := IAResult([], [], 0, 0, NoStatus, false)

  predicate Acceptable(a: IAAddr) { a.preferred <= a.valid && a.valid != 0 && Usable(a.addr) }

  function Granted(s: seq<IAAddr>): seq<Addr6> {
    if s == [] then []
    else
      var a := s[|s| - 1];
      Granted(s[..|s| - 1])
      + if Acceptable(a) then [Addr6(a.addr, SecondsToDuration(a.preferred), SecondsToDuration(a.valid))] else []
  }

  /** The addresses a server takes back, by giving them no valid lifetime. */
  function Withdrawn(s: seq<IAAddr>): seq<Addr> {
    if s == [] then []
    else
      var a := s[|s| - 1];
      Withdrawn(s[..|s| - 1]) + if a.preferred <= a.valid && a.valid == 0 then [a.addr] else []
  }

  /** This client's IA, unless its T1 is past its T2. */
  predicate IsOurs(ia: IA, iaid: nat, timed: bool) {
    ia.iaid == iaid && (timed && ia.t1 > 0 && ia.t2 > 0 ==> ia.t1 <= ia.t2)
  }

  function ReadOne(ia: IA): IAResult {
    IAResult(if ia.addrs.Some? then Granted(ia.addrs.value) else [],
             if ia.addrs.Some? then Withdrawn(ia.addrs.value) else [],
             SecondsToDuration(ia.t1), SecondsToDuration(ia.t2), ia.status, true)
  }

  /** The first of the message's IAs that is this client's. */
  function ReadFirst(ias: seq<IA>, iaid: nat, timed: bool): IAResult {
    if ias == [] then NO_IA
    else
      var before := ReadFirst(ias[..|ias| - 1], iaid, timed);
      if !before.found && IsOurs(ias[|ias| - 1], iaid, timed) then ReadOne(ias[|ias| - 1]) else before
  }

  function ReadIA(nas: Option<seq<IA>>, iaid: nat): IAResult {
    if nas.None? then NO_IA else ReadFirst(nas.value, iaid, true)
  }

  function DropStable(temps: seq<Addr6>, stable: seq<Addr6>): seq<Addr6> {
    if temps == [] then []
    else
      var t := temps[|temps| - 1];
      DropStable(temps[..|temps| - 1], stable) + if Has(stable, t.addr) then [] else [t]
  }

  function ReadTemporary(tas: Option<seq<IA>>, iaid: nat, stable: seq<Addr6>): seq<Addr6> {
    var res := if tas.None? then NO_IA else ReadFirst(tas.value, iaid, false);
    if RefusalCode(res.status, NoStatus).Some? || res.status.BadStatus? then [] else DropStable(res.addrs, stable)
  }

  function LeaseFromReply(m: Client, msg: Message): (Lease6, IAResult) {
    var res := ReadIA(msg.nas, m.params.iaid);
    var addrs := if res.status == Code(NO_ADDRS_AVAIL) then [] else res.addrs;
    (Lease6(m.params.iaid, addrs, [], msg.Server(), res.t1, res.t2, m.exchangeStart, msg.config, None), res)
  }

  // ------------------------------------------------------------ selection --

  function TakeAdvertise(c: Ctx, rnd: Entropy, msg: Message): (r: Ctx)
    ensures r.start == c.start && r.m.reconf == c.m.reconf && r.m.counts == c.m.counts
    ensures r.m.params == c.m.params.(table := r.m.params.table)
  {
    var c := ApplyMaxRT(c, msg);
    if msg.status.BadStatus? then c
    else if TopCode(msg.status) != SUCCESS then Refuse(c, Some(TopCode(msg.status)))
    else
      var res := ReadIA(msg.nas, c.m.params.iaid);
      var code := RefusalCode(res.status, NoStatus);
      if code.Some? then Refuse(c, code)
      else if res.addrs == [] then c
      else
        var temps := if c.m.params.temporary then ReadTemporary(msg.tas, c.m.params.iaid, res.addrs) else [];
        var a := Advert(msg.Server(), msg.preference, res.addrs, temps, res.t1, res.t2);
        var c := c.(m := c.m.(adverts := c.m.adverts + [a]));
        if msg.preference == 255 then SelectAndRequest(c.(m := c.m.(windowDone := true)), rnd).0
        else if c.m.windowDone then SelectAndRequest(c, rnd).0
        else c
  }

  /** The best advertisement from a server not tried yet: the highest
      preference, and of those the first to arrive. */
  function Best(adverts: seq<Advert>, tried: seq<Duid>): (k: Option<nat>)
    ensures k.Some? ==> k.value < |adverts| && adverts[k.value].server !in tried
    ensures k.None? ==> forall i :: 0 <= i < |adverts| ==> adverts[i].server in tried
    ensures k.Some? ==> forall i :: 0 <= i < |adverts| && adverts[i].server !in tried ==>
              if i < k.value then adverts[i].preference < adverts[k.value].preference
              else adverts[i].preference <= adverts[k.value].preference
  {
    if adverts == [] then None
    else
      var n := |adverts| - 1;
      var k := Best(adverts[..n], tried);
      assert forall i :: 0 <= i < n ==> adverts[..n][i] == adverts[i];
      if adverts[n].server in tried then k
      else if k.None? || adverts[n].preference > adverts[k.value].preference then Some(n) else k
  }

  function SelectAndRequest(c: Ctx, rnd: Entropy): (r: (Ctx, bool))
    ensures Keeps(c, r.0)
  {
    var best := Best(c.m.adverts, c.m.tried);
    if best.None? then (c, false)
    else
      var a := c.m.adverts[best.value];
      var l := Lease6(c.m.params.iaid, a.addrs, a.temps, a.server, a.t1, a.t2, 0, 0, None);
      (StartExchange(c.(m := c.m.(server := a.server, pending := l)), rnd, Request), true)
  }

  /** On to the next server that advertised, or back to the beginning. */
  function TryNext(c: Ctx, rnd: Entropy): (r: Ctx)
    ensures Keeps(c, r)
  {
    var c := c.(m := c.m.(tried := c.m.tried + [c.m.server]));
    var next := SelectAndRequest(c, rnd);
    if next.1 then next.0 else RestartDiscovery(c, rnd)
  }

  // --------------------------------------------- duplicate address detection --

  function NotHeld(bs: seq<Addr6>, held: seq<Addr6>): seq<Addr> {
    if bs == [] then []
    else
      var a := bs[|bs| - 1].addr;
      NotHeld(bs[..|bs| - 1], held) + if Has(held, a) then [] else [a]
  }

  /** The addresses of a lease that have not been checked as part of the held one. */
  function Unchecked(m: Client, l: Lease6): seq<Addr> {
    NotHeld(l.addrs, m.Held().addrs) + NotHeld(l.temps, m.Held().temps)
  }

  function AskAll(c: Ctx, addrs: seq<Addr>): (r: Ctx)
    ensures r.start == c.start && r.m == c.m.(nextAction := r.m.nextAction)
  {
    if addrs == [] then c else Emit(AskAll(c, addrs[..|addrs| - 1]), StartDAD(addrs[|addrs| - 1]))
  }

  function StartChecking(c: Ctx, addrs: seq<Addr>): (r: Ctx)
    ensures Keeps(c, r)
  {
    var c := c.(m := c.m.(dadWait := addrs, dadBad := [], state := Checking));
    Set(AskAll(c, addrs), TimerDAD, c.m.params.DADTimeout())
  }

  /** A list without the first occurrence of an address. */
  function Without(s: seq<Addr>, a: Addr): (r: seq<Addr>)
    ensures a in s ==> |r| == |s| - 1
    ensures forall x :: x in r ==> x in s
    ensures forall x :: x in s && x != a ==> x in r
  {
    if s == [] then [] else if s[0] == a then s[1..] else [s[0]] + Without(s[1..], a)
  }

  function Temporary(l: Lease6, s: seq<Addr>): seq<Addr> {
    if s == [] then []
    else Temporary(l, s[..|s| - 1]) + if Has(l.temps, s[|s| - 1]) then [s[|s| - 1]] else []
  }

  function Excluding(bs: seq<Addr6>, drop: seq<Addr>): (r: seq<Addr6>)
    ensures forall x :: x in r <==> x in bs && x.addr !in drop
  {
    if bs == [] then []
    else
      var b := bs[|bs| - 1];
      assert bs == bs[..|bs| - 1] + [b];
      Excluding(bs[..|bs| - 1], drop) + if b.addr in drop then [] else [b]
  }

  function Remember(declined: seq<Addr>, addrs: seq<Addr>): seq<Addr> {
    if addrs == [] then declined
    else
      var d := Remember(declined, addrs[..|addrs| - 1]);
      if addrs[|addrs| - 1] in d then d else d + [addrs[|addrs| - 1]]
  }

  function Continue(c: Ctx, rnd: Entropy, k: Continuation): (r: Ctx)
    ensures Keeps(c, r)
  {
    match k
    case Restart => RestartDiscovery(c, rnd)
    case BindKept => EnterBound(c.(m := DropPending(c.m)), rnd, c.m.pending)
  }

  function DeclineSet(c: Ctx, rnd: Entropy, server: Duid, addrs: seq<Addr>, temps: seq<Addr>, k: Continuation): (r: Ctx)
    ensures Keeps(c, r)
  {
    if |addrs| + |temps| == 0 then Continue(c, rnd, k)
    else
      var c := c.(m := c.m.(declined := Remember(c.m.declined, addrs)));
      if server == [] then Continue(c, rnd, k)
      else
        var m := c.m.(server := server, declining := addrs, decliningTA := temps, afterDecline := Some(k),
                      state := Checking);
        StartExchange(Cancel(c.(m := m), TimerDAD), rnd, Decline)
  }

  function FinishDecline(c: Ctx, rnd: Entropy): (r: Ctx)
    ensures Keeps(c, r)
  {
    var next := c.m.afterDecline;
    var c := EndExchange(c);
    if next.None? then RestartDiscovery(c, rnd) else Continue(c, rnd, next.value)
  }

  function TakeDADResult(c: Ctx, rnd: Entropy, a: Addr, duplicate: bool): (r: Ctx)
    ensures Keeps(c, r)
  {
    if a !in c.m.dadWait then c
    else
      var c := c.(m := c.m.(dadWait := Without(c.m.dadWait, a),
                            dadBad := if duplicate then c.m.dadBad + [a] else c.m.dadBad));
      if c.m.dadWait != [] then c else Checked(Cancel(c, TimerDAD), rnd)
  }

  /** Every answer is in. Temporary addresses in use are declined alone; a
      stable one takes the whole IA with it. */
  function Checked(c: Ctx, rnd: Entropy): (r: Ctx)
    ensures Keeps(c, r)
  {
    var l, bad := c.m.pending, c.m.dadBad;
    if bad == [] then EnterBound(c.(m := DropPending(c.m)), rnd, l)
    else
      var temps := Temporary(l, bad);
      if |temps| == |bad| then
        var rest := l.(temps := Excluding(l.temps, temps));
        DeclineSet(c.(m := c.m.(pending := rest, dadWait := [], dadBad := [])), rnd, l.server, [], temps, BindKept)
      else
        var granted := Excluding(l.addrs, c.m.carried);
        var unheld := NotHeld(l.temps, c.m.Held().temps);
        var held := c.m.lease.Some?;
        var c := c.(m := DropPending(c.m));
        var c := if held then c else Emit(c, Failed(ReasonConflict));
        DeclineSet(c, rnd, l.server, Addrs(granted), unheld, Restart)
  }

  // ---------------------------------------------------------------- reply --

  function TakeReply(c: Ctx, rnd: Entropy, msg: Message): (r: Ctx)
    ensures r.start == c.start && r.m.params == c.m.params.(table := r.m.params.table) && r.m.counts == c.m.counts
            && KeepsFloors(c, r)
  {
    var c := ApplyMaxRT(c, msg);
    var top := TopCode(msg.status);
    if msg.status.BadStatus? then c
    else if top == UNSPEC_FAIL then Refuse(c, Some(top))
    else if top == NOT_ON_LINK then RestartDiscovery(Refuse(LoseLease(c, ReasonNak), Some(top)), rnd)
    else TakeIA(c, rnd, msg)
  }

  predicate IsRenewal(m: Client) { m.state == Renewing || m.state == Rebinding }

  function TakeIA(c: Ctx, rnd: Entropy, msg: Message): (r: Ctx)
    ensures r.start == c.start && r.m.params == c.m.params && r.m.counts == c.m.counts && KeepsFloors(c, r)
  {
    var (l, res) := LeaseFromReply(c.m, msg);
    if IsRenewal(c.m) && res.status == Code(NO_BINDING) then RequestHeld(c, rnd, msg.Server())
    else if l.addrs == [] then TakeNothing(c, rnd, RefusalCode(if res.found then res.status else NoStatus, msg.status))
    else TakeGrant(c, rnd, msg, l, res.zeroed)
  }

  /** A server that has lost the binding is asked for the addresses again. */
  function RequestHeld(c: Ctx, rnd: Entropy, server: Duid): (r: Ctx)
    ensures Keeps(c, r)
  {
    var held := NO_LEASE.(iaid := c.m.params.iaid, addrs := c.m.Held().addrs, temps := c.m.Held().temps);
    StartExchange(c.(m := c.m.(server := server, pending := held)), rnd, Request)
  }

  function TakeNothing(c: Ctx, rnd: Entropy, code: Option<nat>): (r: Ctx)
    ensures Keeps(c, r)
  {
    var c := Refuse(c, code);
    if IsRenewal(c.m) then RestartDiscovery(c, rnd) else TryNext(c, rnd)
  }

  function TakeGrant(c: Ctx, rnd: Entropy, msg: Message, l: Lease6, zeroed: seq<Addr>): (r: Ctx)
    ensures r.start == c.start && r.m.params == c.m.params && r.m.counts == c.m.counts && KeepsFloors(c, r)
  {
    Settle(NoteKey(Pend(c, msg, l, zeroed), msg), rnd)
  }

  /** The lease a Reply comes to: what it grants, and of what is held what
      still stands. */
  function Merged(m: Client, msg: Message, l: Lease6, zeroed: seq<Addr>, now: Instant): Lease6 {
    if IsRenewal(m) && m.lease.Some? then
      var h := m.lease.value;
      l.(addrs := RenewedAddrs(h.addrs, h.start, l.addrs, zeroed, l.start, now),
         temps := CarriedTemps(h.temps, h.start, l.start, now))
    else if !IsRenewal(m) && m.params.temporary then
      l.(temps := ReadTemporary(msg.tas, m.params.iaid, l.addrs))
    else l
  }

  /** The held addresses a renewal carries without the Reply naming them. */
  function CarriedAddrs(held: seq<Addr6>, got: seq<Addr6>, merged: seq<Addr6>): seq<Addr> {
    if held == [] then []
    else
      var a := held[|held| - 1].addr;
      CarriedAddrs(held[..|held| - 1], got, merged) + if !Has(got, a) && Has(merged, a) then [a] else []
  }

  function Pend(c: Ctx, msg: Message, l: Lease6, zeroed: seq<Addr>): (r: Ctx)
    ensures Keeps(c, r)
  {
    var merged := Merged(c.m, msg, l, zeroed, c.now());
    var carried := if IsRenewal(c.m) && c.m.lease.Some? then CarriedAddrs(c.m.lease.value.addrs, l.addrs, merged.addrs)
                   else [];
    var c := Cancel(c.(m := c.m.(server := l.server, pending := merged, carried := carried)), TimerRetransmit);
    c.(m := c.m.(msgType := None))
  }

  /** What has not been checked is, before anything is bound. */
  function Settle(c: Ctx, rnd: Entropy): (r: Ctx)
    ensures Keeps(c, r)
  {
    var unheld := Unchecked(c.m, c.m.pending);
    if unheld == [] then EnterBound(c, rnd, c.m.pending) else StartChecking(c, unheld)
  }

  /** An unanswered or approved Confirm goes on with what was remembered. */
  function ContinueFromResume(c: Ctx, rnd: Entropy): (r: Ctx)
    ensures Keeps(c, r)
  {
    if c.m.resume.None? || !c.m.resume.value.Live() then RestartDiscovery(c, rnd)
    else
      var s := c.m.resume.value;
      var l := Lease6(c.m.params.iaid, s.addrs, [], s.server, s.t1, s.t2, c.now(), s.config, None);
      var c := Cancel(c.(m := c.m.(pending := l, msgType := None)), TimerRetransmit);
      StartChecking(c, Addrs(l.addrs))
  }

  function Release6(c: Ctx, rnd: Entropy): (r: Ctx)
    ensures Keeps(c, r)
  {
    if c.m.lease.None? then Halt(c, ReasonReleased)
    else
      var l := c.m.lease.value;
      var c := LoseLease(c.(m := c.m.(server := l.server)), ReasonReleased);
      var c := Cancel(Cancel(Cancel(c, TimerRenew), TimerRebind), TimerExpire);
      var c := c.(m := c.m.(releasing := Addrs(l.addrs), releasingTA := UsableAddrs(Addrs(l.temps)), state := Stopped));
      if l.server == [] then CancelAll(c) else StartExchange(c, rnd, Kind.Release)
  }

  /** The lease is given up and its stable addresses declined. */
  function DeclineHeld(c: Ctx, rnd: Entropy): (r: Ctx)
    ensures Keeps(c, r)
  {
    var l := c.m.Held();
    DeclineSet(LoseLease(c, ReasonConflict), rnd, l.server, Addrs(l.addrs), [], Restart)
  }

  // -------------------------------------------------------- configuration --

  function RefreshTime(p: Params, v: Option<Seconds32>): Duration {
    if v.None? then p.table.irtDefault
    else
      var d := SecondsToDuration(v.value);
      if d == INFINITE then INFINITE else Max(d, p.table.irtMinimum)
  }

  function TakeConfig(c: Ctx, rnd: Entropy, msg: Message): (r: Ctx)
    ensures r.start == c.start && r.m.params == c.m.params && r.m.counts == c.m.counts && KeepsFloors(c, r)
  {
    var d := RefreshTime(c.m.params, msg.refresh);
    var c := Cancel(c.(m := c.m.(refresh := d, refreshOwed := false, msgType := None)), TimerRetransmit);
    var c := EndDetour(NoteKey(c, msg));
    var c := Emit(c, Configured(msg.config, d));
    var c := if d == INFINITE then Cancel(c, TimerRefresh) else Set(c, TimerRefresh, d);
    AnnounceHostname(c, rnd)
  }

  /** The exchange a bound client stepped aside for is over. */
  function EndDetour(c: Ctx): (r: Ctx)
    ensures Keeps(c, r)
  {
    var m := c.m.(reconfServerID := []);
    c.(m := if m.reconfDetour then m.(reconfDetour := false, state := Bound) else m)
  }

  // ---------------------------------------------------------- reconfigure --

  /** A Reply's key is remembered for its server, whose replay floor stays. */
  function NoteKey(c: Ctx, msg: Message): (r: Ctx)
    ensures r == c.(m := c.m.(reconf := r.m.reconf)) && KeepsFloors(c, r)
  {
    if !msg.auth.RKAP? || !msg.auth.isKey || msg.Server() == [] then c
    else
      var sid := msg.Server();
      var a := if sid in c.m.reconf then c.m.reconf[sid] else Authority(None, 0, false);
      c.(m := c.m.(reconf := c.m.reconf[sid := a.(key := Some(msg.auth.key))]))
  }

  /** A destination that names one host: not unspecified and not multicast. */
  predicate IsUnicast(dst: Option<Addr>) {
    dst.Some? && dst.value != 0 && dst.value / 0x1_0000_0000_0000_0000_0000_0000_0000_00 != 0xFF
  }

  /** The checks in the order the client makes them: the first that fails. */
  function ReconfigureFault(m: Client, msg: Message, raw: Frame, dst: Option<Addr>): Option<Refusal> {
    if !m.params.acceptReconfigure then Some(Unwilling)
    else if m.msgType.Some? then Some(ExchangeInFlight)
    else if !IsUnicast(dst) then Some(NotUnicast)
    else if |msg.servers| == 0 then Some(NoServerID)
    else if |msg.servers| > 1 then Some(AmbiguousServerID)
    else if msg.client.None? then Some(NoClientID)
    else if msg.client.value != m.params.duid then Some(ForeignClientID)
    else if msg.reconfigure.NoReconfigure? then Some(NoReconfigureMessage)
    else if msg.reconfigure.BadReconfigure? then Some(BadReconfigureMessage)
    else if msg.auth.NoAuth? then Some(NoAuthentication)
    else if msg.auth.UnreadableAuth? then Some(UnreadableAuthentication)
    else if msg.auth.NotRKAP? then Some(NotRKAPAuth)
    else if msg.Server() !in m.reconf || m.reconf[msg.Server()].key.None? then Some(NoKey)
    else
      var s := m.reconf[msg.Server()];
      if s.key.value !in raw.verifiesUnder then Some(BadDigest)
      else if s.seen && msg.auth.replay <= s.replay then Some(Replayed)
      else match msg.reconfigure.kind
        case Renew => if m.state == Bound then None else Some(NoLease)
        case Rebind => if m.state == Bound then None else Some(NoLease)
        case InformationRequest => if m.state == Bound || m.state == InfoRequesting then None else Some(NoConfiguration)
        case _ => Some(UndefinedMessage)
  }

  function Respond(c: Ctx, rnd: Entropy, kind: Kind, sid: Duid): (r: Ctx)
    ensures Keeps(c, r)
  {
    match kind
    case Renew => EnterRenewing(c, rnd)
    case Rebind => EnterRebinding(c, rnd)
    case _ =>
      StartExchangeFor(c.(m := c.m.(reconfDetour := c.m.reconfDetour || c.m.state == Bound)), rnd, InformationRequest,
                       sid)
  }

  function TakeReconfigure(c: Ctx, rnd: Entropy, msg: Message, raw: Frame, dst: Option<Addr>): (r: Ctx)
    ensures r.start == c.start && r.m.params == c.m.params
  {
    var n := c.m.counts;
    var fault := ReconfigureFault(c.m, msg, raw, dst);
    if fault.Some? then c.(m := c.m.(counts := n.(refused := n.refused + multiset{fault.value})))
    else
      var sid := msg.Server();
      var c := Respond(c, rnd, msg.reconfigure.kind, sid);
      var a := c.m.reconf[sid].(replay := msg.auth.replay, seen := true);
      c.(m := c.m.(reconf := c.m.reconf[sid := a], counts := n.(accepted := n.accepted + 1)))
  }

  // ----------------------------------------------------------------- steps --

  function NoteActionFailed(c: Ctx): (r: Ctx)
    ensures Keeps(c, r)
  {
    var c := c.(m := c.m.(sendFailures := c.m.sendFailures + 1));
    if c.m.state == Renewing || c.m.state == Rebinding || c.m.state == Bound then c
    else if c.m.sendFailures >= c.m.params.MaxSendFailures()
        then Halt(Emit(c, Failed(ReasonTransport)), ReasonTransport)
    else c
  }

  /** A router with no addresses to give but other configuration ends a Solicit. */
  function ObserveRouter(c: Ctx, rnd: Entropy, managed: bool, other: bool): (r: Ctx)
    ensures Keeps(c, r)
  {
    if managed || !other || c.m.state != Selecting then c
    else StartExchange(Cancel(c.(m := c.m.(adverts := [], windowDone := false)), TimerRetransmit), rnd,
                       InformationRequest)
  }

  function StepStopped(c: Ctx, rnd: Entropy, ev: Event): (r: Ctx)
    ensures Keeps(c, r)
  {
    match ev
    case Start => Begin(c, rnd)
    case Received(msg, _, _) => if c.m.msgType == Some(Kind.Release) && Admits(c.m, msg) then EndExchange(c) else c
    case TimerFired(TimerRetransmit) =>
      if c.m.msgType != Some(Kind.Release) then c else if GivesUp(c) then EndExchange(c) else Resend(c, rnd)
    case _ => c
  }

  function StepInit(c: Ctx, rnd: Entropy, ev: Event): (r: Ctx)
    ensures Keeps(c, r)
  {
    match ev
    case TimerFired(TimerDelay) => StartExchange(c, rnd, c.m.pendingType)
    case Stop => Halt(c, ReasonStopped)
    case LinkDown => Halt(c, ReasonLinkDown)
    case Release => Halt(c, ReasonReleased)
    case _ => c
  }

  function CollectionEnds(c: Ctx, rnd: Entropy): (r: Ctx)
    ensures Keeps(c, r)
  {
    if c.m.windowDone then Resend(c, rnd)
    else
      var c := c.(m := c.m.(windowDone := true));
      if c.m.adverts != [] then SelectAndRequest(c, rnd).0 else Resend(c, rnd)
  }

  function StepSelecting(c: Ctx, rnd: Entropy, ev: Event): (r: Ctx)
    ensures r.start == c.start && r.m.reconf == c.m.reconf && r.m.counts == c.m.counts
    ensures r.m.params == c.m.params.(table := r.m.params.table)
  {
    match ev
    case Received(msg, _, _) =>
      if Admits(c.m, msg) && msg.value.kind == Advertise then TakeAdvertise(c, rnd, msg.value) else c
    case TimerFired(TimerRetransmit) => CollectionEnds(c, rnd)
    case Stop => Halt(c, ReasonStopped)
    case LinkDown => Halt(c, ReasonLinkDown)
    case Release => Halt(c, ReasonReleased)
    case _ => c
  }

  function StepRequesting(c: Ctx, rnd: Entropy, ev: Event): (r: Ctx)
    ensures r.start == c.start && r.m.params == c.m.params.(table := r.m.params.table) && r.m.counts == c.m.counts
            && KeepsFloors(c, r)
  {
    match ev
    case Received(msg, _, _) =>
      if Admits(c.m, msg) && msg.value.kind == Reply then TakeReply(c, rnd, msg.value) else c
    case TimerFired(TimerRetransmit) => if GivesUp(c) then TryNext(c, rnd) else Resend(c, rnd)
    case Stop => Halt(c, ReasonStopped)
    case LinkDown => Halt(c, ReasonLinkDown)
    case Release => Halt(c, ReasonReleased)
    case _ => c
  }

  function TakeConfirmation(c: Ctx, rnd: Entropy, msg: Message): (r: Ctx)
    ensures r.start == c.start && r.m.params == c.m.params.(table := r.m.params.table)
    ensures r.m.reconf == c.m.reconf && r.m.counts == c.m.counts
  {
    var c := ApplyMaxRT(c, msg);
    if msg.status.BadStatus? then c
    else if TopCode(msg.status) == NOT_ON_LINK then RestartDiscovery(Refuse(c, Some(NOT_ON_LINK)), rnd)
    else ContinueFromResume(c, rnd)
  }

  function StepConfirming(c: Ctx, rnd: Entropy, ev: Event): (r: Ctx)
    ensures r.start == c.start && r.m.params == c.m.params.(table := r.m.params.table)
    ensures r.m.reconf == c.m.reconf && r.m.counts == c.m.counts
  {
    match ev
    case Received(msg, _, _) =>
      if Admits(c.m, msg) && msg.value.kind == Reply then TakeConfirmation(c, rnd, msg.value) else c
    case TimerFired(TimerRetransmit) => if GivesUp(c) then ContinueFromResume(c, rnd) else Resend(c, rnd)
    case Stop => Halt(c, ReasonStopped)
    case LinkDown => Halt(c, ReasonLinkDown)
    case Release => Halt(c, ReasonReleased)
    case _ => c
  }

  function TakeInformation(c: Ctx, rnd: Entropy, msg: Message): (r: Ctx)
    ensures r.start == c.start && r.m.params == c.m.params.(table := r.m.params.table) && r.m.counts == c.m.counts
            && KeepsFloors(c, r)
  {
    var c := ApplyMaxRT(c, msg);
    var code := RefusalCode(msg.status, NoStatus);
    if msg.status.BadStatus? then c else if code.Some? then Refuse(c, code) else TakeConfig(c, rnd, msg)
  }

  function StepInfoRequesting(c: Ctx, rnd: Entropy, ev: Event): (r: Ctx)
    ensures r.start == c.start && r.m.params == c.m.params.(table := r.m.params.table) && r.m.counts == c.m.counts
            && KeepsFloors(c, r)
  {
    match ev
    case Received(msg, _, _) =>
      if Admits(c.m, msg) && msg.value.kind == Reply then TakeInformation(c, rnd, msg.value) else c
    case TimerFired(TimerRetransmit) => Resend(c, rnd)
    case TimerFired(TimerRefresh) =>
      Set(c.(m := c.m.(pendingType := InformationRequest)), TimerDelay, RandomDelay(c.m.params.table.infMaxDelay, rnd))
    case TimerFired(TimerDelay) => StartExchange(c, rnd, InformationRequest)
    case TimerFired(TimerRenew) =>
      if c.m.lease.None? then c else EnterRenewing(c.(m := c.m.(reconfDetour := false)), rnd)
    case TimerFired(TimerRebind) =>
      if c.m.lease.None? then c else EnterRebinding(c.(m := c.m.(reconfDetour := false)), rnd)
    case Stop => Halt(c, ReasonStopped)
    case LinkDown => Halt(c, ReasonLinkDown)
    case Release => Halt(c, ReasonReleased)
    case _ => c
  }

  function StepChecking(c: Ctx, rnd: Entropy, ev: Event): (r: Ctx)
    ensures Keeps(c, r)
  {
    match ev
    case DADResult(a, duplicate) => TakeDADResult(c, rnd, a, duplicate)
    case TimerFired(TimerDAD) =>
      var c := Emit(Cancel(c, TimerDAD), Failed(ReasonDADIncomplete));
      RestartDiscovery(c.(m := DropPending(c.m)), rnd)
    case TimerFired(TimerRetransmit) =>
      if c.m.msgType != Some(Decline) then c else if GivesUp(c) then FinishDecline(c, rnd) else Resend(c, rnd)
    case Received(msg, _, _) =>
      if c.m.msgType == Some(Decline) && Admits(c.m, msg) && msg.value.kind == Reply then FinishDecline(c, rnd) else c
    case AddressLost => RestartDiscovery(c.(m := DropPending(c.m)), rnd)
    case Stop => Halt(c, ReasonStopped)
    case LinkDown => Halt(c, ReasonLinkDown)
    case Release => Halt(c, ReasonReleased)
    case _ => c
  }

  function StepBound(c: Ctx, rnd: Entropy, ev: Event): (r: Ctx)
    ensures Keeps(c, r)
  {
    match ev
    case TimerFired(TimerRenew) => EnterRenewing(c, rnd)
    case TimerFired(TimerRebind) => EnterRebinding(c, rnd)
    case TimerFired(TimerRefresh) =>
      Set(c.(m := c.m.(refreshOwed := true, reconfDetour := true, pendingType := InformationRequest)), TimerDelay,
          RandomDelay(c.m.params.table.infMaxDelay, rnd))
    case TimerFired(TimerDelay) => StartExchange(c, rnd, InformationRequest)
    case AddressLost => DeclineHeld(c, rnd)
    case DADResult(_, duplicate) => if duplicate then DeclineHeld(c, rnd) else c
    case Release => Release6(c, rnd)
    case Stop => Halt(c, ReasonStopped)
    case LinkDown => Halt(c, ReasonLinkDown)
    case _ => c
  }

  function StepRenewal(c: Ctx, rnd: Entropy, ev: Event): (r: Ctx)
    ensures r.start == c.start && r.m.params == c.m.params.(table := r.m.params.table) && r.m.counts == c.m.counts
            && KeepsFloors(c, r)
  {
    match ev
    case Received(msg, _, _) =>
      if Admits(c.m, msg) && msg.value.kind == Reply then TakeReply(c, rnd, msg.value) else c
    case TimerFired(TimerRetransmit) => Resend(c, rnd)
    case TimerFired(TimerRebind) => if c.m.state == Renewing then EnterRebinding(c, rnd) else c
    case AddressLost => DeclineHeld(c, rnd)
    case Release => Release6(c, rnd)
    case Stop => Halt(c, ReasonStopped)
    case LinkDown => Halt(c, ReasonLinkDown)
    case _ => c
  }

  predicate IsReconfigure(ev: Event) { ev.Received? && ev.msg.Some? && ev.msg.value.kind == Reconfigure }

  function StepState(c: Ctx, rnd: Entropy, ev: Event): (r: Ctx)
    ensures r.start == c.start && r.m.params == c.m.params.(table := r.m.params.table) && r.m.counts == c.m.counts
            && KeepsFloors(c, r)
  {
    match c.m.state
    case Stopped => StepStopped(c, rnd, ev)
    case Init => StepInit(c, rnd, ev)
    case Selecting => StepSelecting(c, rnd, ev)
    case Requesting => StepRequesting(c, rnd, ev)
    case Confirming => StepConfirming(c, rnd, ev)
    case InfoRequesting => StepInfoRequesting(c, rnd, ev)
    case Checking => StepChecking(c, rnd, ev)
    case Bound => StepBound(c, rnd, ev)
    case Renewing => StepRenewal(c, rnd, ev)
    case Rebinding => StepRenewal(c, rnd, ev)
  }

  /** Some events mean the same in every state. */
  function StepBody(c: Ctx, rnd: Entropy, ev: Event): (r: Ctx)
    ensures r.start == c.start && r.m.params == c.m.params.(table := r.m.params.table)
  {
    if ev.RouterAdvert? then ObserveRouter(c, rnd, ev.managed, ev.other)
    else if ev == TimerFired(TimerExpire) then ExpireLease(c, rnd)
    else if ev.SetHostname? then TakeHostname(c, rnd, ev.name)
    else if ev.ActionFailed? then NoteActionFailed(c)
    else if IsReconfigure(ev) then TakeReconfigure(c, rnd, ev.msg.value, ev.raw, ev.dst)
    else if ev.ARPReceived? || ev.ConflictDetected? then c
    else StepState(c, rnd, ev)
  }
}
