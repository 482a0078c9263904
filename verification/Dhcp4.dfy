/** The DHCPv4 client state machine of RFC 2131 as a function of its inputs:
    what one event does to the client and which actions it emits. */
module Dhcp4 {
  import opened Clock
  import opened Lease
  import Acd
  import Backoff

  datatype State =
    | Stopped | Init | Selecting | Requesting | Rebooting | Probing | Bound | Renewing | Rebinding

  datatype TimerID =
    | TimerRetransmit | TimerDesync | TimerExpire | TimerRestart | TimerRenew | TimerRebind | TimerACD

  const ALL_TIMERS: seq<TimerID> :=
    [TimerRetransmit, TimerDesync, TimerExpire, TimerRestart, TimerRenew, TimerRebind, TimerACD]

  datatype Reason =
    | ReasonStopped | ReasonReleased | ReasonNak | ReasonNoServer | ReasonExpired | ReasonConflict
    | ReasonLinkDown | ReasonAddressLost | ReasonTransport

  datatype Kind = Discover | Offer | Request | Decline | Ack | Nak | Release | ForceRenew | OtherKind

  /** Option 90 of a received message. */
  datatype Auth = NoAuth | MalformedAuth | NonceAuth(nonce: Nonce, replay: nat) | DigestAuth(replay: nat)

  /** A received message, already decoded. */
  datatype Message = Message(kind: Option<Kind>, reply: bool, xid: nat, chaddr: Acd.Hardware,
                             yiaddr: Addr, ciaddr: Addr, serverID: Option<Addr>,
                             leaseSecs: Option<Seconds32>, t1Secs: Option<Seconds32>, t2Secs: Option<Seconds32>,
                             bits: nat, config: int, nonceCapable: bool, auth: Auth)

  /** The octets a message arrived in, whether its digest can be read, and the
      nonces it verifies under. */
  datatype Frame = Frame(octets: seq<nat>, readable: bool, verifiesUnder: set<Nonce>)

  datatype Dest = Broadcast | Unicast(to: Addr)

  datatype Outgoing = Outgoing(kind: Kind, xid: nat, ciaddr: Addr, requested: Option<Addr>,
                               serverID: Option<Addr>, hostname: string)

  datatype Action =
    | Send(msg: Outgoing, dest: Dest)
    | SendARP(senderIP: Addr, targetIP: Addr)
    | SetTimer(timer: TimerID, after: Duration)
    | CancelTimer(timer: TimerID)
    | LeaseAcquired(lease: Lease, requested: Option<Addr>)
    | LeaseRenewed(lease: Lease)
    | LeaseChanged(lease: Lease)
    | LeaseLost(reason: Reason)
    | Failed(reason: Reason)

  datatype Stamped = Stamped(id: nat, act: Action)

  datatype Event =
    | Start | Stop | Release | LinkDown | LinkUp | ConflictDetected | AddressLost
    | Received(msg: Option<Message>, raw: Option<Frame>, dst: Option<Addr>)
    | TimerFired(timer: TimerID)
    | ActionFailed(action: nat)
    | ARPReceived(pkt: Option<Acd.Packet>)
    | RouterAdvert(octets: seq<nat>) | DADResult(addr: nat, duplicate: bool)
    | SetHostname(name: string)

  datatype Resume = Resume(addr: Addr, expire: Option<Instant>) {
    predicate Live(now: Instant) { addr != 0 && (expire.None? || expire.value > now) }
  }

  datatype Params = Params(chaddr: Acd.Hardware, linkHW: Acd.Hardware, hostname: string, sendsFQDN: bool,
                           requestedIP: Addr, resume: Option<Resume>,
                           discover: Backoff.Schedule, request: Backoff.Schedule,
                           desyncMin: Duration, desyncMax: Duration, restartDelay: Duration,
                           maxSendFailures: int, conflict: Acd.Mode, acd: Acd.Params,
                           allow: set<Addr>, deny: set<Addr>,
                           split: (Entropy, nat) -> Entropy)
  {
    predicate Valid() {
      && chaddr != [] && |chaddr| <= 16 && |linkHW| <= 16
      && 0 <= desyncMin <= desyncMax && restartDelay >= 0
      && discover.Valid() && request.Valid() && acd.Valid() && ValidHostname(hostname)
      && (resume.Some? ==> resume.value.addr != 0)
    }

    function RestartDelay(): (d: Duration)
      ensures d > 0
    {
      if restartDelay <= 0 then 10 * SECOND else restartDelay
    }

    /** The i-th of the independent values one entropy value is spread into. */
    function Split(rnd: Entropy, i: nat): Entropy { split(rnd, i) }

    function Desync(rnd: Entropy): Duration { Uniform(desyncMin, desyncMax, rnd) }

    function LinkHW(): Acd.Hardware { if linkHW != [] then linkHW else chaddr }

    /** The server policy: a deny list always applies, an allow list when there is one. */
    predicate Permits(server: Option<Addr>) {
      && (server.Some? ==> server.value !in deny)
      && (allow == {} || (server.Some? && server.value in allow))
    }
  }

  predicate ValidHostname(name: string) {
    |name| <= 255 && forall i :: 0 <= i < |name| ==> '!' <= name[i] <= '~'
  }

  /** The key that authenticates a FORCERENEW and its replay floor. */
  datatype Key = Key(nonce: Nonce, floor: nat)

  datatype Refusal =
    | WrongState | NoRaw | NotUnicast | NotOurAddress | NotThisClient | NoNonce | NoDigest
    | MalformedDigest | Replayed | BadDigest | NoServer

  datatype Counters = Counters(renewed: nat, alreadyRenewing: nat, ackRefused: nat, refused: multiset<Refusal>)

  datatype Client = Client(params: Params, state: State, nextAction: nat, xid: nat, retransmits: nat,
                           sendFailures: nat, restarts: nat, offer: Option<Message>, requestSentAt: Instant,
                           counts: Counters, key: Option<Key>, lease: Option<Lease>, resume: Option<Resume>,
                           rebootAddr: Option<Addr>, acd: Option<Acd.State>, probing: Option<Lease>,
                           hostname: string, nameOnWire: string, arpAction: Option<nat>)
  {
    function Held(): Lease { if lease.Some? then lease.value else ZERO_LEASE }

    /** The lease a DECLINE or a RELEASE would name. */
    function HeldOrProbing(): Lease {
      if lease.Some? then lease.value else if probing.Some? then probing.value else ZERO_LEASE
    }

    predicate SendsHostname() { !params.sendsFQDN }

    function RequestedAddr(): Option<Addr> {
      if rebootAddr.Some? && rebootAddr.value != 0 then rebootAddr
      else if params.requestedIP != 0 then Some(params.requestedIP) else None
    }
  }

  const ZERO_LEASE := Lease(0, 0, None, 0, 0, 0, 0, 0, None, 0)

  function New(p: Params): Client {
    Client(p, Stopped, 0, 0, 0, 0, 0, None, 0, Counters(0, 0, 0, multiset{}), None, None, p.resume, None,
           if p.conflict.ConflictOff? then None else Some(Acd.New(p.acd, p.LinkHW())),
           None, p.hostname, "", None)
  }

  // --------------------------------------------------------- environment --

  /** The running timers, each with the moment it is due. */
  datatype Timers = Timers(retransmit: Option<Instant>, desync: Option<Instant>, expire: Option<Instant>,
                           restart: Option<Instant>, renew: Option<Instant>, rebind: Option<Instant>,
                           acd: Option<Instant>)
  {
    function At(t: TimerID): Option<Instant> {
      match t
      case TimerRetransmit => retransmit
      case TimerDesync => desync
      case TimerExpire => expire
      case TimerRestart => restart
      case TimerRenew => renew
      case TimerRebind => rebind
      case TimerACD => acd
    }

    function With(t: TimerID, at: Option<Instant>): Timers {
      match t
      case TimerRetransmit => this.(retransmit := at)
      case TimerDesync => this.(desync := at)
      case TimerExpire => this.(expire := at)
      case TimerRestart => this.(restart := at)
      case TimerRenew => this.(renew := at)
      case TimerRebind => this.(rebind := at)
      case TimerACD => this.(acd := at)
    }
  }

  const NO_TIMERS := Timers(None, None, None, None, None, None, None)

  /** What the caller has after executing a list of actions: the timers that
      are running, the lease it was told of and when, whether every
      announcement so far found it holding what it should, how many leases it
      was given and packets it sent, and the messages, the ARP packets and the
      reports it has seen. */
  datatype Env = Env(now: Instant, armed: Timers, held: Option<Lease>, heldAt: Instant, coherent: bool,
                     acquired: nat, sends: nat, mail: seq<Mail>, arps: seq<SentARP>, told: seq<Action>)

  datatype Mail = Mail(msg: Outgoing, dest: Dest)

  datatype SentARP = SentARP(at: Instant, senderIP: Addr, targetIP: Addr)

  function Execute(e: Env, a: Action): Env {
    match a
    case Send(msg, dest) => e.(sends := e.sends + 1, mail := e.mail + [Mail(msg, dest)])
    case SendARP(s, t) => e.(sends := e.sends + 1, arps := e.arps + [SentARP(e.now, s, t)])
    case SetTimer(t, d) => e.(armed := e.armed.With(t, Some(e.now + d)))
    case CancelTimer(t) => e.(armed := e.armed.With(t, None))
    case LeaseAcquired(l, _) =>
      e.(held := Some(l), heldAt := e.now, coherent := e.coherent && e.held.None?, acquired := e.acquired + 1,
         told := e.told + [a])
    case LeaseRenewed(l) =>
      e.(held := Some(l), heldAt := e.now, coherent := e.coherent && e.held.Some?, told := e.told + [a])
    case LeaseChanged(l) => e.(held := Some(l), coherent := e.coherent && e.held.Some?, told := e.told + [a])
    case LeaseLost(_) => e.(held := None, coherent := e.coherent && e.held.Some?, told := e.told + [a])
    case Failed(_) => e.(told := e.told + [a])
  }

  function Executed(e: Env, acts: seq<Stamped>): (r: Env)
    ensures r.now == e.now
  {
    if acts == [] then e else Execute(Executed(e, acts[..|acts| - 1]), acts[|acts| - 1].act)
  }

  /** A step under way: the client, the actions emitted so far, and the
      environment they will be executed in. */
  datatype Ctx = Ctx(m: Client, out: seq<Stamped>, start: Env) {
    function env(): (e: Env)
      ensures e.now == now()
    {
      Executed(start, out)
    }

    /** All of the environment that a step can see. */
    function now(): Instant { start.now }
  }

  /** A transition changes neither the moment nor the parameters, and answers no FORCERENEW. */
  ghost predicate Keeps(c: Ctx, r: Ctx) {
    && r.start == c.start && r.m.params == c.m.params
    && r.m.counts == c.m.counts.(ackRefused := r.m.counts.ackRefused)
  }

  /** It leaves the restart count as well, and the FORCERENEW key unless it drops it. */
  ghost predicate Carries(c: Ctx, r: Ctx) {
    && Keeps(c, r) && r.m.counts == c.m.counts && r.m.restarts == c.m.restarts && KeepsKey(c, r)
  }

  ghost predicate KeepsKey(c: Ctx, r: Ctx) { r.m.key == c.m.key || r.m.key.None? }

  function Begin(m: Client, e: Env): (c: Ctx)
    ensures c.env() == e
  {
    Ctx(m, [], e)
  }

  function Emit(c: Ctx, a: Action): (r: Ctx)
    ensures r.env() == Execute(c.env(), a)
    ensures r.start == c.start && r.m == c.m.(nextAction := c.m.nextAction + 1)
  {
    var out := c.out + [Stamped(c.m.nextAction, a)];
    assert out[..|out| - 1] == c.out;
    Ctx(c.m.(nextAction := c.m.nextAction + 1), out, c.start)
  }

  function Set(c: Ctx, t: TimerID, d: Duration): Ctx { Emit(c, SetTimer(t, d)) }

  function Cancel(c: Ctx, t: TimerID): Ctx { Emit(c, CancelTimer(t)) }

  /** The first n timers cancelled in turn. */
  function CancelMany(c: Ctx, n: nat): (r: Ctx)
    requires n <= |ALL_TIMERS|
    ensures r.start == c.start
    ensures r.m == c.m.(nextAction := c.m.nextAction + n)
    ensures r.env() == c.env().(armed := Cleared(c.env().armed, n))
  {
    if n == 0 then c else Cancel(CancelMany(c, n - 1), ALL_TIMERS[n - 1])
  }

  function Cleared(t: Timers, n: nat): Timers
    requires n <= |ALL_TIMERS|
  {
    if n == 0 then t else Cleared(t, n - 1).With(ALL_TIMERS[n - 1], None)
  }

  function CancelAll(c: Ctx): (r: Ctx)
    ensures r.start == c.start
    ensures r.m == c.m.(nextAction := c.m.nextAction + |ALL_TIMERS|)
    ensures r.env() == c.env().(armed := NO_TIMERS)
  {
    AllCleared(c.env().armed);
    CancelMany(c, |ALL_TIMERS|)
  }

  /** The list of timers is complete. */
  lemma AllCleared(t: Timers)
    ensures Cleared(t, |ALL_TIMERS|) == NO_TIMERS
  {
    assert Cleared(t, 1) == t.With(ALL_TIMERS[0], None);
    assert Cleared(t, 2) == Cleared(t, 1).With(ALL_TIMERS[1], None);
    assert Cleared(t, 3) == Cleared(t, 2).With(ALL_TIMERS[2], None);
    assert Cleared(t, 4) == Cleared(t, 3).With(ALL_TIMERS[3], None);
    assert Cleared(t, 5) == Cleared(t, 4).With(ALL_TIMERS[4], None);
    assert Cleared(t, 6) == Cleared(t, 5).With(ALL_TIMERS[5], None);
  }

  // ------------------------------------------------------------ messages --

  /** The common part of an outgoing message, which also records the name it carries. */
  function Base(c: Ctx, kind: Kind): (Ctx, Outgoing) {
    var name := if c.m.params.sendsFQDN then "" else c.m.hostname;
    (c.(m := c.m.(nameOnWire := name)), Outgoing(kind, c.m.xid, 0, None, None, name))
  }

  function SendDiscover(c: Ctx, rnd: Entropy): (r: Ctx)
    ensures Carries(c, r)
  {
    var (c, msg) := Base(c, Discover);
    var msg := msg.(requested := if c.m.params.requestedIP != 0 then Some(c.m.params.requestedIP) else None);
    var c := Cancel(c.(m := c.m.(state := Selecting)), TimerDesync);
    var c := Emit(c, Send(msg, Broadcast));
    Set(c, TimerRetransmit, Backoff.Delay(c.m.params.discover, c.m.retransmits, rnd))
  }

  function SendRequest(c: Ctx, rnd: Entropy): (r: Ctx)
    ensures Carries(c, r)
  {
    if c.m.offer.None? then ToInitIdle(c)
    else
      var (c, msg) := Base(c, Request);
      var msg := msg.(requested := Some(c.m.offer.value.yiaddr), serverID := c.m.offer.value.serverID);
      var c := c.(m := c.m.(state := Requesting, requestSentAt := c.now()));
      var c := Emit(c, Send(msg, Broadcast));
      Set(c, TimerRetransmit, Backoff.Delay(c.m.params.request, c.m.retransmits, rnd))
  }

  function SendReboot(c: Ctx, rnd: Entropy): (r: Ctx)
    ensures Carries(c, r)
  {
    var (c, msg) := Base(c, Request);
    var msg := msg.(requested := c.m.rebootAddr);
    var c := c.(m := c.m.(state := Rebooting, requestSentAt := c.now()));
    var c := Emit(c, Send(msg, Broadcast));
    Set(c, TimerRetransmit, Backoff.Delay(c.m.params.request, c.m.retransmits, rnd))
  }

  const RENEW_FLOOR: Duration := 60 * SECOND

  /** Half of what is left before T2, or before the end once T2 has passed,
      and never less than a minute. */
  function RenewalDelay(m: Client, now: Instant): (d: Duration)
    ensures d >= RENEW_FLOOR
  {
    var d := m.Held().Deadlines();
    var until := if m.state == Renewing && d.rebind.Some? then d.rebind else d.expire;
    if until.None? then RENEW_FLOOR else Max(Quot(until.value - now, 2), RENEW_FLOOR)
  }

  function SendRenewal(c: Ctx): (r: Ctx)
    ensures Carries(c, r)
  {
    var (c, msg) := Base(c, Request);
    var msg := msg.(ciaddr := c.m.Held().addr);
    var c := c.(m := c.m.(requestSentAt := c.now()));
    var dest := if c.m.state == Renewing && c.m.Held().serverID.Some? then Unicast(c.m.Held().serverID.value)
                else Broadcast;
    var c := Emit(c, Send(msg, dest));
    Set(c, TimerRetransmit, RenewalDelay(c.m, c.now()))
  }

  predicate NamesServer(l: Lease) { l.serverID.Some? && l.serverID.value != 0 }

  predicate Nameable(l: Lease) { l.addr != 0 && NamesServer(l) }

  function SendDecline(c: Ctx, rnd: Entropy): (r: Ctx)
    ensures Carries(c, r)
  {
    var l := c.m.HeldOrProbing();
    if !Nameable(l) then c
    else Emit(c, Send(Outgoing(Decline, c.m.params.Split(rnd, 4) % 0x1_0000_0000, 0, Some(l.addr), l.serverID, ""),
                      Broadcast))
  }

  function SendRelease(c: Ctx, rnd: Entropy): (r: Ctx)
    ensures Carries(c, r)
  {
    var l := c.m.HeldOrProbing();
    if !Nameable(l) then c
    else Emit(c, Send(Outgoing(Kind.Release, c.m.params.Split(rnd, 5) % 0x1_0000_0000, l.addr, None, l.serverID, ""),
                      Unicast(l.serverID.value)))
  }

  /** The answer to the transaction in flight, from a server this client
      listens to, addressed to this client. */
  predicate Acceptable(m: Client, msg: Option<Message>) {
    && msg.Some? && msg.value.reply && msg.value.kind.Some? && msg.value.xid == m.xid
    && m.params.Permits(msg.value.serverID)
    && msg.value.chaddr == m.params.chaddr
  }

  function LeaseFromAck(msg: Message, sentAt: Instant): Option<Lease> {
    if msg.yiaddr == 0 || msg.leaseSecs.None? then None
    else Some(Lease(msg.yiaddr, msg.bits, msg.serverID, sentAt, SecondsToDuration(msg.leaseSecs.value),
                    OptionalTime(msg.t1Secs), OptionalTime(msg.t2Secs), msg.config,
                    if msg.auth.NonceAuth? then Some(msg.auth.nonce) else None,
                    if msg.auth.NonceAuth? then msg.auth.replay else 0))
  }

  function OptionalTime(secs: Option<Seconds32>): Duration {
    if secs.Some? then SecondsToDuration(secs.value) else 0
  }

  // --------------------------------------------------------- transitions --

  function AcdStopped(m: Client): Client {
    m.(acd := if m.acd.Some? then Some(m.acd.value.Stop()) else None, probing := None, arpAction := None)
  }

  function ToInitIdle(c: Ctx): (r: Ctx)
    ensures Carries(c, r)
  {
    CancelAll(c.(m := AcdStopped(c.m.(state := Init, offer := None, retransmits := 0))))
  }

  function DropLease(c: Ctx, why: Reason): (r: Ctx)
    ensures Carries(c, r)
  {
    if c.m.lease.None? then c
    else
      var c := c.(m := c.m.(lease := None, key := None));
      Emit(Cancel(Cancel(Cancel(c, TimerExpire), TimerRenew), TimerRebind), LeaseLost(why))
  }

  function Halt(c: Ctx, why: Reason): (r: Ctx)
    ensures Keeps(c, r) && KeepsKey(c, r)
  {
    var c := DropLease(c, why);
    var c := CancelAll(c.(m := AcdStopped(c.m)));
    c.(m := c.m.(state := Stopped, offer := None, retransmits := 0, sendFailures := 0, restarts := 0))
  }

  function ReleaseLease(c: Ctx, rnd: Entropy): (r: Ctx)
    ensures Keeps(c, r) && KeepsKey(c, r)
  {
    Halt(SendRelease(c, rnd), ReasonReleased)
  }

  /** The remembered lease is spent by the first acquisition that looks at it. */
  function TakeResume(c: Ctx): (Ctx, bool) {
    if c.m.resume.None? then (c, false)
    else
      var r := c.m.resume.value;
      if !r.Live(c.now()) then (c.(m := c.m.(resume := None)), false)
      else (c.(m := c.m.(resume := None, rebootAddr := Some(r.addr))), true)
  }

  function BeginAcquisition(c: Ctx, rnd: Entropy, withDesync: bool): (r: Ctx)
    ensures Carries(c, r)
  {
    hide Executed, SendDiscover, SendReboot, CancelAll;
    var p := c.m.params;
    var m := c.m.(retransmits := 0, sendFailures := 0, offer := None, rebootAddr := None,
                  xid := p.Split(rnd, 0) % 0x1_0000_0000, state := Init);
    var (c, rebooting) := TakeResume(CancelAll(c.(m := m)));
    if rebooting then SendReboot(c, p.Split(rnd, 3))
    else
      var d := if withDesync then p.Desync(p.Split(rnd, 2)) else 0;
      if d <= 0 then SendDiscover(c, p.Split(rnd, 3)) else Set(c, TimerDesync, d)
  }

  /** The first restart in a row is immediate; every later one waits out the
      discover schedule. */
  function RestartPaced(c: Ctx, rnd: Entropy, withDesync: bool): (r: Ctx)
    ensures Keeps(c, r) && KeepsKey(c, r)
  {
    var n := c.m.restarts;
    var c := c.(m := c.m.(restarts := n + 1));
    if n == 0 then BeginAcquisition(c, rnd, withDesync)
    else Set(ToInitIdle(c), TimerRestart, Backoff.Delay(c.m.params.discover, n - 1, c.m.params.Split(rnd, 4)))
  }

  function DeclineAndRestart(c: Ctx, rnd: Entropy): (r: Ctx)
    ensures Carries(c, r)
  {
    var c := DropLease(SendDecline(c, rnd), ReasonConflict);
    var c := ToInitIdle(c);
    var base := c.m.params.RestartDelay();
    Set(c, TimerRestart, if c.m.acd.Some? then c.m.acd.value.RestartDelay(c.now(), base) else base)
  }

  /** A deadline already past is due at once. */
  function Due(now: Instant, at: Option<Instant>): Option<Instant> {
    if at.None? then None else Some(Max(at.value, now))
  }

  function ArmDeadline(c: Ctx, t: TimerID, at: Option<Instant>): (r: Ctx)
    ensures r.start == c.start
    ensures r.m == c.m.(nextAction := c.m.nextAction + 1)
    ensures r.env() == c.env().(armed := c.env().armed.With(t, Due(c.env().now, at)))
  {
    Emit(c, if at.None? then CancelTimer(t) else SetTimer(t, Max(at.value - c.now(), 0)))
  }

  function ArmDeadlines(c: Ctx, d: Timing): (r: Ctx)
    ensures r.start == c.start
    ensures r.m == c.m.(nextAction := c.m.nextAction + 3)
  {
    var c := ArmDeadline(c, TimerExpire, d.expire);
    var c := ArmDeadline(c, TimerRenew, d.renew);
    ArmDeadline(c, TimerRebind, d.rebind)
  }

  lemma DeadlinesArmed(c: Ctx, d: Timing)
    ensures
      var now := c.env().now;
      ArmDeadlines(c, d).env()
      == c.env().(armed := c.env().armed.(expire := Due(now, d.expire), renew := Due(now, d.renew),
                                          rebind := Due(now, d.rebind)))
  {
    hide ArmDeadline, Executed, Execute, Due;
  }

  /** The nonce a lease carries forward, and the floor it starts from. */
  function SettleForcerenew(m: Client, l: Lease, renewal: bool): (Option<Key>, Lease) {
    if l.nonce.Some? then
      var same := renewal && m.key.Some? && m.key.value.nonce == l.nonce.value;
      var l := if same && m.key.value.floor > l.replay then l.(replay := m.key.value.floor) else l;
      (Some(Key(l.nonce.value, l.replay)), l)
    else if renewal && m.key.Some? && l.serverID == m.Held().serverID then
      (m.key, l.(nonce := Some(m.key.value.nonce), replay := m.key.value.floor))
    else (None, l.(nonce := None, replay := 0))
  }

  /** The client with its lease replaced. A lease that still holds clears the
      restart count. */
  function Settled(c: Ctx, l: Lease, renewal: bool): (r: Ctx)
    ensures Keeps(c, r)
  {
    var c := Cancel(c, TimerRetransmit);
    var (key, l) := SettleForcerenew(c.m, l, renewal && c.m.lease.Some?);
    var d := l.Deadlines();
    var holds := d.expire.None? || d.expire.value > c.now();
    c.(m := c.m.(key := key, lease := Some(l), state := Bound, offer := None, retransmits := 0,
                 sendFailures := 0, restarts := if holds then 0 else c.m.restarts))
  }

  /** Taking a lease, up to the announcement. */
  function Bind(c: Ctx, l: Lease, renewal: bool): (r: Ctx)
    ensures Keeps(c, r)
  {
    var c := Settled(c, l, renewal);
    ArmDeadlines(c, c.m.Held().Deadlines())
  }

  function EnterBoundNew(c: Ctx, rnd: Entropy, l: Lease): (r: Ctx)
    ensures Keeps(c, r)
  {
    var c := Bind(c, l, false);
    var c := Emit(c, LeaseAcquired(c.m.Held(), c.m.RequestedAddr()));
    AnnounceHostname(c, rnd)
  }

  function EnterBoundRenewed(c: Ctx, rnd: Entropy, l: Lease): (r: Ctx)
    ensures Keeps(c, r)
  {
    var prev := c.m.lease;
    var c := Bind(c, l, true);
    var l := c.m.Held();
    var c := Emit(c, LeaseRenewed(l));
    if prev.None? || prev.value.Equal(l) then c
    else
      var moved := prev.value.addr != l.addr || prev.value.bits != l.bits;
      Emit(if moved then StartAcd(c, rnd, l.addr) else c, LeaseChanged(l))
  }

  /** A name the server has not been told renews at once. */
  function AnnounceHostname(c: Ctx, rnd: Entropy): (r: Ctx)
    ensures Carries(c, r)
  {
    if !c.m.SendsHostname() || c.m.hostname == c.m.nameOnWire || c.m.hostname == "" then c
    else match c.m.state
      case Bound => EnterRenewing(c, rnd)
      case Renewing => SendRenewal(c)
      case Rebinding => SendRenewal(c)
      case _ => c
  }

  function BeginRenewal(m: Client, rnd: Entropy): Client {
    m.(xid := m.params.Split(rnd, 0) % 0x1_0000_0000, retransmits := 0, sendFailures := 0, offer := None)
  }

  function EnterRenewing(c: Ctx, rnd: Entropy): (r: Ctx)
    ensures Carries(c, r)
  {
    if !NamesServer(c.m.Held()) then c
    else SendRenewal(c.(m := BeginRenewal(c.m, rnd).(state := Renewing)))
  }

  function EnterRebinding(c: Ctx, rnd: Entropy, opening: bool): (r: Ctx)
    ensures Carries(c, r)
  {
    var m := if opening then BeginRenewal(c.m, rnd) else c.m;
    SendRenewal(c.(m := m.(state := Rebinding)))
  }

  function TakeHostname(c: Ctx, rnd: Entropy, name: string): (r: Ctx)
    ensures Carries(c, r)
  {
    if !c.m.SendsHostname() || !ValidHostname(name) then c
    else AnnounceHostname(c.(m := c.m.(hostname := name)), rnd)
  }

  // --------------------------------------------------- conflict detection --

  function AfterAck(c: Ctx, rnd: Entropy, l: Lease): (r: Ctx)
    ensures Keeps(c, r)
  {
    match c.m.params.conflict
    case ConflictWait => EnterProbing(c, rnd, l)
    case ConflictAsync => EnterBoundNew(StartAcd(c, rnd, l.addr), rnd, l)
    case ConflictOff => EnterBoundNew(c, rnd, l)
  }

  function EnterProbing(c: Ctx, rnd: Entropy, l: Lease): (r: Ctx)
    ensures Carries(c, r)
  {
    var c := Cancel(c, TimerRetransmit);
    var c := c.(m := c.m.(probing := Some(l), state := Probing, offer := None, retransmits := 0, sendFailures := 0));
    StartAcd(c, rnd, l.addr)
  }

  /** The sub-machine's outputs other than the two that end a probe. */
  function ApplyQuiet(c: Ctx, o: Acd.Output): (r: Ctx)
    ensures Carries(c, r)
  {
    match o
    case SetTimer(after) => Set(c, TimerACD, after)
    case CancelTimer => Cancel(c, TimerACD)
    case SendProbe => EmitARP(c, 0)
    case SendAnnounce => EmitARP(c, AcdAddr(c.m))
    case _ => c
  }

  function AcdAddr(m: Client): Addr {
    if m.acd.Some? && m.acd.value.addr.Some? then m.acd.value.addr.value else 0
  }

  function EmitARP(c: Ctx, senderIP: Addr): (r: Ctx)
    ensures Carries(c, r)
  {
    var id := c.m.nextAction;
    var c := Emit(c, SendARP(senderIP, AcdAddr(c.m)));
    c.(m := c.m.(arpAction := Some(id)))
  }

  function Apply(c: Ctx, rnd: Entropy, o: Acd.Output): (r: Ctx)
    ensures Keeps(c, r)
  {
    match o
    case Ready =>
      if c.m.probing.None? then c
      else EnterBoundNew(c.(m := c.m.(probing := None)), rnd, c.m.probing.value)
    case Conflict =>
      var held := c.m.lease.Some?;
      var c := DeclineAndRestart(c, rnd);
      if held then c else Emit(c, Failed(ReasonConflict))
    case _ => ApplyQuiet(c, o)
  }

  function ApplyAll(c: Ctx, rnd: Entropy, outs: seq<Acd.Output>): (r: Ctx)
    ensures Keeps(c, r)
  {
    if outs == [] then c
    else Apply(ApplyAll(c, rnd, outs[..|outs| - 1]), rnd, outs[|outs| - 1])
  }

  /** Starting a check emits one timer and nothing else. */
  function StartAcd(c: Ctx, rnd: Entropy, addr: Addr): (r: Ctx)
    ensures Carries(c, r)
  {
    if c.m.acd.None? then c
    else
      var (a, outs) := c.m.acd.value.Start(c.now(), rnd, addr);
      ApplyQuiet(c.(m := c.m.(acd := Some(a))), outs[0])
  }

  function AcdTimer(c: Ctx, rnd: Entropy): (r: Ctx)
    ensures Keeps(c, r)
  {
    if c.m.acd.None? then c
    else
      var (a, outs) := c.m.acd.value.Timer(rnd);
      ApplyAll(c.(m := c.m.(acd := Some(a))), rnd, outs)
  }

  function OnArp(c: Ctx, rnd: Entropy, pkt: Option<Acd.Packet>): (r: Ctx)
    ensures Keeps(c, r)
  {
    if c.m.acd.None? || pkt.None? then c
    else
      var (a, outs) := c.m.acd.value.Arp(pkt.value);
      ApplyAll(c.(m := c.m.(acd := Some(a))), rnd, outs)
  }

  // ------------------------------------------------------------ forcerenew --

  function Refuse(c: Ctx, why: Refusal): Ctx {
    c.(m := c.m.(counts := c.m.counts.(refused := c.m.counts.refused + multiset{why})))
  }

  /** A destination that names one host: not unspecified, multicast, the
      limited broadcast or the lease's own subnet broadcast. */
  predicate IsUnicast(dst: Option<Addr>, l: Lease) {
    && dst.Some? && dst.value != 0 && !(0xE000_0000 <= dst.value <= 0xEFFF_FFFF) && dst.value != 0xFFFF_FFFF
    && (l.bits < 31 ==> dst.value != SubnetBroadcast(l.addr, l.bits))
  }

  function SubnetBroadcast(addr: Addr, bits: nat): Addr
    requires bits <= 32
  {
    var size := Pow2(32 - bits);
    addr / size * size + size - 1
  }

  /** The checks in the order the client makes them: the first that fails. */
  function ForcerenewFault(m: Client, msg: Message, raw: Option<Frame>, dst: Option<Addr>): Option<Refusal> {
    var own := m.Held().addr;
    if m.state != Bound && m.state != Renewing && m.state != Rebinding then Some(WrongState)
    else if raw.None? then Some(NoRaw)
    else if !IsUnicast(dst, m.Held()) then Some(NotUnicast)
    else if dst != Some(own) then Some(NotOurAddress)
    else if !msg.reply || msg.chaddr != m.params.chaddr || msg.ciaddr != own then Some(NotThisClient)
    else if m.key.None? then Some(NoNonce)
    else if msg.auth.NoAuth? then Some(NoDigest)
    else if !msg.auth.DigestAuth? then Some(MalformedDigest)
    else if msg.auth.replay <= m.key.value.floor then Some(Replayed)
    else if !raw.value.readable then Some(MalformedDigest)
    else if m.key.value.nonce !in raw.value.verifiesUnder then Some(BadDigest)
    else if m.state == Bound && !NamesServer(m.Held()) then Some(NoServer)
    else None
  }

  function TakeForcerenew(c: Ctx, rnd: Entropy, msg: Message, raw: Option<Frame>, dst: Option<Addr>): Ctx {
    var fault := ForcerenewFault(c.m, msg, raw, dst);
    if fault.Some? then Refuse(c, fault.value)
    else
      var m := c.m.(key := Some(c.m.key.value.(floor := msg.auth.replay)));
      var n := m.counts;
      if m.state != Bound then c.(m := m.(counts := n.(alreadyRenewing := n.alreadyRenewing + 1)))
      else EnterRenewing(c.(m := m.(counts := n.(renewed := n.renewed + 1))), rnd)
  }

  /** An ACK that leaves out the nonce its OFFER promised. */
  predicate LacksNonce(m: Client, msg: Message) {
    m.offer.Some? && m.offer.value.nonceCapable && !msg.auth.NonceAuth?
  }

  // ------------------------------------------------------------------ step --

  function TransportFailed(c: Ctx): (r: Ctx)
    ensures Carries(c, r)
  {
    var c := DropLease(Emit(c, Failed(ReasonTransport)), ReasonTransport);
    if c.m.state != Init then ToInitIdle(c) else c
  }

  function NoteActionFailed(c: Ctx, rnd: Entropy, id: nat): (r: Ctx)
    ensures Carries(c, r)
  {
    if c.m.arpAction == Some(id) then c.(m := c.m.(arpAction := None))
    else
      var c := c.(m := c.m.(sendFailures := c.m.sendFailures + 1));
      var p := c.m.params;
      if c.m.state == Renewing || c.m.state == Rebinding then
        Set(c, TimerRetransmit, RenewalDelay(c.m, c.now()))
      else if p.maxSendFailures > 0 && c.m.sendFailures >= p.maxSendFailures then
        TransportFailed(c)
      else match c.m.state
        case Selecting => Set(c, TimerRetransmit, Backoff.Delay(p.discover, c.m.retransmits, rnd))
        case Requesting => Set(c, TimerRetransmit, Backoff.Delay(p.request, c.m.retransmits, rnd))
        case Rebooting => Set(c, TimerRetransmit, Backoff.Delay(p.request, c.m.retransmits, rnd))
        case _ => c
  }

  function GiveUp(c: Ctx, rnd: Entropy): (r: Ctx)
    ensures Carries(c, r)
  {
    BeginAcquisition(Emit(c, Failed(ReasonNoServer)), c.m.params.Split(rnd, 1), false)
  }

  function TakeNak(c: Ctx, rnd: Entropy): (r: Ctx)
    ensures Keeps(c, r) && KeepsKey(c, r)
  {
    var c := Emit(Cancel(c, TimerRetransmit), Failed(ReasonNak));
    RestartPaced(c, c.m.params.Split(rnd, 1), false)
  }

  function StepStopped(c: Ctx, rnd: Entropy, ev: Event): (r: Ctx)
    ensures Keeps(c, r) && KeepsKey(c, r)
  {
    match ev
    case Start => BeginAcquisition(c, rnd, true)
    case SetHostname(name) => TakeHostname(c, rnd, name)
    case _ => c
  }

  function StepInit(c: Ctx, rnd: Entropy, ev: Event): (r: Ctx)
    ensures Keeps(c, r) && KeepsKey(c, r)
  {
    match ev
    case Start => BeginAcquisition(c, rnd, true)
    case Stop => Halt(c, ReasonStopped)
    case Release => Halt(c, ReasonReleased)
    case TimerFired(TimerDesync) => SendDiscover(c, rnd)
    case TimerFired(TimerRestart) => BeginAcquisition(c, rnd, false)
    case LinkUp => BeginAcquisition(c, rnd, true)
    case ActionFailed(id) => NoteActionFailed(c, rnd, id)
    case SetHostname(name) => TakeHostname(c, rnd, name)
    case _ => c
  }

  function StepSelecting(c: Ctx, rnd: Entropy, ev: Event): (r: Ctx)
    ensures Keeps(c, r) && KeepsKey(c, r)
  {
    match ev
    case Stop => Halt(c, ReasonStopped)
    case Release => Halt(c, ReasonReleased)
    case Received(msg, _, _) =>
      if !Acceptable(c.m, msg) || msg.value.kind != Some(Offer) then c
      else if msg.value.yiaddr == 0 || msg.value.serverID.None? || msg.value.serverID.value == 0 then c
      else SendRequest(c.(m := c.m.(offer := msg, retransmits := 0)), rnd)
    case TimerFired(TimerRetransmit) =>
      if c.m.params.discover.Exhausted(c.m.retransmits) then GiveUp(c, rnd)
      else SendDiscover(c.(m := c.m.(retransmits := c.m.retransmits + 1)), rnd)
    case LinkDown => ToInitIdle(c)
    case ActionFailed(id) => NoteActionFailed(c, rnd, id)
    case SetHostname(name) => TakeHostname(c, rnd, name)
    case _ => c
  }

  function StepRequesting(c: Ctx, rnd: Entropy, ev: Event): (r: Ctx)
    ensures Keeps(c, r)
  {
    match ev
    case Stop => Halt(c, ReasonStopped)
    case Release => Halt(c, ReasonReleased)
    case Received(msg, _, _) =>
      if !Acceptable(c.m, msg) then c
      else if msg.value.kind == Some(Ack) then
        if LacksNonce(c.m, msg.value) then
          var n := c.m.counts;
          RestartPaced(c.(m := c.m.(counts := n.(ackRefused := n.ackRefused + 1))), c.m.params.Split(rnd, 1), true)
        else
          var l := LeaseFromAck(msg.value, c.m.requestSentAt);
          if l.None? then c else AfterAck(c, rnd, l.value)
      else if msg.value.kind == Some(Nak) then TakeNak(c, rnd)
      else c
    case TimerFired(TimerRetransmit) =>
      if c.m.params.request.Exhausted(c.m.retransmits) then GiveUp(c, rnd)
      else SendRequest(c.(m := c.m.(retransmits := c.m.retransmits + 1)), rnd)
    case LinkDown => ToInitIdle(c)
    case ActionFailed(id) => NoteActionFailed(c, rnd, id)
    case SetHostname(name) => TakeHostname(c, rnd, name)
    case _ => c
  }

  function StepRebooting(c: Ctx, rnd: Entropy, ev: Event): (r: Ctx)
    ensures Keeps(c, r)
  {
    match ev
    case Stop => Halt(c, ReasonStopped)
    case Release => Halt(c, ReasonReleased)
    case Received(msg, _, _) =>
      if !Acceptable(c.m, msg) then c
      else if msg.value.kind == Some(Ack) then
        var l := LeaseFromAck(msg.value, c.m.requestSentAt);
        if l.None? then c else AfterAck(c, rnd, l.value)
      else if msg.value.kind == Some(Nak) then TakeNak(c, rnd)
      else c
    case TimerFired(TimerRetransmit) =>
      if c.m.params.request.Exhausted(c.m.retransmits) then GiveUp(c, rnd)
      else SendReboot(c.(m := c.m.(retransmits := c.m.retransmits + 1)), rnd)
    case LinkDown => ToInitIdle(c)
    case ActionFailed(id) => NoteActionFailed(c, rnd, id)
    case SetHostname(name) => TakeHostname(c, rnd, name)
    case _ => c
  }

  function StepProbing(c: Ctx, rnd: Entropy, ev: Event): (r: Ctx)
    ensures Keeps(c, r)
  {
    match ev
    case Stop => Halt(c, ReasonStopped)
    case Release => ReleaseLease(c, rnd)
    case TimerFired(TimerACD) => AcdTimer(c, rnd)
    case ARPReceived(pkt) => OnArp(c, rnd, pkt)
    case ConflictDetected => DeclineAndRestart(c, rnd)
    case LinkDown => ToInitIdle(c)
    case ActionFailed(id) => NoteActionFailed(c, rnd, id)
    case SetHostname(name) => TakeHostname(c, rnd, name)
    case _ => c
  }

  function StepBound(c: Ctx, rnd: Entropy, ev: Event): (r: Ctx)
    ensures Keeps(c, r)
  {
    match ev
    case Stop => Halt(c, ReasonStopped)
    case TimerFired(TimerExpire) => RestartPaced(DropLease(c, ReasonExpired), rnd, false)
    case TimerFired(TimerRenew) => EnterRenewing(c, rnd)
    case TimerFired(TimerRebind) => EnterRebinding(c, rnd, true)
    case TimerFired(TimerACD) => AcdTimer(c, rnd)
    case LinkDown => ToInitIdle(DropLease(c, ReasonLinkDown))
    case AddressLost => BeginAcquisition(DropLease(c, ReasonAddressLost), rnd, false)
    case ConflictDetected => DeclineAndRestart(c, rnd)
    case ARPReceived(pkt) => OnArp(c, rnd, pkt)
    case Release => ReleaseLease(c, rnd)
    case ActionFailed(id) => NoteActionFailed(c, rnd, id)
    case SetHostname(name) => TakeHostname(c, rnd, name)
    case _ => c
  }

  function StepRenewal(c: Ctx, rnd: Entropy, ev: Event): (r: Ctx)
    ensures Keeps(c, r)
  {
    match ev
    case Stop => Halt(c, ReasonStopped)
    case Release => ReleaseLease(c, rnd)
    case ConflictDetected => DeclineAndRestart(c, rnd)
    case ARPReceived(pkt) => OnArp(c, rnd, pkt)
    case Received(msg, _, _) =>
      if !Acceptable(c.m, msg) then c
      else if msg.value.kind == Some(Ack) then
        var l := LeaseFromAck(msg.value, c.m.requestSentAt);
        if l.None? then c else EnterBoundRenewed(c, rnd, l.value)
      else if msg.value.kind == Some(Nak) then
        RestartPaced(Emit(DropLease(c, ReasonNak), Failed(ReasonNak)), c.m.params.Split(rnd, 1), false)
      else c
    case TimerFired(TimerRetransmit) => SendRenewal(c)
    case TimerFired(TimerRebind) => if c.m.state != Renewing then c else EnterRebinding(c, rnd, false)
    case TimerFired(TimerExpire) => RestartPaced(DropLease(c, ReasonExpired), rnd, false)
    case TimerFired(TimerACD) => AcdTimer(c, rnd)
    case LinkDown => ToInitIdle(DropLease(c, ReasonLinkDown))
    case AddressLost => BeginAcquisition(DropLease(c, ReasonAddressLost), rnd, false)
    case ActionFailed(id) => NoteActionFailed(c, rnd, id)
    case SetHostname(name) => TakeHostname(c, rnd, name)
    case _ => c
  }

  predicate IsForcerenew(ev: Event) {
    ev.Received? && ev.msg.Some? && ev.msg.value.kind == Some(ForceRenew)
  }

  function StepBody(c: Ctx, rnd: Entropy, ev: Event): Ctx {
    if IsForcerenew(ev) then TakeForcerenew(c, rnd, ev.msg.value, ev.raw, ev.dst)
    else match c.m.state
      case Stopped => StepStopped(c, rnd, ev)
      case Init => StepInit(c, rnd, ev)
      case Selecting => StepSelecting(c, rnd, ev)
      case Requesting => StepRequesting(c, rnd, ev)
      case Rebooting => StepRebooting(c, rnd, ev)
      case Probing => StepProbing(c, rnd, ev)
      case Bound => StepBound(c, rnd, ev)
      case Renewing => StepRenewal(c, rnd, ev)
      case Rebinding => StepRenewal(c, rnd, ev)
  }
}
