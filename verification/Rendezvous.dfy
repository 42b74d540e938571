/** The proxy server as a transition system: connections, one I/O thread that runs one handler at a
    time, a cleaner that sweeps the registry between any two of the handler's steps, and bridges.

    Who holds a connection is recorded where the program records it (an armed read, the running
    handler, the node taken out of the registry, a registry entry, a bridge), so that a connection
    held twice, or read by two readers, would be a reachable state of this system if the program
    allowed it. */
module Rendezvous {
  import opened Messages
  import opened Framing
  import opened Registry
  import opened Protocol
  import Relays

  type ConnId = nat

  datatype Conn = Conn(
    sent: seq<byte>,            // every byte the peer has sent
    taken: nat,                 // how many of them have been read
    out: seq<byte>,             // every byte written to the peer
    broken: bool,               // the peer is gone: writes fail
    requests: seq<Message>,     // history: messages handed to the session's handlers
    replies: seq<Message>,      // history: messages the session code wrote
    verdict: Option<Verdict>)   // history: the outcome of the login

  // the callback an armed read will run: authenticateCallback or handleRead
  datatype Gate = BeforeLogin | AfterLogin
  // an outstanding read, waiting for a header or for the body that a header announced
  datatype Arm = Arm(gate: Gate, header: Option<Header>)

  function Limit(g: Gate): nat {
    if g == BeforeLogin then FIRST_MESSAGE_MAX_SIZE else BUFFER_SIZE
  }

  /** Where the I/O thread is. Between two of these points other threads may run. */
  datatype Thread =
    | Idle
    | FirstMessage(c: ConnId, m: Message)
    | NextMessage(c: ConnId, m: Message)
    | SendId(c: ConnId)                       // registered, lock released
    | SendNotFound(c: ConnId)                 // looked up in vain, lock released
    | SendFound(c: ConnId, streamer: ConnId)  // node extracted, lock released
    | SendStart(c: ConnId, streamer: ConnId)
    | OpenBridge(c: ConnId, streamer: ConnId)
    | Unwinding(c: ConnId, what: seq<byte>)   // an exception on its way to safeDisconnect

  // peer_one is the streamer, peer_two the viewer
  datatype Link = Link(one: ConnId, two: ConnId, toOne: nat, toTwo: nat, upLive: bool, downLive: bool)

  // a registration that was found, but whose streamer did not get a bridge to the viewer
  datatype LostClaim = LostClaim(viewer: ConnId, streamer: ConnId)

  datatype State = State(
    conns: map<ConnId, Conn>,
    armed: map<ConnId, Arm>,
    thread: Thread,
    registry: map<Id, Entry<ConnId>>,
    log: seq<Event<ConnId>>,
    links: seq<Link>,   // every bridge ever created
    lost: seq<LostClaim>,  // the claims that ended in an exception instead of a bridge
    clock: int)

  const INITIAL := State(map[], map[], Idle, map[], [], [], [], 0)

  datatype Action =
    | Connect(c: ConnId)
    | PeerSends(c: ConnId, bytes: seq<byte>)
    | PeerBreaks(c: ConnId)
    | WriteTears(c: ConnId, m: Message, k: nat)       // the peer goes after k bytes of what the handler writes to it
    | ReadFails(c: ConnId)
    | HeaderArrives(c: ConnId, what: seq<byte>)
    | BodyArrives(c: ConnId)
    | Proceed(verdict: Verdict, now: int)             // the handler's next step
    | BridgeFails                                     // or a bridge that cannot be made: a peer has no address any more
    // a bridge reads n bytes and writes them on, or fails after some of them (viewer to streamer, and back)
    | RelayUp(link: nat, n: nat, written: nat, ok: bool)
    | RelayDown(link: nat, n: nat, written: nat, ok: bool)
    | Sweep(timeout: int, gone: seq<Id>, end: int)
    | ResetRegistry

  ghost predicate Enabled(s: State, a: Action) {
    match a
    case Connect(c) => c !in s.conns
    case PeerSends(c, _) => c in s.conns
    case PeerBreaks(c) => c in s.conns
    case WriteTears(c, m, k) =>
      && c in s.conns && !s.conns[c].broken && MayWriteTo(s.thread, c) && MaySay(s.thread, m)
      && Fits(m, BUFFER_SIZE) && k < |EncodeFrame(m)|
    case ReadFails(c) => c in s.armed && s.thread.Idle?
    case HeaderArrives(c, what) =>
      && c in s.armed && c in s.conns && s.thread.Idle? && s.armed[c].header.None?
      && Fits(Message(DISCONNECT, what), BUFFER_SIZE)
      && s.conns[c].taken + HEADER_SIZE <= |s.conns[c].sent|
    case BodyArrives(c) =>
      && c in s.armed && c in s.conns && s.thread.Idle? && s.armed[c].header.Some?
      && s.conns[c].taken + s.armed[c].header.value.length <= |s.conns[c].sent|
    case Proceed(verdict, now) =>
      && !s.thread.Idle? && s.clock <= now && s.thread.c in s.conns
      && (verdict.Throws? ==> Fits(Message(DISCONNECT, verdict.what), BUFFER_SIZE))
      && (s.thread.SendFound? || s.thread.SendStart? || s.thread.OpenBridge? ==> s.thread.streamer in s.conns)
    case BridgeFails =>
      && s.thread.OpenBridge? && s.thread.c in s.conns && s.thread.streamer in s.conns
      && (s.conns[s.thread.c].broken || s.conns[s.thread.streamer].broken)
    case RelayUp(i, n, written, ok) =>
      && s.thread.Idle? && i < |s.links| && s.links[i].upLive && s.links[i].one in s.conns && s.links[i].two in s.conns
      && written <= n <= Relays.MAX_DATA_LENGTH
      && s.conns[s.links[i].two].taken + n <= |s.conns[s.links[i].two].sent|
      && (ok ==> 1 <= n == written && !s.conns[s.links[i].one].broken)
    case RelayDown(i, n, written, ok) =>
      && s.thread.Idle? && i < |s.links| && s.links[i].downLive && s.links[i].one in s.conns
         && s.links[i].two in s.conns
      && written <= n <= Relays.MAX_DATA_LENGTH
      && s.conns[s.links[i].one].taken + n <= |s.conns[s.links[i].one].sent|
      && (ok ==> 1 <= n == written && !s.conns[s.links[i].two].broken)
    case Sweep(timeout, gone, end) =>
      s.clock <= end && Distinct(gone) && SweepOutcome(s.registry, s.registry - IdSet(gone), timeout, s.clock, end)
      && IdSet(gone) <= s.registry.Keys
    case ResetRegistry => true
  }

  /** Whether the handler's next step may be a write to this connection. */
  predicate MayWriteTo(t: Thread, c: ConnId) {
    match t
    case Idle => false
    case SendStart(_, d) => c == d
    case OpenBridge(_, _) => false
    case _ => c == t.c
  }

  /** Whether it may be what is written then. */
  predicate MaySay(t: Thread, m: Message) {
    match t
    case FirstMessage(_, q) => if q.kind == LOGIN then m == ACCEPT || m == REFUSE else m == LOGIN_FIRST
    case NextMessage(_, q) => q.kind != REGISTER_STREAMER && q.kind != FIND_STREAMER && m == NotExpected(q.kind)
    case SendId(_) => m == GRANTED
    case SendNotFound(_) => m == REFUSE
    case SendFound(_, _) => m == ACCEPT
    case SendStart(_, _) => m == START
    case Unwinding(_, what) => m == Message(DISCONNECT, what)
    case _ => false
  }

  predicate Distinct(ids: seq<Id>) {
    forall i, j :: 0 <= i < j < |ids| ==> ids[i] != ids[j]
  }

  function IdSet(ids: seq<Id>): set<Id> {
    set id | id in ids
  }

  function Said(conn: Conn, m: Message): Conn {
    conn.(out := conn.out + EncodeFrame(m), replies := conn.replies + [m])
  }

  function With(s: State, c: ConnId, conn: Conn): State {
    s.(conns := s.conns[c := conn])
  }

  /** `n` bytes are read from one connection and the first `written` of them written to another. */
  function Relayed(s: State, from: ConnId, to: ConnId, n: nat, written: nat): State
    requires from in s.conns && to in s.conns && written <= n && s.conns[from].taken + n <= |s.conns[from].sent|
  {
    var f := s.conns[from];
    var s1 := With(s, from, f.(taken := f.taken + n));
    With(s1, to, s1.conns[to].(out := s1.conns[to].out + f.sent[f.taken..f.taken + written]))
  }

  function ExpirationEvents(gone: seq<Id>): seq<Event<ConnId>> {
    if gone == [] then [] else ExpirationEvents(Front(gone)) + [Expired(Last(gone))]
  }

  ghost function Step(s: State, a: Action): State
    requires Enabled(s, a)
  {
    match a
    case Connect(c) =>
      With(s, c, Conn([], 0, [], false, [], [], None)).(armed := s.armed[c := Arm(BeforeLogin, None)])
    case PeerSends(c, bytes) => With(s, c, s.conns[c].(sent := s.conns[c].sent + bytes))
    case PeerBreaks(c) => With(s, c, s.conns[c].(broken := true))
    case WriteTears(c, m, k) => With(s, c, s.conns[c].(broken := true, out := s.conns[c].out + EncodeFrame(m)[..k]))
    case ReadFails(c) => s.(armed := s.armed - {c})
    case HeaderArrives(c, what) => TakeHeader(s, c, what)
    case BodyArrives(c) => TakeBody(s, c)
    case Proceed(verdict, now) => HandlerStep(s, verdict, now).(clock := now)
    // both sockets had been moved into the bridge that did not come to be
    case BridgeFails => Lose(s, s.thread.c, s.thread.streamer).(thread := Idle)
    case RelayUp(i, n, written, ok) =>
      var l := s.links[i];
      Relayed(s, l.two, l.one, n, written).(links := s.links[i := l.(toOne := l.toOne + written, upLive := ok)])
    case RelayDown(i, n, written, ok) =>
      var l := s.links[i];
      Relayed(s, l.one, l.two, n, written).(links := s.links[i := l.(toTwo := l.toTwo + written, downLive := ok)])
    case Sweep(_, gone, end) =>
      s.(registry := s.registry - IdSet(gone), log := s.log + ExpirationEvents(gone), clock := end)
    case ResetRegistry => s.(registry := map[], log := s.log + [Cleared])
  }

  function TakeHeader(s: State, c: ConnId, what: seq<byte>): State
    requires c in s.armed && c in s.conns && s.conns[c].taken + HEADER_SIZE <= |s.conns[c].sent|
  {
    var conn, arm := s.conns[c], s.armed[c];
    var s1 := With(s, c, conn.(taken := conn.taken + HEADER_SIZE));
    match Deserialize(conn.sent[conn.taken..conn.taken + HEADER_SIZE], Limit(arm.gate))
    case Ok(h) => s1.(armed := s.armed[c := arm.(header := Some(h))])
    case Err(_) => s1.(armed := s.armed - {c}, thread := Unwinding(c, what))
  }

  function TakeBody(s: State, c: ConnId): State
    requires c in s.armed && c in s.conns && s.armed[c].header.Some?
    requires s.conns[c].taken + s.armed[c].header.value.length <= |s.conns[c].sent|
  {
    var conn, arm := s.conns[c], s.armed[c];
    var n := arm.header.value.length;
    var m := Message(arm.header.value.kind, conn.sent[conn.taken..conn.taken + n]);
    With(s, c, conn.(taken := conn.taken + n, requests := conn.requests + [m]))
    .(armed := s.armed - {c}, thread := if arm.gate == BeforeLogin then FirstMessage(c, m) else NextMessage(c, m))
  }

  /** One step of the running handler, up to the next point where it gives other threads a chance. */
  function HandlerStep(s: State, verdict: Verdict, now: int): State
    requires !s.thread.Idle? && s.thread.c in s.conns
    requires s.thread.SendStart? ==> s.thread.streamer in s.conns
  {
    var c := s.thread.c;
    var conn := s.conns[c];
    match s.thread
    case FirstMessage(_, m) => HandleFirst(s, c, m, verdict)
    case NextMessage(_, m) => HandleNext(s, c, m, now)
    case SendId(_) =>
      if conn.broken then s.(thread := Unwinding(c, []))
      else With(s, c, Said(conn, GRANTED)).(thread := Idle)
    case SendNotFound(_) =>
      if conn.broken then s.(thread := Unwinding(c, [])) else Rearm(With(s, c, Said(conn, REFUSE)), c)
    case SendFound(_, d) =>
      if conn.broken then Lose(s, c, d).(thread := Unwinding(c, []))
      else With(s, c, Said(conn, ACCEPT)).(thread := SendStart(c, d))
    case SendStart(_, d) =>
      if s.conns[d].broken then Lose(s, c, d).(thread := Unwinding(c, []))
      else With(s, d, Said(s.conns[d], START)).(thread := OpenBridge(c, d))
    case OpenBridge(_, d) => s.(links := s.links + [Link(d, c, 0, 0, true, true)], thread := Idle)
    case Unwinding(_, what) =>
      if conn.broken then s.(thread := Idle)
      else With(s, c, Said(conn, Message(DISCONNECT, what))).(thread := Idle)
  }

  function Lose(s: State, viewer: ConnId, streamer: ConnId): State {
    s.(lost := s.lost + [LostClaim(viewer, streamer)])
  }

  // scheduleNewAsyncRead at the end of a handler
  function Rearm(s: State, c: ConnId): State {
    s.(thread := Idle, armed := s.armed[c := Arm(AfterLogin, None)])
  }

  /** `authenticateCallback`. */
  function HandleFirst(s: State, c: ConnId, m: Message, verdict: Verdict): State
    requires c in s.conns
  {
    var conn := if m.kind == LOGIN then s.conns[c].(verdict := Some(verdict)) else s.conns[c];
    match OnFirstMessage(m, verdict)
    case Raise(what) => With(s, c, conn).(thread := Unwinding(c, what))
    case Answer(reply, rearm) =>
      if conn.broken then With(s, c, conn).(thread := Unwinding(c, []))
      else if rearm then Rearm(With(s, c, Said(conn, reply)), c)
      else With(s, c, Said(conn, reply)).(thread := Idle)
  }

  /** `ProxySession::handleRead`, up to the release of the registry's lock. */
  function HandleNext(s: State, c: ConnId, m: Message, now: int): State
    requires c in s.conns
  {
    if m.kind == REGISTER_STREAMER then
      s.(registry := s.registry[SESSION_ID := Entry(c, now)], log := s.log + [Registered(SESSION_ID, c, now)],
         thread := SendId(c))
    else if m.kind == FIND_STREAMER then
      if m.content in s.registry then
        s.(registry := s.registry - {m.content}, log := s.log + [Claimed(m.content)],
           thread := SendFound(c, s.registry[m.content].session))
      else s.(thread := SendNotFound(c))
    else if s.conns[c].broken then s.(thread := Unwinding(c, []))
    else Rearm(With(s, c, Said(s.conns[c], NotExpected(m.kind))), c)
  }
}
