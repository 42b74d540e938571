/** What every reachable state of the proxy keeps. */
module RendezvousInvariant {
  import opened Messages
  import opened Framing
  import opened Registry
  import opened Protocol
  import opened Rendezvous

  // ---------------------------------------------------------------- one connection's dialogue

  /** The reply a request gets while the session reads on. */
  predicate Answers(q: Message, r: Message) {
    q.kind != REGISTER_STREAMER && r == if q.kind == FIND_STREAMER then REFUSE else NotExpected(q.kind)
  }

  /** A logged-in conversation: every request has had its answer, in order. */
  ghost predicate Talk(qs: seq<Message>, rs: seq<Message>, verdict: Option<Verdict>) {
    && |qs| == |rs| >= 1
    && qs[0].kind == LOGIN && verdict == Some(Accepted) && rs[0] == ACCEPT
    && forall i :: 1 <= i < |qs| ==> Answers(qs[i], rs[i])
  }

  ghost predicate Chatting(conn: Conn) {
    Talk(conn.requests, conn.replies, conn.verdict)
  }

  /** A conversation, then a last request of type `kind` and the messages `tail` in reply to it. */
  ghost predicate Ended(conn: Conn, kind: MessageType, tail: seq<Message>) {
    && conn.requests != [] && Last(conn.requests).kind == kind
    && |tail| <= |conn.replies| && conn.replies[|conn.replies| - |tail|..] == tail
    && Talk(Front(conn.requests), conn.replies[..|conn.replies| - |tail|], conn.verdict)
  }

  /** The bytes read so far are the requests, then `partial`. */
  ghost predicate ReadTo(conn: Conn, partial: seq<byte>) {
    conn.taken <= |conn.sent| && conn.sent[..conn.taken] == EncodeAll(conn.requests) + partial
  }

  /** Nothing but the session's replies has been written. */
  ghost predicate Whole(conn: Conn) {
    conn.out == EncodeAll(conn.replies)
  }

  /** The same, except for the beginning of a frame where the connection broke. */
  ghost predicate Plain(conn: Conn) {
    || Whole(conn)
    || (conn.broken && exists m: Message, k: nat :: Torn(conn, m, k))
  }

  ghost predicate Torn(conn: Conn, m: Message, k: nat) {
    Fits(m, BUFFER_SIZE) && k < |EncodeFrame(m)| && conn.out == EncodeAll(conn.replies) + EncodeFrame(m)[..k]
  }

  function Kinds(ms: seq<Message>): seq<MessageType> {
    seq(|ms|, i requires 0 <= i < |ms| => ms[i].kind)
  }

  ghost predicate LoggedIn(ks: seq<MessageType>) {
    ks != [] && ks[0] == ACK && forall i :: 1 <= i < |ks| ==> ks[i] == RESPONSE || ks[i] == NACK
  }

  /** How a conversation may end. A viewer that has been told ACK can still be told DISCONNECT, but
      only if its claim was lost (see `Lossy`). */
  predicate Ending(ks: seq<MessageType>, lossy: bool) {
    || ks == [] || ks == [ID] || ks == [ID, START_STREAM] || ks == [ACK] || ks == [DISCONNECT]
    || (lossy && ks == [ACK, DISCONNECT])
  }

  /** What a connection sees that has not logged in. */
  predicate Turned(ks: seq<MessageType>) {
    ks == [] || ks == [NACK] || ks == [DISCONNECT]
  }

  /** What a connection sees that has logged in: ACK, answers, and one of the endings. */
  ghost predicate Welcomed(ks: seq<MessageType>, lossy: bool) {
    exists n :: 0 <= n <= |ks| && LoggedIn(ks[..n]) && Ending(ks[n..], lossy)
  }

  /** The reply grammar of a connection. */
  ghost predicate Grammar(ks: seq<MessageType>, lossy: bool) {
    Turned(ks) || Welcomed(ks, lossy)
  }

  lemma GrammarOf(rs: seq<Message>, n: nat, lossy: bool)
    requires n <= |rs| && LoggedIn(Kinds(rs[..n])) && Ending(Kinds(rs[n..]), lossy)
    ensures Grammar(Kinds(rs), lossy)
  {
    assert Kinds(rs)[..n] == Kinds(rs[..n]) && Kinds(rs)[n..] == Kinds(rs[n..]);
  }

  lemma TalkIsLoggedIn(qs: seq<Message>, rs: seq<Message>, verdict: Option<Verdict>)
    requires Talk(qs, rs, verdict)
    ensures LoggedIn(Kinds(rs))
  {
    forall i | 1 <= i < |rs| ensures Kinds(rs)[i] == RESPONSE || Kinds(rs)[i] == NACK {
      assert Answers(qs[i], rs[i]);
    }
  }

  lemma EndedGrammar(conn: Conn, kind: MessageType, tail: seq<Message>, lossy: bool)
    requires Ended(conn, kind, tail) && Ending(Kinds(tail), lossy)
    ensures Grammar(Kinds(conn.replies), lossy)
  {
    var n := |conn.replies| - |tail|;
    TalkIsLoggedIn(Front(conn.requests), conn.replies[..n], conn.verdict);
    GrammarOf(conn.replies, n, lossy);
  }

  lemma EndedSays(conn: Conn, kind: MessageType, tail: seq<Message>, m: Message)
    requires Ended(conn, kind, tail)
    ensures Ended(Said(conn, m), kind, tail + [m])
  {
    var rs, said := conn.replies, conn.replies + [m];
    assert said[|said| - |tail + [m]|..] == rs[|rs| - |tail|..] + [m];
    assert said[..|said| - |tail + [m]|] == rs[..|rs| - |tail|];
  }

  lemma AnsweredIsChatting(conn: Conn, kind: MessageType, m: Message)
    requires Ended(conn, kind, []) && Answers(Last(conn.requests), m)
    ensures Chatting(Said(conn, m))
  {
    assert conn.replies[..|conn.replies| - 0] == conn.replies;
    assert conn.requests == Front(conn.requests) + [Last(conn.requests)];
  }

  lemma SaidIsWhole(conn: Conn, m: Message)
    requires Whole(conn)
    ensures Whole(Said(conn, m))
  {
    EncodeAppend(conn.replies, m);
  }

  // ---------------------------------------------------------------- who holds what

  function Main(t: Thread): set<ConnId> {
    if t.Idle? then {} else {t.c}
  }

  // the session in the node taken out of the registry
  function Node(t: Thread): set<ConnId> {
    if t.SendFound? || t.SendStart? || t.OpenBridge? then {t.streamer} else {}
  }

  function Waiting(registry: map<Id, Entry<ConnId>>): set<ConnId> {
    set id | id in registry :: registry[id].session
  }

  function Peers(links: seq<Link>): set<ConnId> {
    if links == [] then {} else Peers(Front(links)) + {Last(links).one, Last(links).two}
  }

  /** No connection is held twice, except by the handler that has just registered it. */
  ghost predicate Exclusive(s: State) {
    && s.armed.Keys + Main(s.thread) + Node(s.thread) + Waiting(s.registry) + Peers(s.links) <= s.conns.Keys
    && s.armed.Keys !! Main(s.thread) + Node(s.thread) + Waiting(s.registry) + Peers(s.links)
    && Peers(s.links) !! Main(s.thread) + Node(s.thread) + Waiting(s.registry)
    && Node(s.thread) !! Main(s.thread) + Waiting(s.registry)
    && (s.thread.SendId? || s.thread.Unwinding? || Main(s.thread) !! Waiting(s.registry))
    && s.registry.Keys <= {SESSION_ID}
    && OnceEach(s.links)
  }

  /** Every connection is an end of at most one bridge, and of that at one end. */
  ghost predicate OnceEach(links: seq<Link>) {
    && (forall i, j :: 0 <= i < |links| && 0 <= j < |links| ==> links[i].one != links[j].two)
    && (forall i, j :: 0 <= i < j < |links| ==> links[i].one != links[j].one && links[i].two != links[j].two)
  }

  ghost predicate ArmedConn(conn: Conn, arm: Arm) {
    && ReadTo(conn, if arm.header.Some? then HeaderBytes(arm.header.value) else [])
    && (arm.header.Some? ==> arm.header.value.length <= Limit(arm.gate))
    && (if arm.gate.BeforeLogin? then conn.requests == [] && conn.replies == [] && conn.verdict == None
        else Chatting(conn))
  }

  ghost predicate ArmedOk(s: State) {
    forall c :: c in s.armed && c in s.conns ==> ArmedConn(s.conns[c], s.armed[c])
  }

  /** A session in the registry, or just taken out of it: registered and told so, unless its
      connection broke. */
  ghost predicate Registrant(conn: Conn, telling: bool) {
    && ReadTo(conn, [])
    && (Ended(conn, REGISTER_STREAMER, [GRANTED]) || (Ended(conn, REGISTER_STREAMER, []) && (conn.broken || telling)))
  }

  ghost predicate WaitingOk(s: State) {
    forall id :: id in s.registry && s.registry[id].session in s.conns ==>
      Registrant(s.conns[s.registry[id].session], s.thread == SendId(s.registry[id].session))
  }

  /** The connection found a streamer whose own connection had broken. */
  ghost predicate Lossy(s: State, c: ConnId) {
    exists p :: p in s.lost && p.viewer == c && p.streamer in s.conns && s.conns[p.streamer].broken
  }

  /** Every lost claim is due to one of its two connections. */
  ghost predicate LostToBreaks(s: State) {
    forall p :: p in s.lost ==>
      && p.viewer in s.conns && p.streamer in s.conns
      && (s.conns[p.viewer].broken || s.conns[p.streamer].broken)
  }

  ghost predicate ThreadOk(s: State) {
    Main(s.thread) + Node(s.thread) <= s.conns.Keys &&
    match s.thread
    case Idle => true
    case FirstMessage(c, m) =>
      var conn := s.conns[c];
      ReadTo(conn, []) && conn.requests == [m] && conn.replies == [] && conn.verdict == None
    case NextMessage(c, m) => ReadTo(s.conns[c], []) && Ended(s.conns[c], m.kind, []) && Last(s.conns[c].requests) == m
    case SendId(c) => ReadTo(s.conns[c], []) && Ended(s.conns[c], REGISTER_STREAMER, [])
    case SendNotFound(c) => ReadTo(s.conns[c], []) && Ended(s.conns[c], FIND_STREAMER, [])
    case SendFound(c, d) =>
      ReadTo(s.conns[c], []) && Ended(s.conns[c], FIND_STREAMER, []) && Registrant(s.conns[d], false)
    case SendStart(c, d) =>
      && ReadTo(s.conns[c], []) && Ended(s.conns[c], FIND_STREAMER, [ACCEPT]) && Whole(s.conns[c])
      && Registrant(s.conns[d], false)
    case OpenBridge(c, d) =>
      && ReadTo(s.conns[c], []) && Ended(s.conns[c], FIND_STREAMER, [ACCEPT]) && Whole(s.conns[c])
      && ReadTo(s.conns[d], []) && Ended(s.conns[d], REGISTER_STREAMER, [GRANTED, START]) && Whole(s.conns[d])
    case Unwinding(c, what) =>
      && Fits(Message(DISCONNECT, what), BUFFER_SIZE)
      && (s.conns[c].broken
          || (c !in Waiting(s.registry) && Grammar(Kinds(s.conns[c].replies) + [DISCONNECT], Lossy(s, c))))
  }

  // ---------------------------------------------------------------- bridges

  /** What a peer sent after the last request its session consumed. */
  ghost function Past(conn: Conn): seq<byte>
    requires EncodeAll(conn.requests) <= conn.sent
  {
    conn.sent[|EncodeAll(conn.requests)|..]
  }

  /** One direction of a bridge: the reader stands `k` or, once the direction has stopped, more bytes
      past the hand-off, and the writer's output is its session's replies and then exactly the
      first `k` bytes that the other peer sent after the hand-off. */
  ghost predicate Piped(from: Conn, to: Conn, k: nat, live: bool) {
    && EncodeAll(from.requests) <= from.sent
    && |EncodeAll(from.requests)| + k <= from.taken <= |from.sent|
    && (live ==> from.taken == |EncodeAll(from.requests)| + k)
    && to.out == EncodeAll(to.replies) + Past(from)[..k]
  }

  ghost predicate LinkOk(one: Conn, two: Conn, l: Link) {
    && Ended(one, REGISTER_STREAMER, [GRANTED, START]) && Ended(two, FIND_STREAMER, [ACCEPT])
    && Piped(one, two, l.toTwo, l.downLive) && Piped(two, one, l.toOne, l.upLive)
  }

  lemma PeersAre(links: seq<Link>)
    ensures forall i :: 0 <= i < |links| ==> links[i].one in Peers(links) && links[i].two in Peers(links)
    ensures forall c :: c in Peers(links) ==> exists i :: 0 <= i < |links| && (links[i].one == c || links[i].two == c)
  {
    if links != [] {
      PeersAre(Front(links));
      forall i | 0 <= i < |links| ensures links[i].one in Peers(links) && links[i].two in Peers(links) {
        if i < |links| - 1 { assert links[i] == Front(links)[i]; }
      }
      forall c | c in Peers(links) ensures exists i :: 0 <= i < |links| && (links[i].one == c || links[i].two == c) {
        if c in Peers(Front(links)) {
          var i :| 0 <= i < |Front(links)| && (Front(links)[i].one == c || Front(links)[i].two == c);
          assert links[i] == Front(links)[i];
        } else {
          assert links[|links| - 1] == Last(links);
        }
      }
    }
  }

  ghost predicate LinksOk(s: State) {
    forall i :: 0 <= i < |s.links| && s.links[i].one in s.conns && s.links[i].two in s.conns ==>
      LinkOk(s.conns[s.links[i].one], s.conns[s.links[i].two], s.links[i])
  }

  // ---------------------------------------------------------------- replies and registrations

  /** No message beyond the buffer, and no first message beyond the tighter limit, gets to a handler. */
  ghost predicate Bounded(requests: seq<Message>) {
    AllFit(requests) && (requests != [] ==> Fits(requests[0], FIRST_MESSAGE_MAX_SIZE))
  }

  /** An accepted login is answered with ACK, before anything else, unless the connection broke. */
  ghost predicate Greeted(conn: Conn) {
    conn.verdict == Some(Accepted) ==> if conn.replies == [] then conn.broken else conn.replies[0] == ACCEPT
  }

  ghost predicate SpokenConn(conn: Conn, bridged: bool, lossy: bool) {
    && Grammar(Kinds(conn.replies), lossy) && AllFit(conn.replies) && Bounded(conn.requests)
    && (conn.verdict == Some(Accepted) || Turned(Kinds(conn.replies))) && Greeted(conn)
    && (bridged || Plain(conn))
  }

  ghost predicate Spoken(s: State) {
    forall c :: c in s.conns ==> SpokenConn(s.conns[c], c in Peers(s.links), Lossy(s, c))
  }

  /** The registry is what its history says, only "test" is ever registered, and every claim led to
      a bridge, was lost to a broken connection, or is being carried out. */
  ghost predicate Accounted(s: State) {
    && Matches(s.registry, s.log)
    && (forall e :: e in s.log && e.Registered? ==> e.id == SESSION_ID)
    && Tally(s.log, Extracted) == |s.links| + |s.lost| + |Node(s.thread)|
    && LostToBreaks(s)
  }

  ghost predicate Inv(s: State) {
    Exclusive(s) && ArmedOk(s) && WaitingOk(s) && ThreadOk(s) && LinksOk(s) && Spoken(s) && Accounted(s)
  }
}
