/** The proxy's guarantees, in every state of every run: any connections, any bytes from any peer,
    any order of arrivals, handler steps, sweeps and relays, any failures. */
module RendezvousTheorems {
  import opened Messages
  import opened Framing
  import opened Registry
  import opened Protocol
  import opened Rendezvous
  import opened RendezvousInvariant
  import opened RendezvousSteps

  ghost predicate CanRun(s: State, actions: seq<Action>)
    decreases |actions|
  {
    actions != [] ==> Enabled(s, actions[0]) && CanRun(Step(s, actions[0]), actions[1..])
  }

  ghost function Run(s: State, actions: seq<Action>): State
    requires CanRun(s, actions)
    decreases |actions|
  {
    if actions == [] then s else Run(Step(s, actions[0]), actions[1..])
  }

  ghost predicate Reachable(s: State) {
    exists actions :: CanRun(INITIAL, actions) && Run(INITIAL, actions) == s
  }

  lemma {:induction false} RunKeeps(s: State, actions: seq<Action>)
    requires Inv(s) && CanRun(s, actions)
    ensures Inv(Run(s, actions))
    decreases |actions|
  {
    hide Inv, Step, Enabled;
    if actions != [] {
      StepKeeps(s, actions[0]);
      RunKeeps(Step(s, actions[0]), actions[1..]);
    }
  }

  lemma InitialInv()
    ensures Inv(INITIAL)
  {
  }

  lemma ReachableInv(s: State)
    requires Reachable(s)
    ensures Inv(s)
  {
    hide Inv, Step, Enabled;
    var actions :| CanRun(INITIAL, actions) && Run(INITIAL, actions) == s;
    InitialInv();
    RunKeeps(INITIAL, actions);
  }

  // ---------------------------------------------------------------- bridges

  ghost predicate LoggedInPeer(conn: Conn) {
    && conn.verdict == Some(Accepted) && conn.requests != [] && conn.requests[0].kind == LOGIN
    && conn.replies != [] && conn.replies[0] == ACCEPT
  }

  /** Every bridge ever created joins two different connections that both logged in; the first
      registered as a streamer with its last request, the second asked for a streamer with its last. */
  lemma BridgesJoinUsers(s: State, i: nat)
    requires Reachable(s) && i < |s.links|
    ensures var l := s.links[i];
            && l.one != l.two && l.one in s.conns && l.two in s.conns
            && LoggedInPeer(s.conns[l.one]) && LoggedInPeer(s.conns[l.two])
            && Last(s.conns[l.one].requests).kind == REGISTER_STREAMER
            && Last(s.conns[l.two].requests).kind == FIND_STREAMER
  {
    hide Reachable;
    ReachableInv(s);
    LinkAt(s, i);
    var l := s.links[i];
    EndedLoggedIn(s.conns[l.one], REGISTER_STREAMER, [GRANTED, START]);
    EndedLoggedIn(s.conns[l.two], FIND_STREAMER, [ACCEPT]);
  }

  lemma EndedLoggedIn(conn: Conn, kind: MessageType, tail: seq<Message>)
    requires Ended(conn, kind, tail)
    ensures LoggedInPeer(conn) && Last(conn.requests).kind == kind
  {
    assert conn.requests[0] == Front(conn.requests)[0];
  }

  // ---------------------------------------------------------------- what a client sees

  /** The reply grammar. Whatever a connection did and whatever became of it: what its client reads
      until it is bridged is exactly the session's replies (and, if the connection broke, perhaps the
      beginning of one more frame). An accepted login sees ACK first, unless the connection broke
      before, then any number of RESPONSE and NACK, then one of the endings. Anybody else sees
      nothing, one NACK or one DISCONNECT. */
  lemma ReplyGrammar(s: State, c: ConnId)
    requires Reachable(s) && c in s.conns
    ensures var conn := s.conns[c]; var ks := Kinds(conn.replies);
            if conn.verdict != Some(Accepted) then Turned(ks)
            else if ks == [] then conn.broken
            else Welcomed(ks, Lossy(s, c))
    ensures !Bridged(s, c) ==>
              var seen := ReadAll(s.conns[c].out);
              seen.messages == s.conns[c].replies && (seen.rest != [] ==> s.conns[c].broken)
  {
    hide Reachable, Inv, Kinds, Welcomed, Lossy, ReadAll, Turned;
    ReachableInv(s);
    InvParts(s);
    var conn := s.conns[c];
    assert SpokenConn(conn, c in Peers(s.links), Lossy(s, c));
    if conn.verdict == Some(Accepted) { Greeting(conn, Lossy(s, c)); }
    if !Bridged(s, c) {
      NotBridged(s, c);
      ReadReplies(conn);
    }
  }

  lemma Greeting(conn: Conn, lossy: bool)
    requires Grammar(Kinds(conn.replies), lossy) && Greeted(conn) && conn.verdict == Some(Accepted)
    ensures if Kinds(conn.replies) == [] then conn.broken else Welcomed(Kinds(conn.replies), lossy)
  {
    hide Welcomed;
    if conn.replies != [] { assert Kinds(conn.replies)[0] == ACK; }
  }

  lemma LoggedInAt(ks: seq<MessageType>, n: nat, k: nat)
    requires n <= |ks| && LoggedIn(ks[..n]) && 1 <= k < n
    ensures ks[k] == RESPONSE || ks[k] == NACK
  {
    assert ks[k] == ks[..n][k];
  }

  /** A viewer that was told ACK for its find and then DISCONNECT had found a streamer that was gone:
      the claim is on record as lost, with the viewer's own streamer broken. Nothing that happens to
      other connections brings this ending about. */
  lemma AckThenDisconnectMeansLost(s: State, c: ConnId)
    requires Reachable(s) && c in s.conns && |s.conns[c].replies| >= 3
    requires var ks := Kinds(s.conns[c].replies); ks[|ks| - 2] == ACK && ks[|ks| - 1] == DISCONNECT
    ensures exists p :: p in s.lost && p.viewer == c && p.streamer in s.conns && s.conns[p.streamer].broken
  {
    hide Reachable, LoggedIn;
    ReplyGrammar(s, c);
    var ks := Kinds(s.conns[c].replies);
    var n :| 0 <= n <= |ks| && LoggedIn(ks[..n]) && Ending(ks[n..], Lossy(s, c));
    if |ks| - 2 < n { LoggedInAt(ks, n, |ks| - 2); }
    assert ks[n..][|ks| - 2 - n] == ACK && ks[n..][|ks| - 1 - n] == DISCONNECT;
    assert Lossy(s, c);
  }

  ghost predicate Bridged(s: State, c: ConnId) {
    exists i :: 0 <= i < |s.links| && (s.links[i].one == c || s.links[i].two == c)
  }

  lemma NotBridged(s: State, c: ConnId)
    requires !Bridged(s, c)
    ensures c !in Peers(s.links)
  {
    PeersAre(s.links);
  }

  lemma ReadReplies(conn: Conn)
    requires Plain(conn) && AllFit(conn.replies)
    ensures ReadAll(conn.out).messages == conn.replies && (ReadAll(conn.out).rest != [] ==> conn.broken)
  {
    hide AllFit, EncodeAll;
    if Whole(conn) {
      ReadsBack(conn.replies);
    } else {
      var m: Message, k: nat :| Torn(conn, m, k);
      var cut := EncodeFrame(m)[..k];
      ReadPartialFrame(m, cut, BUFFER_SIZE);
      ReadAllStop(cut);
      ReadEncoded(conn.replies, cut);
      assert conn.replies + [] == conn.replies;
    }
  }

  /** While a session reads on, the bytes it has consumed are exactly the requests it has handled
      (and a header it is waiting to complete), the first was a successful login, and the k-th reply
      answers the k-th request. */
  lemma AnsweredInOrder(s: State, c: ConnId, k: nat)
    requires Reachable(s) && c in s.armed && s.armed[c].gate.AfterLogin? && s.armed[c].header.None?
    ensures c in s.conns && LoggedInPeer(s.conns[c]) && |s.conns[c].requests| == |s.conns[c].replies|
    ensures var conn := s.conns[c];
            conn.taken <= |conn.sent| && conn.sent[..conn.taken] == EncodeAll(conn.requests)
    ensures 1 <= k < |s.conns[c].requests| ==> Answers(s.conns[c].requests[k], s.conns[c].replies[k])
  {
    hide Reachable, Inv, Exclusive, ArmedOk, EncodeAll;
    ReachableInv(s);
    InvParts(s);
    ArmedAlone(s, c);
    ArmedAt(s, c);
  }

  /** Whatever bytes arrive, no handler is ever given a first message over 1000 bytes or a later one
      over 5 MiB. */
  lemma RequestsBounded(s: State, c: ConnId, k: nat)
    requires Reachable(s) && c in s.conns && k < |s.conns[c].requests|
    ensures |s.conns[c].requests[k].content| <= if k == 0 then 1000 else 5 * 1024 * 1024
  {
    hide Reachable, Inv, Grammar, Kinds, Plain, Turned, Lossy, Peers;
    ReachableInv(s);
    InvParts(s);
    assert s.conns[c].requests[k] in s.conns[c].requests;
  }

  // ---------------------------------------------------------------- end to end

  /** What a client that sends the messages `ms` has put on the wire. */
  ghost predicate Sends(conn: Conn, ms: seq<Message>) {
    conn.sent <= EncodeAll(ChunkAll(ms))
  }

  /** From login to relayed stream, for one direction of a bridge. If the sending client has been
      sending the messages `ms`, then its requests are the first frames of these, and the other
      client reads: the replies of its own session, then a prefix of the sender's frames after the
      request that led to the bridge. No byte is lost, repeated or misplaced at the hand-off, and
      when everything sent has been relayed, exactly all of them have been read. */
  lemma PipedEndToEnd(from: Conn, to: Conn, k: nat, live: bool, ms: seq<Message>)
    requires Piped(from, to, k, live) && AllFit(to.replies) && AllFit(from.requests) && Sends(from, ms)
    ensures from.requests <= ChunkAll(ms)
    ensures to.replies <= ReadAll(to.out).messages <= to.replies + ChunkAll(ms)[|from.requests|..]
    ensures live && from.taken == |from.sent| && from.sent == EncodeAll(ChunkAll(ms)) ==>
              ReadAll(to.out) == Reading(to.replies + ChunkAll(ms)[|from.requests|..], [])
  {
    hide EncodeAll, AllFit;
    var frames := ChunkAll(ms);
    RequestsArePrefix(from, ms);
    var later := frames[|from.requests|..];
    assert frames == from.requests + later;
    EncodeAllConcat(from.requests, later);
    var p := Past(from)[..k];
    PrefixOfRest(from.sent, EncodeAll(from.requests), EncodeAll(later), k);
    ChunkAllFits(ms);
    FitsRest(frames, |from.requests|);
    ReadEncoded(to.replies, p);
    ReadRelayed(later, p);
    if live && from.taken == |from.sent| && from.sent == EncodeAll(frames) {
      assert p == EncodeAll(later);
    }
  }

  lemma FitsRest(frames: seq<Message>, n: nat)
    requires AllFit(frames) && n <= |frames|
    ensures AllFit(frames[n..])
  {
  }

  lemma ReadRelayed(frames: seq<Message>, p: seq<byte>)
    requires AllFit(frames) && p <= EncodeAll(frames)
    ensures ReadAll(p).messages <= frames
    ensures p == EncodeAll(frames) ==> ReadAll(p) == Reading(frames, [])
  {
    hide AllFit;
    ReadPrefix(p, EncodeAll(frames));
    ReadsBack(frames);
  }

  lemma PrefixOfRest(sent: seq<byte>, done: seq<byte>, rest: seq<byte>, k: nat)
    requires done <= sent <= done + rest && |done| + k <= |sent|
    ensures sent[|done|..][..k] <= rest
  {
  }

  lemma RequestsArePrefix(from: Conn, ms: seq<Message>)
    requires EncodeAll(from.requests) <= from.sent && AllFit(from.requests) && Sends(from, ms)
    ensures from.requests <= ChunkAll(ms)
  {
    hide AllFit, EncodeAll;
    var p := EncodeAll(from.requests);
    SendThenRead(ms, p);
    ReadsBack(from.requests);
  }

  lemma ReadsBack(ms: seq<Message>)
    requires AllFit(ms)
    ensures ReadAll(EncodeAll(ms)) == Reading(ms, [])
  {
    hide AllFit, EncodeAll;
    ReadEncoded(ms, []);
    assert EncodeAll(ms) + [] == EncodeAll(ms);
    ReadAllStop([]);
    assert ms + [] == ms;
  }

  /** The headline: in every reachable state and for every bridge, in both directions, whatever the
      two clients have been sending as messages, cut by the network and the relays in any way. */
  lemma EndToEnd(s: State, i: nat, streamed: seq<Message>, viewed: seq<Message>)
    requires Reachable(s) && i < |s.links|
    requires s.links[i].one in s.conns && s.links[i].two in s.conns
    requires Sends(s.conns[s.links[i].one], streamed) && Sends(s.conns[s.links[i].two], viewed)
    ensures var l := s.links[i]; var one, two := s.conns[l.one], s.conns[l.two];
            && one.requests <= ChunkAll(streamed) && two.requests <= ChunkAll(viewed)
            && two.replies <= ReadAll(two.out).messages <= two.replies + ChunkAll(streamed)[|one.requests|..]
            && one.replies <= ReadAll(one.out).messages <= one.replies + ChunkAll(viewed)[|two.requests|..]
            && (l.downLive && one.taken == |one.sent| && one.sent == EncodeAll(ChunkAll(streamed)) ==>
                  ReadAll(two.out) == Reading(two.replies + ChunkAll(streamed)[|one.requests|..], []))
            && (l.upLive && two.taken == |two.sent| && two.sent == EncodeAll(ChunkAll(viewed)) ==>
                  ReadAll(one.out) == Reading(one.replies + ChunkAll(viewed)[|two.requests|..], []))
  {
    hide Reachable, Inv, LinksOk, Exclusive, Piped, Ended, Sends, SpokenConn;
    ReachableInv(s);
    InvParts(s);
    LinkAt(s, i);
    var l := s.links[i];
    var one, two := s.conns[l.one], s.conns[l.two];
    Fitting(s, l.one);
    Fitting(s, l.two);
    PipedEndToEnd(one, two, l.toTwo, l.downLive, streamed);
    PipedEndToEnd(two, one, l.toOne, l.upLive, viewed);
  }

  lemma InvParts(s: State)
    requires Inv(s)
    ensures Exclusive(s) && ArmedOk(s) && LinksOk(s) && Spoken(s) && Accounted(s) && ThreadOk(s)
  {
    hide Exclusive, LinksOk, Spoken, ArmedOk, WaitingOk, ThreadOk, Accounted;
  }

  lemma Fitting(s: State, c: ConnId)
    requires Spoken(s) && c in s.conns
    ensures AllFit(s.conns[c].replies) && AllFit(s.conns[c].requests)
  {
    hide AllFit, Grammar, Kinds, Plain, Turned, Lossy, Peers;
  }

  /** Where the hand-off is: the viewer's replies end with the ACK to its FIND_STREAMER, the streamer's
      with the identifier and START_STREAM, and what follows is the other side's. */
  lemma HandOffPoint(s: State, i: nat)
    requires Reachable(s) && i < |s.links|
    ensures var l := s.links[i];
            l.one in s.conns && l.two in s.conns &&
            var one, two := s.conns[l.one], s.conns[l.two];
            && |one.replies| >= 2 && one.replies[|one.replies| - 2..]
                                       == [Message(ID, [116, 101, 115, 116]), Message(START_STREAM, [])]
            && |two.replies| >= 1 && two.replies[|two.replies| - 1..] == [Message(ACK, [])]
            && Piped(one, two, l.toTwo, l.downLive) && Piped(two, one, l.toOne, l.upLive)
  {
    hide Reachable, Inv, Exclusive, LinksOk, Piped, Talk;
    ReachableInv(s);
    InvParts(s);
    LinkAt(s, i);
  }

  /** Every moment a bridge is about to open: both clients' streams stand right after the request that
      led to it, and what each has been told is exactly its session's replies. */
  lemma HandOff(s: State)
    requires Reachable(s) && s.thread.OpenBridge?
    ensures s.thread.c in s.conns && s.thread.streamer in s.conns && s.thread.c != s.thread.streamer
    ensures var viewer, streamer := s.conns[s.thread.c], s.conns[s.thread.streamer];
            && viewer.taken <= |viewer.sent| && viewer.sent[..viewer.taken] == EncodeAll(viewer.requests)
            && streamer.taken <= |streamer.sent| && streamer.sent[..streamer.taken] == EncodeAll(streamer.requests)
            && viewer.requests != [] && Last(viewer.requests).kind == FIND_STREAMER
            && streamer.requests != [] && Last(streamer.requests).kind == REGISTER_STREAMER
            && ReadAll(viewer.out) == Reading(viewer.replies, [])
            && |viewer.replies| >= 1 && viewer.replies[|viewer.replies| - 1..] == [Message(ACK, [])]
            && ReadAll(streamer.out) == Reading(streamer.replies, [])
            && |streamer.replies| >= 2 && streamer.replies[|streamer.replies| - 2..]
                                           == [Message(ID, [116, 101, 115, 116]), Message(START_STREAM, [])]
  {
    hide Reachable, Inv, Exclusive, EncodeAll, AllFit, SpokenConn, Talk, Whole;
    ReachableInv(s);
    InvParts(s);
    HandlerAlone(s, s.thread.c);
    ThreadAt(s);
    var viewer, streamer := s.conns[s.thread.c], s.conns[s.thread.streamer];
    Fitting(s, s.thread.c);
    Fitting(s, s.thread.streamer);
    WholeReads(viewer);
    WholeReads(streamer);
  }

  lemma WholeReads(conn: Conn)
    requires Whole(conn) && AllFit(conn.replies)
    ensures ReadAll(conn.out) == Reading(conn.replies, [])
  {
    hide AllFit, EncodeAll;
    ReadsBack(conn.replies);
  }

  // ---------------------------------------------------------------- the registry

  /** In every reachable state the registry holds exactly the most recent registration that has not
      been claimed, expired or cleared since; at most one; a session in it has finished its
      conversation with a REGISTER_STREAMER; and registrations, claims, expirations, evictions and
      resets balance, the claims being the bridges, those lost because one of the two connections
      broke, and the one that the handler is carrying out. */
  lemma RegistryAccounts(s: State, id: Id, i: nat)
    requires Reachable(s)
    ensures s.registry.Keys == Replay(s.log).Keys
    ensures IsLatest(s.log, id, i) <==> id in s.registry && Replay(s.log)[id] == i
    ensures id in s.registry ==>
              id == SESSION_ID && s.log[Replay(s.log)[id]]
                  == Registered(id, s.registry[id].session, s.registry[id].timePoint)
    ensures |s.registry| <= 1
    ensures |Registrations(s.log)| == |s.registry| + |WithFate(s.log, Evicted)|
                                      + |s.links| + |s.lost| + |Node(s.thread)|
                                      + Tally(s.log, TimedOut) + |WithFate(s.log, Reset)|
    ensures forall p :: p in s.lost ==>
              && p.viewer in s.conns && p.streamer in s.conns
              && (s.conns[p.viewer].broken || s.conns[p.streamer].broken)
  {
    hide Reachable;
    ReachableInv(s);
    Accounting(s, id, i);
  }

  lemma Accounting(s: State, id: Id, i: nat)
    requires Accounted(s)
    ensures s.registry.Keys == Replay(s.log).Keys
    ensures IsLatest(s.log, id, i) <==> id in s.registry && Replay(s.log)[id] == i
    ensures id in s.registry ==>
              id == SESSION_ID && s.log[Replay(s.log)[id]]
                  == Registered(id, s.registry[id].session, s.registry[id].timePoint)
    ensures |s.registry| <= 1
    ensures |Registrations(s.log)| == |s.registry| + |WithFate(s.log, Evicted)|
                                      + |s.links| + |s.lost| + |Node(s.thread)|
                                      + Tally(s.log, TimedOut) + |WithFate(s.log, Reset)|
  {
    hide IsLatest, Lawful, Registrations, WithFate, Tally, Replay, Node;
    ReplayIsLatest(s.log, id);
    AtMostOneEntry(s.log, SESSION_ID);
    Conservation(s.log);
    assert |s.registry.Keys| == |Replay(s.log).Keys|;
  }

  /** A find claims the latest surviving registrant. That registration is extracted then, and whatever
      happens afterwards it stays so: it never expires, is never evicted, cleared or found again,
      although the work on it goes on without the lock. */
  lemma FindClaimsLatest(s: State, c: ConnId, m: Message, verdict: Verdict, now: int, later: seq<Action>)
    requires Reachable(s) && s.thread == NextMessage(c, m) && m.kind == FIND_STREAMER
             && Enabled(s, Proceed(verdict, now))
    ensures var s' := Step(s, Proceed(verdict, now));
            if m.content in s.registry then
              && m.content in Replay(s.log) && var i := Replay(s.log)[m.content];
              && IsLatest(s.log, m.content, i) && s.log[i].session == s'.thread.streamer
              && s'.thread == SendFound(c, s.registry[m.content].session)
              && WithFate(s'.log, Extracted) == WithFate(s.log, Extracted) + {i}
              && (CanRun(s', later) ==> i in WithFate(Run(s', later).log, Extracted))
            else
              (forall i :: !IsLatest(s.log, m.content, i)) && s'.thread == SendNotFound(c) && s'.log == s.log
  {
    hide Reachable, Inv, Step, Enabled, Accounted, Replay, IsLatest, Tally;
    ReachableInv(s);
    InvParts(s);
    Claiming(s, c, m, verdict, now);
    var s' := Step(s, Proceed(verdict, now));
    if m.content in s.registry && CanRun(s', later) {
      RunExtendsLog(s', later);
      FateKept(s'.log, Run(s', later).log, Replay(s.log)[m.content]);
    }
  }

  lemma StepExtendsLog(s: State, a: Action)
    requires Enabled(s, a)
    ensures s.log <= Step(s, a).log
  {
    hide ExpirationEvents, IdSet, SweepOutcome, Distinct, HandlerStep, TakeHeader, TakeBody, EncodeFrame;
    match a
    case HeaderArrives(c, what) => HeaderLog(s, c, what);
    case BodyArrives(c) => BodyLog(s, c);
    case Proceed(verdict, now) => HandlerLog(s, verdict, now);
    case _ =>
  }

  lemma HeaderLog(s: State, c: ConnId, what: seq<byte>)
    requires Enabled(s, HeaderArrives(c, what))
    ensures TakeHeader(s, c, what).log == s.log
  {
    hide Deserialize;
  }

  lemma BodyLog(s: State, c: ConnId)
    requires Enabled(s, BodyArrives(c))
    ensures TakeBody(s, c).log == s.log
  {
  }

  lemma HandlerLog(s: State, verdict: Verdict, now: int)
    requires Enabled(s, Proceed(verdict, now))
    ensures s.log <= HandlerStep(s, verdict, now).log
  {
    hide Said, OnFirstMessage, NotExpected;
  }

  lemma {:induction false} RunExtendsLog(s: State, actions: seq<Action>)
    requires CanRun(s, actions)
    ensures s.log <= Run(s, actions).log
    decreases |actions|
  {
    hide Step, Enabled;
    if actions != [] {
      StepExtendsLog(s, actions[0]);
      RunExtendsLog(Step(s, actions[0]), actions[1..]);
    }
  }

  lemma Claiming(s: State, c: ConnId, m: Message, verdict: Verdict, now: int)
    requires Accounted(s) && s.thread == NextMessage(c, m) && m.kind == FIND_STREAMER
             && Enabled(s, Proceed(verdict, now))
    ensures var s' := Step(s, Proceed(verdict, now));
            if m.content in s.registry then
              && m.content in Replay(s.log) && var i := Replay(s.log)[m.content];
              && IsLatest(s.log, m.content, i) && s.log[i].session == s'.thread.streamer
              && s'.thread == SendFound(c, s.registry[m.content].session)
              && WithFate(s'.log, Extracted) == WithFate(s.log, Extracted) + {i}
            else
              (forall i :: !IsLatest(s.log, m.content, i)) && s'.thread == SendNotFound(c) && s'.log == s.log
  {
    hide IsLatest, Lawful, Tally, Replay, Node;
    ReplayLatestFor(s.log, m.content);
    if m.content in s.registry {
      RemovalStep(s.log, Claimed(m.content));
    }
  }

  lemma ReplayLatestFor(log: seq<Event<ConnId>>, id: Id)
    ensures forall i: nat :: id in Replay(log) && Replay(log)[id] == i <==> IsLatest(log, id, i)
  {
    ReplayIsLatest(log, id);
  }
}
