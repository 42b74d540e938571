/** Every step keeps the invariant. */
module RendezvousSteps {
  import opened Messages
  import opened Framing
  import opened Registry
  import opened Protocol
  import opened Rendezvous
  import opened RendezvousInvariant

  // ---------------------------------------------------------------- the environment

  /** More input, or a break, and nothing else. */
  ghost predicate Grown(a: Conn, b: Conn) {
    a.sent <= b.sent && (a.broken ==> b.broken) && b == a.(sent := b.sent, broken := b.broken)
  }

  lemma GrownReadTo(a: Conn, b: Conn, partial: seq<byte>)
    requires Grown(a, b) && ReadTo(a, partial)
    ensures ReadTo(b, partial)
  {
    assert b.sent[..b.taken] == a.sent[..a.taken];
  }

  lemma GrownArmed(a: Conn, b: Conn, arm: Arm)
    requires Grown(a, b) && ArmedConn(a, arm)
    ensures ArmedConn(b, arm)
  {
    GrownReadTo(a, b, if arm.header.Some? then HeaderBytes(arm.header.value) else []);
  }

  lemma GrownRegistrant(a: Conn, b: Conn, telling: bool)
    requires Grown(a, b) && Registrant(a, telling)
    ensures Registrant(b, telling)
  {
    hide ReadTo, Ended;
    GrownReadTo(a, b, []);
    GrownEnded(a, b);
  }

  lemma GrownPiped(a: Conn, b: Conn, to: Conn, to': Conn, k: nat, live: bool)
    requires Grown(a, b) && Grown(to, to') && Piped(a, to, k, live)
    ensures Piped(b, to', k, live)
  {
    assert Past(b)[..k] == Past(a)[..k];
  }

  lemma GrownLink(one: Conn, one': Conn, two: Conn, two': Conn, l: Link)
    requires Grown(one, one') && Grown(two, two') && LinkOk(one, two, l)
    ensures LinkOk(one', two', l)
  {
    GrownPiped(one, one', two, two', l.toTwo, l.downLive);
    GrownPiped(two, two', one, one', l.toOne, l.upLive);
  }

  lemma GrammarMonotone(ks: seq<MessageType>, lossy: bool, lossy': bool)
    requires Grammar(ks, lossy) && (lossy ==> lossy')
    ensures Grammar(ks, lossy')
  {
    if exists n :: 0 <= n <= |ks| && LoggedIn(ks[..n]) && Ending(ks[n..], lossy) {
      var n :| 0 <= n <= |ks| && LoggedIn(ks[..n]) && Ending(ks[n..], lossy);
      assert LoggedIn(ks[..n]) && Ending(ks[n..], lossy');
    }
  }

  lemma GrownSpoken(a: Conn, b: Conn, bridged: bool, lossy: bool, lossy': bool)
    requires Grown(a, b) && SpokenConn(a, bridged, lossy) && (lossy ==> lossy')
    ensures SpokenConn(b, bridged, lossy')
  {
    hide Grammar, Kinds;
    GrammarMonotone(Kinds(a.replies), lossy, lossy');
    if !bridged { GrownPlain(a, b); }
  }

  lemma GrownPlain(a: Conn, b: Conn)
    requires Grown(a, b) && Plain(a)
    ensures Plain(b)
  {
    if !Whole(a) {
      var m: Message, k: nat :| Torn(a, m, k);
      assert Torn(b, m, k);
    }
  }

  ghost predicate OnlyGrown(s: State, s': State) {
    && s'.conns.Keys == s.conns.Keys && s' == s.(conns := s'.conns)
    && forall c :: c in s.conns ==> Grown(s.conns[c], s'.conns[c])
  }

  lemma GrownEnded(a: Conn, b: Conn)
    requires Grown(a, b)
    ensures forall kind, tail :: Ended(a, kind, tail) <==> Ended(b, kind, tail)
  {
  }

  lemma GrownThread(s: State, s': State)
    requires ThreadOk(s) && OnlyGrown(s, s') && (forall c :: Lossy(s, c) ==> Lossy(s', c))
    ensures ThreadOk(s')
  {
    hide Ended, Grammar, Kinds, Peers, Lossy;
    if !s.thread.Idle? {
      var c := s.thread.c;
      if !s.thread.Unwinding? {
        GrownReadTo(s.conns[c], s'.conns[c], []);
      } else if !s.conns[c].broken {
        GrammarMonotone(Kinds(s.conns[c].replies) + [DISCONNECT], Lossy(s, c), Lossy(s', c));
      }
      GrownEnded(s.conns[c], s'.conns[c]);
      if s.thread.SendFound? || s.thread.SendStart? || s.thread.OpenBridge? {
        assert s.thread.streamer in s.conns;
        GrownReadTo(s.conns[s.thread.streamer], s'.conns[s.thread.streamer], []);
        GrownEnded(s.conns[s.thread.streamer], s'.conns[s.thread.streamer]);
        if !s.thread.OpenBridge? {
          GrownRegistrant(s.conns[s.thread.streamer], s'.conns[s.thread.streamer], false);
        }
      }
    }
  }

  lemma GrownHolders(s: State, s': State)
    requires ArmedOk(s) && WaitingOk(s) && LinksOk(s) && OnlyGrown(s, s')
    ensures ArmedOk(s') && WaitingOk(s') && LinksOk(s')
  {
    hide ArmedConn, Registrant, LinkOk;
    forall c | c in s'.armed && c in s'.conns ensures ArmedConn(s'.conns[c], s'.armed[c]) {
      GrownArmed(s.conns[c], s'.conns[c], s.armed[c]);
    }
    forall id | id in s'.registry && s'.registry[id].session in s'.conns
      ensures Registrant(s'.conns[s'.registry[id].session], s'.thread == SendId(s'.registry[id].session))
    {
      var d := s.registry[id].session;
      GrownRegistrant(s.conns[d], s'.conns[d], s.thread == SendId(d));
    }
    forall i | 0 <= i < |s'.links| && s'.links[i].one in s'.conns && s'.links[i].two in s'.conns
      ensures LinkOk(s'.conns[s'.links[i].one], s'.conns[s'.links[i].two], s'.links[i])
    {
      var l := s.links[i];
      GrownLink(s.conns[l.one], s'.conns[l.one], s.conns[l.two], s'.conns[l.two], l);
    }
  }

  /** Connections come and break, and neither is undone. */
  ghost predicate BreaksKept(s: State, s': State) {
    s.conns.Keys <= s'.conns.Keys && forall c :: c in s.conns && s.conns[c].broken ==> s'.conns[c].broken
  }

  lemma StillLossy(s: State, s': State)
    requires BreaksKept(s, s') && s.lost <= s'.lost
    ensures forall c :: Lossy(s, c) ==> Lossy(s', c)
  {
    forall c | Lossy(s, c) ensures Lossy(s', c) {
      var p :| p in s.lost && p.viewer == c && p.streamer in s.conns && s.conns[p.streamer].broken;
      assert p in s'.lost;
    }
  }

  lemma StillLostToBreaks(s: State, s': State)
    requires BreaksKept(s, s') && LostToBreaks(s) && s'.lost == s.lost
    ensures LostToBreaks(s')
  {
  }

  lemma GrownSpeech(s: State, s': State)
    requires Spoken(s) && OnlyGrown(s, s')
    ensures Spoken(s') && (forall c :: Lossy(s, c) ==> Lossy(s', c))
  {
    hide SpokenConn, Peers, Lossy;
    StillLossy(s, s');
    forall c | c in s'.conns ensures SpokenConn(s'.conns[c], c in Peers(s'.links), Lossy(s', c)) {
      GrownSpoken(s.conns[c], s'.conns[c], c in Peers(s.links), Lossy(s, c), Lossy(s', c));
    }
  }

  lemma SameHolders(s: State, s': State)
    requires Exclusive(s) && s.conns.Keys <= s'.conns.Keys
    requires s'.armed == s.armed && s'.thread == s.thread && s'.registry == s.registry && s'.links == s.links
    ensures Exclusive(s')
  {
    hide Peers, Waiting, Main, Node, OnceEach;
  }

  lemma SameAccounts(s: State, s': State)
    requires Accounted(s) && s'.registry == s.registry && s'.log == s.log && |s'.links| == |s.links|
             && s'.lost == s.lost
    requires |Node(s'.thread)| == |Node(s.thread)| && BreaksKept(s, s')
    ensures Accounted(s')
  {
    hide Matches, Tally, Node, LostToBreaks;
    StillLostToBreaks(s, s');
  }

  lemma EnvironmentKeeps(s: State, s': State)
    requires Inv(s) && OnlyGrown(s, s')
    ensures Inv(s')
  {
    hide ArmedOk, WaitingOk, LinksOk, ThreadOk, Spoken, Accounted, Exclusive, Lossy;
    SameHolders(s, s');
    GrownSpeech(s, s');
    SameAccounts(s, s');
    GrownThread(s, s');
    GrownHolders(s, s');
  }

  // ---------------------------------------------------------------- steps on one connection

  /** A step that concerns the connection `c`: everything else is as it was, or gone. */
  ghost predicate Concerns(s: State, s': State, c: ConnId) {
    && s'.conns.Keys == s.conns.Keys + {c}
    && (forall d :: d in s.conns && d != c ==> s'.conns[d] == s.conns[d])
    && (c in s.conns && s.conns[c].broken ==> s'.conns[c].broken)
    && s.lost <= s'.lost
    && (forall a :: a in s'.armed && a != c ==> a in s.armed && s'.armed[a] == s.armed[a])
    && (forall id :: id in s'.registry && s'.registry[id].session != c ==>
         id in s.registry && s'.registry[id] == s.registry[id])
    && (forall d :: d != c && s.thread == SendId(d) ==> s'.thread == SendId(d))
    && s'.links == s.links && c !in Peers(s.links)
  }

  lemma LocalHolders(s: State, s': State, c: ConnId)
    requires ArmedOk(s) && WaitingOk(s) && LinksOk(s) && Spoken(s) && Concerns(s, s', c)
    requires s.armed.Keys + Waiting(s.registry) <= s.conns.Keys
    requires c in s'.armed ==> ArmedConn(s'.conns[c], s'.armed[c])
    requires c in Waiting(s'.registry) ==> Registrant(s'.conns[c], s'.thread == SendId(c))
    requires SpokenConn(s'.conns[c], false, Lossy(s', c))
    ensures ArmedOk(s') && WaitingOk(s') && LinksOk(s') && Spoken(s')
  {
    hide ArmedConn, Registrant, LinkOk, SpokenConn, Peers, Lossy;
    StillLossy(s, s');
    PeersAre(s.links);
    forall d | d in s'.conns ensures SpokenConn(s'.conns[d], d in Peers(s'.links), Lossy(s', d)) {
      if d != c { GrownSpoken(s.conns[d], s.conns[d], d in Peers(s.links), Lossy(s, d), Lossy(s', d)); }
    }
    forall id | id in s'.registry && s'.registry[id].session in s'.conns
      ensures Registrant(s'.conns[s'.registry[id].session], s'.thread == SendId(s'.registry[id].session))
    {
      var d := s'.registry[id].session;
      assert d in Waiting(s'.registry);
      if d != c {
        assert d in Waiting(s.registry);
        RegistrantTold(s.conns[d], s.thread == SendId(d), s'.thread == SendId(d));
      }
    }
  }

  lemma RegistrantTold(d: Conn, telling: bool, telling': bool)
    requires Registrant(d, telling) && (telling ==> telling')
    ensures Registrant(d, telling')
  {
  }

  /** What remains to be shown of such a step is what it does to `c`, the handler and the registry. */
  lemma Local(s: State, s': State, c: ConnId)
    requires Inv(s) && Exclusive(s') && Concerns(s, s', c)
    requires c in s'.armed ==> ArmedConn(s'.conns[c], s'.armed[c])
    requires c in Waiting(s'.registry) ==> Registrant(s'.conns[c], s'.thread == SendId(c))
    requires ThreadOk(s') && SpokenConn(s'.conns[c], false, Lossy(s', c)) && Accounted(s')
    ensures Inv(s')
  {
    hide ArmedOk, WaitingOk, LinksOk, ThreadOk, Spoken, Accounted, ArmedConn, Registrant, SpokenConn, Peers,
         Concerns, Lossy;
    LocalHolders(s, s', c);
  }

  lemma ConnectKeeps(s: State, c: ConnId)
    requires Inv(s) && Enabled(s, Connect(c))
    ensures Inv(Step(s, Connect(c)))
  {
    hide ArmedOk, WaitingOk, LinksOk, Spoken, Accounted, Exclusive, ThreadOk, Lossy;
    hide Registrant, SpokenConn, ArmedConn, Peers;
    hide HandlerStep, HandleFirst, HandleNext, Relayed, ExpirationEvents, IdSet, SweepOutcome, Distinct, Deserialize,
         EncodeAll, Ended, ReadTo, Waiting;
    var s' := Step(s, Connect(c));
    ConnectExclusive(s, c);
    NewConn(Lossy(s', c));
    StillLossy(s, s');
    SameAccounts(s, s');
    UnconcernedThread(s, s', c);
    Local(s, s', c);
  }

  lemma NewConn(lossy: bool)
    ensures ArmedConn(Conn([], 0, [], false, [], [], None), Arm(BeforeLogin, None))
    ensures SpokenConn(Conn([], 0, [], false, [], [], None), false, lossy)
  {
    assert Kinds([]) == [];
  }

  lemma ConnectExclusive(s: State, c: ConnId)
    requires Exclusive(s) && Enabled(s, Connect(c))
    ensures Exclusive(Step(s, Connect(c)))
    ensures c !in Waiting(s.registry) && c !in Peers(s.links) && c !in Main(s.thread) + Node(s.thread)
  {
    hide Peers;
  }

  /** The running handler is not affected by what happens to a connection it does not hold. */
  lemma UnconcernedThread(s: State, s': State, c: ConnId)
    requires ThreadOk(s) && s'.thread == s.thread
    requires Waiting(s'.registry) <= Waiting(s.registry) && BreaksKept(s, s') && s.lost <= s'.lost
    requires forall d :: d in Main(s.thread) + Node(s.thread) ==> s'.conns[d] == s.conns[d]
    ensures ThreadOk(s')
  {
    hide Ended, Grammar, Kinds, ReadTo, Registrant, Lossy, Whole;
    StillLossy(s, s');
    if s.thread.Unwinding? && !s.conns[s.thread.c].broken {
      assert s.thread.c in Main(s.thread);
      GrammarMonotone(Kinds(s.conns[s.thread.c].replies) + [DISCONNECT], Lossy(s, s.thread.c), Lossy(s', s.thread.c));
    }
  }

  // ---------------------------------------------------------------- reading

  lemma SpokenAt(s: State, c: ConnId)
    requires Spoken(s) && c in s.conns && c !in Peers(s.links)
    ensures SpokenConn(s.conns[c], false, Lossy(s, c))
  {
    hide SpokenConn, Lossy;
  }

  lemma ReadFailsKeeps(s: State, c: ConnId)
    requires Inv(s) && Enabled(s, ReadFails(c))
    ensures Inv(Step(s, ReadFails(c)))
  {
    hide ArmedOk, WaitingOk, LinksOk, Spoken, Accounted, Exclusive, ThreadOk, Lossy;
    hide Registrant, SpokenConn, ArmedConn, Peers;
    hide HandlerStep, HandleFirst, HandleNext, Relayed, ExpirationEvents, IdSet, SweepOutcome, Distinct, Deserialize,
         EncodeAll, Ended, ReadTo, Waiting;
    var s' := Step(s, ReadFails(c));
    ArmedAlone(s, c);
    Disarmed(s, s', c);
    SpokenAt(s, c);
    SameLossy(s, s');
    SameAccounts(s, s');
    UnconcernedThread(s, s', c);
    Local(s, s', c);
  }

  lemma ArmedAlone(s: State, c: ConnId)
    requires Exclusive(s) && c in s.armed
    ensures c in s.conns && c !in Waiting(s.registry) && c !in Peers(s.links) && c !in Main(s.thread) + Node(s.thread)
  {
    hide Peers, Waiting, Main, Node, OnceEach;
  }

  /** A read is over, and its connection is held by nobody or by the handler. */
  lemma Disarmed(s: State, s': State, c: ConnId)
    requires Exclusive(s) && c in s.armed && s'.armed == s.armed - {c}
    requires s'.conns.Keys == s.conns.Keys && s'.registry == s.registry && s'.links == s.links
    requires s'.thread == s.thread || (s.thread.Idle? && Main(s'.thread) == {c} && Node(s'.thread) == {})
    ensures Exclusive(s')
  {
    hide Peers, Waiting, OnceEach;
  }

  lemma ReadConcerns(s: State, s': State, c: ConnId, conn': Conn)
    requires Exclusive(s) && c in s.armed && c in s.conns && s'.conns == s.conns[c := conn']
             && conn'.broken == s.conns[c].broken
    requires s'.armed == s.armed - {c} || (c in s'.armed && s'.armed == s.armed[c := s'.armed[c]])
    requires s'.registry == s.registry && s'.links == s.links && s.thread.Idle?
    requires s'.lost == s.lost
    ensures Concerns(s, s', c) && BreaksKept(s, s') && Lossy(s', c) == Lossy(s, c)
  {
    hide Exclusive, Peers, Lossy;
    ArmedAlone(s, c);
    assert Lossy(s', c) == Lossy(s, c) by { SameLossy(s, s'); }
  }

  /** Whether a claim was lost depends on no flag that has not changed. */
  lemma SameLossy(s: State, s': State)
    requires s'.conns.Keys == s.conns.Keys && s'.lost == s.lost
    requires forall d :: d in s.conns ==> s'.conns[d].broken == s.conns[d].broken
    ensures forall d :: Lossy(s', d) == Lossy(s, d)
  {
    StillLossy(s, s');
    StillLossy(s', s);
  }

  lemma HeaderAccepted(conn: Conn, g: Gate, h: Header)
    requires ArmedConn(conn, Arm(g, None)) && conn.taken + HEADER_SIZE <= |conn.sent|
    requires Deserialize(conn.sent[conn.taken..conn.taken + HEADER_SIZE], Limit(g)) == Ok(h)
    ensures ArmedConn(conn.(taken := conn.taken + HEADER_SIZE), Arm(g, Some(h)))
  {
    hide EncodeAll, Talk, Deserialize, HeaderBytes;
    var piece := conn.sent[conn.taken..conn.taken + HEADER_SIZE];
    DeserializeExact(piece, Limit(g));
    assert piece[..HEADER_SIZE] == piece;
    ReadOn(conn.sent, conn.taken, HEADER_SIZE, EncodeAll(conn.requests), []);
  }

  lemma ReadOn(sent: seq<byte>, taken: nat, n: nat, done: seq<byte>, partial: seq<byte>)
    requires taken + n <= |sent| && sent[..taken] == done + partial
    ensures sent[..taken + n] == done + (partial + sent[taken..taken + n])
    ensures partial == [] ==> sent[..taken + n] == done + sent[taken..taken + n]
  {
    var piece := sent[taken..taken + n];
    assert sent[..taken + n] == sent[..taken] + piece;
    assert partial == [] ==> partial + piece == piece;
  }

  lemma FarewellFits(conn: Conn, arm: Arm, lossy: bool)
    requires ArmedConn(conn, arm)
    ensures Grammar(Kinds(conn.replies) + [DISCONNECT], lossy)
  {
    if arm.gate.BeforeLogin? {
      assert Kinds(conn.replies) + [DISCONNECT] == [DISCONNECT];
    } else {
      TalkIsLoggedIn(conn.requests, conn.replies, conn.verdict);
      ThenEnding(Kinds(conn.replies), [DISCONNECT], lossy);
    }
  }

  lemma ThenEnding(ks: seq<MessageType>, tail: seq<MessageType>, lossy: bool)
    requires LoggedIn(ks) && Ending(tail, lossy)
    ensures Grammar(ks + tail, lossy)
  {
    assert (ks + tail)[..|ks|] == ks && (ks + tail)[|ks|..] == tail;
  }

  lemma HeaderArrivesKeeps(s: State, c: ConnId, what: seq<byte>)
    requires Inv(s) && Enabled(s, HeaderArrives(c, what))
    ensures Inv(Step(s, HeaderArrives(c, what)))
  {
    hide ArmedOk, WaitingOk, LinksOk, Spoken, Accounted, Exclusive, ThreadOk, Lossy;
    hide Registrant, SpokenConn, ArmedConn, Peers;
    hide HandlerStep, HandleFirst, HandleNext, Relayed, ExpirationEvents, IdSet, SweepOutcome, Distinct, Deserialize,
         EncodeAll, Ended, ReadTo, Waiting, Concerns, EncodeFrame, HeaderBytes, Grammar, Kinds;
    hide TakeBody;
    var s' := TakeHeader(s, c, what);
    var conn, arm := s.conns[c], s.armed[c];
    ArmedAlone(s, c);
    ArmedAt(s, c);
    SpokenAt(s, c);
    ReadConcerns(s, s', c, s'.conns[c]);
    SpokenRead(conn, conn.taken + HEADER_SIZE, conn.requests, Lossy(s, c));
    match Deserialize(conn.sent[conn.taken..conn.taken + HEADER_SIZE], Limit(arm.gate))
    case Ok(h) =>
      HeaderAccepted(conn, arm.gate, h);
      SameArmed(s, s');
      SameAccounts(s, s');
      UnconcernedThread(s, s', c);
      Local(s, s', c);
    case Err(_) =>
      FarewellFits(conn, arm, Lossy(s, c));
      Disarmed(s, s', c);
      SameAccounts(s, s');
      UnwindingOk(s', c, what);
      Local(s, s', c);
  }

  lemma ArmedAt(s: State, c: ConnId)
    requires ArmedOk(s) && c in s.armed && c in s.conns
    ensures ArmedConn(s.conns[c], s.armed[c])
  {
    hide ArmedConn;
  }

  lemma SameArmed(s: State, s': State)
    requires Exclusive(s) && s'.conns.Keys == s.conns.Keys
    requires s'.armed.Keys == s.armed.Keys && s'.thread == s.thread && s'.registry == s.registry && s'.links == s.links
    ensures Exclusive(s')
  {
    hide Peers, Waiting, Main, Node, OnceEach;
  }

  lemma SpokenRead(conn: Conn, taken: nat, requests: seq<Message>, lossy: bool)
    requires SpokenConn(conn, false, lossy) && (requests == conn.requests || Bounded(requests))
    ensures SpokenConn(conn.(taken := taken, requests := requests), false, lossy)
  {
    hide Grammar, Kinds, Turned;
    if !Whole(conn) {
      var m: Message, k: nat :| Torn(conn, m, k);
      assert Torn(conn.(taken := taken, requests := requests), m, k);
    }
  }

  lemma UnwindingOk(s: State, c: ConnId, what: seq<byte>)
    requires s.thread == Unwinding(c, what) && c in s.conns && Fits(Message(DISCONNECT, what), BUFFER_SIZE)
    requires s.conns[c].broken
             || (c !in Waiting(s.registry) && Grammar(Kinds(s.conns[c].replies) + [DISCONNECT], Lossy(s, c)))
    ensures ThreadOk(s)
  {
    hide Grammar, Lossy, Kinds;
  }

  lemma RequestFits(conn: Conn, lossy: bool, arm: Arm, m: Message)
    requires SpokenConn(conn, false, lossy) && ArmedConn(conn, arm) && arm.header.Some?
             && |m.content| == arm.header.value.length
    ensures Bounded(conn.requests + [m])
  {
    hide Grammar, Kinds, Plain, Turned, ReadTo;
  }

  lemma BodyTaken(conn: Conn, g: Gate, h: Header, m: Message, conn': Conn)
    requires ArmedConn(conn, Arm(g, Some(h))) && conn.taken + h.length <= |conn.sent|
    requires m == Message(h.kind, conn.sent[conn.taken..conn.taken + h.length])
    requires conn' == conn.(taken := conn.taken + h.length, requests := conn.requests + [m])
    ensures ReadTo(conn', [])
    ensures g.BeforeLogin? ==> conn'.requests == [m] && conn'.replies == [] && conn'.verdict == None
    ensures g.AfterLogin? ==> Ended(conn', m.kind, []) && Last(conn'.requests) == m
  {
    hide EncodeAll, Talk;
    EncodeAppend(conn.requests, m);
    assert HeaderOf(m) == h;
    ReadOn(conn.sent, conn.taken, h.length, EncodeAll(conn.requests), HeaderBytes(h));
    assert EncodeAll(conn'.requests) + [] == EncodeAll(conn'.requests);
    assert Front(conn.requests + [m]) == conn.requests;
    assert conn.replies[..|conn.replies|] == conn.replies;
  }

  lemma BodyArrivesKeeps(s: State, c: ConnId)
    requires Inv(s) && Enabled(s, BodyArrives(c))
    ensures Inv(Step(s, BodyArrives(c)))
  {
    hide Inv, HandlerStep, TakeHeader, Relayed, ExpirationEvents, IdSet, SweepOutcome, Distinct;
    BodyLocal(s, TakeBody(s, c), c);
  }

  lemma BodyLocal(s: State, s': State, c: ConnId)
    requires c in s.armed && c in s.conns && s.thread.Idle? && s.armed[c].header.Some?
    requires s.conns[c].taken + s.armed[c].header.value.length <= |s.conns[c].sent| && s' == TakeBody(s, c)
    requires Inv(s)
    ensures Inv(s')
  {
    hide ArmedOk, WaitingOk, LinksOk, Spoken, Accounted, Exclusive, ThreadOk, Lossy;
    hide Registrant, SpokenConn, ArmedConn, Peers;
    hide EncodeAll, Ended, ReadTo, Waiting, Concerns, Bounded;
    var conn, arm := s.conns[c], s.armed[c];
    ArmedAlone(s, c);
    ArmedAt(s, c);
    SpokenAt(s, c);
    ReadConcerns(s, s', c, s'.conns[c]);
    RequestFits(conn, Lossy(s, c), arm, s'.thread.m);
    BodyTaken(conn, arm.gate, arm.header.value, s'.thread.m, s'.conns[c]);
    SpokenRead(conn, s'.conns[c].taken, s'.conns[c].requests, Lossy(s, c));
    Disarmed(s, s', c);
    SameAccounts(s, s');
    MessageOk(s', c, s'.thread.m);
    Local(s, s', c);
  }

  lemma MessageOk(s: State, c: ConnId, m: Message)
    requires c in s.conns && ReadTo(s.conns[c], [])
    requires || (s.thread == FirstMessage(c, m) && s.conns[c].requests == [m] && s.conns[c].replies == []
                 && s.conns[c].verdict == None)
             || (s.thread == NextMessage(c, m) && Ended(s.conns[c], m.kind, []) && Last(s.conns[c].requests) == m)
    ensures ThreadOk(s)
  {
    hide Ended, ReadTo;
  }

  // ---------------------------------------------------------------- the handler's steps

  /** The handler goes on with the same connections in hand. */
  lemma StillHandling(s: State, s': State)
    requires Exclusive(s) && s'.conns.Keys == s.conns.Keys
    requires s'.armed == s.armed && s'.registry == s.registry && s'.links == s.links
    requires Main(s'.thread) == Main(s.thread) && Node(s'.thread) <= Node(s.thread)
    requires s'.thread.SendId? || s'.thread.Unwinding? || !(s.thread.SendId? || s.thread.Unwinding?)
    ensures Exclusive(s')
  {
    hide Peers, Waiting, Main, Node, OnceEach;
  }

  /** The handler lets go of its connection, having armed a read on it or not. */
  lemma LetGo(s: State, s': State, c: ConnId)
    requires Exclusive(s) && Main(s.thread) == {c} && s'.thread == Idle && s'.conns.Keys == s.conns.Keys
    requires s'.registry == s.registry && s'.links == s.links
    requires s'.armed == s.armed || (s'.armed.Keys == s.armed.Keys + {c} && c !in Waiting(s.registry))
    ensures Exclusive(s')
  {
    hide Peers, Waiting, OnceEach;
  }

  lemma HandlerAlone(s: State, c: ConnId)
    requires Exclusive(s) && Main(s.thread) == {c}
    ensures c in s.conns && c !in s.armed && c !in Peers(s.links) && c !in Node(s.thread)
    ensures s.thread.SendId? || s.thread.Unwinding? || c !in Waiting(s.registry)
  {
    hide Peers, Waiting, Main, Node, OnceEach;
    assert c in Main(s.thread);
  }

  lemma SaidSpoken(conn: Conn, m: Message, lossy: bool)
    requires SpokenConn(conn, false, lossy) && Fits(m, BUFFER_SIZE) && Grammar(Kinds(conn.replies + [m]), lossy)
    requires conn.verdict == Some(Accepted) || Turned(Kinds(conn.replies + [m]))
    requires !conn.broken
    ensures SpokenConn(Said(conn, m), false, lossy) && Whole(Said(conn, m))
  {
    hide Grammar, Kinds, EncodeAll;
    SaidIsWhole(conn, m);
  }

  lemma KindsAppend(rs: seq<Message>, m: Message)
    ensures Kinds(rs + [m]) == Kinds(rs) + [m.kind]
  {
  }

  lemma IdleOk(s: State)
    requires s.thread == Idle
    ensures ThreadOk(s)
  {
  }

  /** A step of the handler that holds `c` and writes, if at all, to `c` only. */
  ghost predicate HandlerConcerns(s: State, s': State, c: ConnId) {
    && c in s.conns && Main(s.thread) == {c}
    && s'.conns.Keys == s.conns.Keys
    && (forall d :: d in s.conns && d != c ==> s'.conns[d] == s.conns[d])
    && s'.conns[c].broken == s.conns[c].broken && s.lost <= s'.lost
    && s'.registry == s.registry && s'.links == s.links
  }

  lemma HandlerLocal(s: State, s': State, c: ConnId)
    requires HandlerConcerns(s, s', c) && Exclusive(s)
    requires s'.armed == s.armed || s'.armed == s.armed[c := Arm(AfterLogin, None)]
    ensures Concerns(s, s', c)
  {
    hide Exclusive, Peers;
    HandlerAlone(s, c);
  }

  lemma Raising(s: State, s': State, c: ConnId, what: seq<byte>)
    requires Inv(s) && HandlerConcerns(s, s', c) && s'.armed == s.armed && s'.thread == Unwinding(c, what)
    requires Fits(Message(DISCONNECT, what), BUFFER_SIZE)
    requires s'.conns[c].broken
             || (c !in Waiting(s.registry) && Grammar(Kinds(s'.conns[c].replies) + [DISCONNECT], Lossy(s', c)))
    requires SpokenConn(s'.conns[c], false, Lossy(s', c)) && Accounted(s')
    requires c in Waiting(s.registry) ==> Registrant(s'.conns[c], false)
    ensures Inv(s')
  {
    hide ArmedOk, WaitingOk, LinksOk, Spoken, Accounted, Exclusive, ThreadOk, Lossy;
    hide Registrant, SpokenConn, ArmedConn, Peers;
    hide Grammar, Kinds, Concerns, Waiting;
    HandlerLocal(s, s', c);
    HandlerAlone(s, c);
    StillHandling(s, s');
    UnwindingOk(s', c, what);
    Local(s, s', c);
  }

  lemma Finishing(s: State, s': State, c: ConnId)
    requires Inv(s) && HandlerConcerns(s, s', c) && s'.thread == Idle && Node(s.thread) == {} && s'.log == s.log
             && s'.lost == s.lost
    requires || s'.armed == s.armed
             || (s'.armed == s.armed[c := Arm(AfterLogin, None)] && c !in Waiting(s.registry)
                 && ReadTo(s'.conns[c], []) && Chatting(s'.conns[c]))
    requires SpokenConn(s'.conns[c], false, Lossy(s', c))
    requires c in Waiting(s.registry) ==> Registrant(s'.conns[c], false)
    ensures Inv(s')
  {
    hide ArmedOk, WaitingOk, LinksOk, Spoken, Accounted, Exclusive, ThreadOk, Lossy;
    hide Registrant, SpokenConn, ArmedConn, Peers;
    hide Concerns, Waiting, ReadTo, Chatting;
    HandlerLocal(s, s', c);
    HandlerAlone(s, c);
    SameAccounts(s, s');
    LetGo(s, s', c);
    IdleOk(s');
    if s'.armed != s.armed { ArmedAfterLogin(s'.conns[c]); }
    Local(s, s', c);
  }

  lemma ArmedAfterLogin(conn: Conn)
    requires ReadTo(conn, []) && Chatting(conn)
    ensures ArmedConn(conn, Arm(AfterLogin, None))
  {
  }

  lemma HandleFirstKeeps(s: State, c: ConnId, m: Message, verdict: Verdict)
    requires Inv(s) && c in s.conns && s.thread == FirstMessage(c, m)
    requires verdict.Throws? ==> Fits(Message(DISCONNECT, verdict.what), BUFFER_SIZE)
    ensures Inv(HandleFirst(s, c, m, verdict))
  {
    hide Inv, Said, OnFirstMessage;
    if OnFirstMessage(m, verdict).Raise? || s.conns[c].broken {
      FirstRaises(s, c, m, verdict);
    } else {
      FirstAnswers(s, c, m, verdict);
    }
  }

  lemma FirstRaises(s: State, c: ConnId, m: Message, verdict: Verdict)
    requires Inv(s) && c in s.conns && s.thread == FirstMessage(c, m)
    requires verdict.Throws? ==> Fits(Message(DISCONNECT, verdict.what), BUFFER_SIZE)
    requires OnFirstMessage(m, verdict).Raise? || s.conns[c].broken
    ensures Inv(HandleFirst(s, c, m, verdict))
  {
    hide ArmedOk, WaitingOk, LinksOk, Spoken, Accounted, Exclusive, Registrant, SpokenConn, Peers, ThreadOk, Lossy;
    hide Waiting, ReadTo, EncodeFrame, Chatting, Grammar, Kinds;
    HandlerAlone(s, c);
    FirstAt(s, c, m);
    SpokenAt(s, c);
    var s' := HandleFirst(s, c, m, verdict);
    DecidedSpoken(s.conns[c], s'.conns[c], Lossy(s, c));
    SameLossy(s, s');
    SameAccounts(s, s');
    Raising(s, s', c, if OnFirstMessage(m, verdict).Raise? then OnFirstMessage(m, verdict).what else []);
  }

  lemma FirstAnswers(s: State, c: ConnId, m: Message, verdict: Verdict)
    requires Inv(s) && c in s.conns && s.thread == FirstMessage(c, m)
    requires OnFirstMessage(m, verdict).Answer? && !s.conns[c].broken
    ensures Inv(HandleFirst(s, c, m, verdict))
  {
    hide ArmedOk, WaitingOk, LinksOk, Spoken, Accounted, Exclusive, Registrant, SpokenConn, Peers, ThreadOk, Lossy;
    hide Waiting, ReadTo, EncodeFrame, Chatting, Grammar, Kinds, OnFirstMessage, HandleFirst, Said, HandlerConcerns;
    HandlerAlone(s, c);
    FirstAt(s, c, m);
    SpokenAt(s, c);
    var s' := HandleFirst(s, c, m, verdict);
    var decided := if m.kind == LOGIN then s.conns[c].(verdict := Some(verdict)) else s.conns[c];
    FirstAnswerIs(s, c, m, verdict, decided);
    SameLossy(s, s');
    FirstReply(s.conns[c], decided, m, OnFirstMessage(m, verdict).reply, verdict, Lossy(s, c));
    Finishing(s, s', c);
  }

  lemma FirstAnswerIs(s: State, c: ConnId, m: Message, verdict: Verdict, decided: Conn)
    requires c in s.conns && s.thread == FirstMessage(c, m) && OnFirstMessage(m, verdict).Answer? && !s.conns[c].broken
    requires decided == if m.kind == LOGIN then s.conns[c].(verdict := Some(verdict)) else s.conns[c]
    ensures var s', r := HandleFirst(s, c, m, verdict), OnFirstMessage(m, verdict);
            && HandlerConcerns(s, s', c) && s'.conns[c] == Said(decided, r.reply) && s'.thread == Idle
            && s'.log == s.log && s'.lost == s.lost
            && s'.armed == (if r.rearm then s.armed[c := Arm(AfterLogin, None)] else s.armed)
            && forall d :: d in s.conns ==> s'.conns[d].broken == s.conns[d].broken
    ensures HandleFirst(s, c, m, verdict).conns.Keys == s.conns.Keys
  {
    hide OnFirstMessage, EncodeFrame;
  }

  lemma FirstAt(s: State, c: ConnId, m: Message)
    requires ThreadOk(s) && s.thread == FirstMessage(c, m)
    ensures c in s.conns && s.conns[c].requests == [m] && s.conns[c].replies == [] && s.conns[c].verdict == None
            && ReadTo(s.conns[c], [])
    ensures forall lossy :: Grammar(Kinds(s.conns[c].replies) + [DISCONNECT], lossy)
  {
    assert c in Main(s.thread);
    assert Kinds([]) + [DISCONNECT] == [DISCONNECT];
  }

  lemma DecidedSpoken(conn: Conn, decided: Conn, lossy: bool)
    requires SpokenConn(conn, false, lossy) && decided == conn.(verdict := decided.verdict) && conn.replies == []
    requires decided.verdict == Some(Accepted) ==> conn.broken
    ensures SpokenConn(decided, false, lossy) && (ReadTo(conn, []) ==> ReadTo(decided, []))
  {
    hide Grammar, AllFit;
    if !Whole(conn) {
      var m: Message, k: nat :| Torn(conn, m, k);
      assert Torn(decided, m, k);
    }
  }

  /** The first reply: one of three, and the login is complete when it is the ACK. */
  lemma FirstReply(before: Conn, conn: Conn, m: Message, reply: Message, verdict: Verdict, lossy: bool)
    requires SpokenConn(before, false, lossy) && !before.broken && before.requests == [m] && before.replies == []
             && ReadTo(before, [])
    requires OnFirstMessage(m, verdict) == Answer(reply, true) || OnFirstMessage(m, verdict) == Answer(reply, false)
    requires before.verdict == None && conn == before.(verdict := if m.kind == LOGIN then Some(verdict) else None)
    ensures SpokenConn(Said(conn, reply), false, lossy)
    ensures OnFirstMessage(m, verdict).rearm ==> Chatting(Said(conn, reply))
    ensures ReadTo(Said(conn, reply), [])
  {
    assert Kinds([] + [reply]) == [reply.kind];
    if OnFirstMessage(m, verdict).rearm {
      ThenEnding([ACK], [], lossy);
      assert [ACK] + [] == [ACK];
      assert Talk([m], [reply], conn.verdict);
    }
    SaidIsWhole(conn, reply);
  }

  lemma NextAt(s: State, c: ConnId, m: Message)
    requires ThreadOk(s) && s.thread == NextMessage(c, m)
    ensures c in s.conns && ReadTo(s.conns[c], []) && Ended(s.conns[c], m.kind, []) && Last(s.conns[c].requests) == m
  {
    hide Ended, ReadTo;
    assert c in Main(s.thread);
  }

  lemma SaidReadTo(conn: Conn, m: Message)
    requires ReadTo(conn, [])
    ensures ReadTo(Said(conn, m), [])
  {
  }

  lemma EndedAccepted(conn: Conn, kind: MessageType, tail: seq<Message>)
    requires Ended(conn, kind, tail)
    ensures conn.verdict == Some(Accepted)
  {
  }

  /** A reply that keeps the conversation going. */
  lemma Answered(conn: Conn, kind: MessageType, m: Message, lossy: bool)
    requires Ended(conn, kind, []) && Answers(Last(conn.requests), m) && Fits(m, BUFFER_SIZE)
    requires SpokenConn(conn, false, lossy) && !conn.broken
    ensures Chatting(Said(conn, m)) && SpokenConn(Said(conn, m), false, lossy)
  {
    hide SpokenConn, Ended, Talk, Grammar, Kinds;
    AnsweredIsChatting(conn, kind, m);
    var said := Said(conn, m);
    TalkIsLoggedIn(said.requests, said.replies, said.verdict);
    EndedAccepted(conn, kind, []);
    ThenEnding(Kinds(said.replies), [], lossy);
    assert Kinds(said.replies) + [] == Kinds(said.replies);
    SaidSpoken(conn, m, lossy);
  }

  lemma SaidUnbroken(conn: Conn, m: Message)
    ensures Said(conn, m).broken == conn.broken
  {
  }

  /** A reply that ends it. */
  lemma EndsWith(conn: Conn, kind: MessageType, tail: seq<Message>, m: Message, lossy: bool)
    requires Ended(conn, kind, tail) && Fits(m, BUFFER_SIZE) && SpokenConn(conn, false, lossy) && !conn.broken
    requires Ending(Kinds(tail + [m]), lossy)
    ensures Ended(Said(conn, m), kind, tail + [m]) && SpokenConn(Said(conn, m), false, lossy) && Whole(Said(conn, m))
  {
    hide SpokenConn, Ended, Talk, Grammar, Kinds;
    EndedSays(conn, kind, tail, m);
    EndedGrammar(Said(conn, m), kind, tail + [m], lossy);
    EndedAccepted(conn, kind, tail);
    SaidSpoken(conn, m, lossy);
  }

  lemma NextRefusedKeeps(s: State, c: ConnId, m: Message)
    requires Inv(s) && c in s.conns && s.thread == NextMessage(c, m)
    requires m.kind != REGISTER_STREAMER && m.kind != FIND_STREAMER
    ensures Inv(HandleNext(s, c, m, 0))
  {
    hide ArmedOk, WaitingOk, LinksOk, Spoken, Accounted, Exclusive, Registrant, SpokenConn, Peers, ThreadOk, Lossy;
    hide Waiting, ReadTo, EncodeFrame, Chatting, Grammar, Kinds, Ended, ArmedConn, Said, NotExpected;
    HandlerAlone(s, c);
    NextAt(s, c, m);
    SpokenAt(s, c);
    var s' := HandleNext(s, c, m, 0);
    SaidUnbroken(s.conns[c], NotExpected(m.kind));
    SameLossy(s, s');
    if s.conns[c].broken {
      SameAccounts(s, s');
      Raising(s, s', c, []);
    } else {
      NotExpectedFits(m.kind);
      Answered(s.conns[c], m.kind, NotExpected(m.kind), Lossy(s, c));
      SaidReadTo(s.conns[c], NotExpected(m.kind));
      Finishing(s, s', c);
    }
  }

  lemma TallyAppend(log: seq<Event<ConnId>>, e: Event<ConnId>)
    ensures Tally(log + [e], Extracted) == Tally(log, Extracted) + if e.Claimed? then 1 else 0
  {
    assert Front(log + [e]) == log;
  }

  lemma NextRegisterKeeps(s: State, c: ConnId, m: Message, now: int)
    requires Inv(s) && c in s.conns && s.thread == NextMessage(c, m) && m.kind == REGISTER_STREAMER
    ensures Inv(HandleNext(s, c, m, now))
  {
    hide ArmedOk, WaitingOk, LinksOk, Spoken, Accounted, Exclusive, ThreadOk, Lossy;
    hide Registrant, SpokenConn, ArmedConn, Peers;
    hide ReadTo, Ended;
    var s' := HandleNext(s, c, m, now);
    HandlerAlone(s, c);
    NextAt(s, c, m);
    SpokenAt(s, c);
    RegisterExclusive(s, c, m, now);
    SameLossy(s, s');
    RegisterAccounted(s, c, m, now);
    Telling(s.conns[c]);
    SendIdOk(s', c);
    Local(s, s', c);
  }

  lemma Telling(conn: Conn)
    requires ReadTo(conn, []) && Ended(conn, REGISTER_STREAMER, [])
    ensures Registrant(conn, true)
  {
  }

  lemma SendIdOk(s: State, c: ConnId)
    requires s.thread == SendId(c) && c in s.conns && ReadTo(s.conns[c], []) && Ended(s.conns[c], REGISTER_STREAMER, [])
    ensures ThreadOk(s)
  {
    hide ReadTo, Ended;
  }

  lemma RegisterExclusive(s: State, c: ConnId, m: Message, now: int)
    requires Exclusive(s) && c in s.conns && s.thread == NextMessage(c, m) && m.kind == REGISTER_STREAMER
    ensures Exclusive(HandleNext(s, c, m, now))
  {
    hide Peers, OnceEach;
    var s' := HandleNext(s, c, m, now);
    assert Waiting(s'.registry) == {c} by {
      assert s'.registry[SESSION_ID].session == c;
    }
    assert c in Main(s.thread);
  }

  lemma RegisterAccounted(s: State, c: ConnId, m: Message, now: int)
    requires Accounted(s) && c in s.conns && s.thread == NextMessage(c, m) && m.kind == REGISTER_STREAMER
    ensures Accounted(HandleNext(s, c, m, now))
  {
    hide Matches, Tally;
    MatchesRegister(s.registry, s.log, SESSION_ID, c, now);
    TallyAppend(s.log, Registered(SESSION_ID, c, now));
  }

  lemma NextFindKeeps(s: State, c: ConnId, m: Message)
    requires Inv(s) && c in s.conns && s.thread == NextMessage(c, m) && m.kind == FIND_STREAMER
    ensures Inv(HandleNext(s, c, m, 0))
  {
    hide ArmedOk, WaitingOk, LinksOk, Spoken, Accounted, Exclusive, ThreadOk, Lossy;
    hide Registrant, SpokenConn, ArmedConn, Peers;
    hide ReadTo, Ended, Waiting;
    var s' := HandleNext(s, c, m, 0);
    HandlerAlone(s, c);
    NextAt(s, c, m);
    SpokenAt(s, c);
    SameLossy(s, s');
    if m.content in s.registry {
      var d := s.registry[m.content].session;
      FindExclusive(s, c, m);
      FindAccounted(s, c, m);
      RegistrantAt(s, m.content);
      FoundOk(s', c, d);
    } else {
      StillHandling(s, s');
      SameAccounts(s, s');
      NotFoundOk(s', c);
    }
    Local(s, s', c);
  }

  lemma RegistrantAt(s: State, id: Id)
    requires WaitingOk(s) && Exclusive(s) && id in s.registry
    ensures var d := s.registry[id].session;
            d in Waiting(s.registry) && d in s.conns && Registrant(s.conns[d], s.thread == SendId(d))
  {
    hide Registrant, Peers, OnceEach, Main, Node;
    assert s.registry[id].session in Waiting(s.registry);
  }

  lemma FindExclusive(s: State, c: ConnId, m: Message)
    requires Exclusive(s) && c in s.conns && s.thread == NextMessage(c, m) && m.kind == FIND_STREAMER
             && m.content in s.registry
    ensures Exclusive(HandleNext(s, c, m, 0)) && c !in Waiting(HandleNext(s, c, m, 0).registry)
  {
    hide Peers, OnceEach;
    var s' := HandleNext(s, c, m, 0);
    assert s.registry[m.content].session in Waiting(s.registry);
    assert s'.registry == map[] by { assert m.content == SESSION_ID; }
    assert Waiting(s'.registry) == {};
  }

  lemma FindAccounted(s: State, c: ConnId, m: Message)
    requires Accounted(s) && c in s.conns && s.thread == NextMessage(c, m) && m.kind == FIND_STREAMER
             && m.content in s.registry
    ensures Accounted(HandleNext(s, c, m, 0))
  {
    hide Matches, Tally;
    MatchesRemove(s.registry, s.log, Claimed(m.content));
    TallyAppend(s.log, Claimed(m.content));
  }

  lemma FoundOk(s: State, c: ConnId, d: ConnId)
    requires s.thread == SendFound(c, d) && c in s.conns && d in s.conns
    requires ReadTo(s.conns[c], []) && Ended(s.conns[c], FIND_STREAMER, []) && Registrant(s.conns[d], false)
    ensures ThreadOk(s)
  {
    hide ReadTo, Ended, Registrant;
  }

  lemma NotFoundOk(s: State, c: ConnId)
    requires s.thread == SendNotFound(c) && c in s.conns && ReadTo(s.conns[c], [])
             && Ended(s.conns[c], FIND_STREAMER, [])
    ensures ThreadOk(s)
  {
    hide ReadTo, Ended;
  }

  lemma ThreadAt(s: State)
    requires ThreadOk(s) && !s.thread.Idle?
    ensures s.thread.c in s.conns && (Node(s.thread) != {} ==> s.thread.streamer in s.conns)
    ensures s.thread.SendId? ==> ReadTo(s.conns[s.thread.c], []) && Ended(s.conns[s.thread.c], REGISTER_STREAMER, [])
    ensures s.thread.SendNotFound? ==> ReadTo(s.conns[s.thread.c], []) && Ended(s.conns[s.thread.c], FIND_STREAMER, [])
    ensures s.thread.SendFound? ==>
              && ReadTo(s.conns[s.thread.c], []) && Ended(s.conns[s.thread.c], FIND_STREAMER, [])
              && Registrant(s.conns[s.thread.streamer], false)
    ensures s.thread.SendStart? ==>
              && ReadTo(s.conns[s.thread.c], []) && Ended(s.conns[s.thread.c], FIND_STREAMER, [ACCEPT])
              && Whole(s.conns[s.thread.c]) && Registrant(s.conns[s.thread.streamer], false)
    ensures s.thread.OpenBridge? ==>
              && ReadTo(s.conns[s.thread.c], []) && Ended(s.conns[s.thread.c], FIND_STREAMER, [ACCEPT])
              && Whole(s.conns[s.thread.c])
              && ReadTo(s.conns[s.thread.streamer], [])
                 && Ended(s.conns[s.thread.streamer], REGISTER_STREAMER, [GRANTED, START])
              && Whole(s.conns[s.thread.streamer])
    ensures s.thread.Unwinding? ==>
              && Fits(Message(DISCONNECT, s.thread.what), BUFFER_SIZE)
              && (s.conns[s.thread.c].broken || (s.thread.c !in Waiting(s.registry)
                  && Grammar(Kinds(s.conns[s.thread.c].replies) + [DISCONNECT], Lossy(s, s.thread.c))))
  {
    hide ReadTo, Ended, Registrant, Grammar, Kinds, Lossy, Waiting, Whole;
    assert s.thread.c in Main(s.thread);
  }

  lemma RegistrantIs(conn: Conn, telling: bool)
    requires Registrant(conn, telling)
    ensures ReadTo(conn, [])
    ensures Ended(conn, REGISTER_STREAMER, [GRANTED])
            || (Ended(conn, REGISTER_STREAMER, []) && (conn.broken || telling))
  {
    hide ReadTo, Ended;
  }

  lemma IsRegistrant(conn: Conn)
    requires ReadTo(conn, [])
    requires Ended(conn, REGISTER_STREAMER, [GRANTED]) || (Ended(conn, REGISTER_STREAMER, []) && conn.broken)
    ensures Registrant(conn, false)
  {
    hide ReadTo, Ended;
  }

  lemma SendIdKeeps(s: State, c: ConnId, verdict: Verdict, now: int)
    requires Inv(s) && c in s.conns && s.thread == SendId(c)
    ensures Inv(HandlerStep(s, verdict, now))
  {
    hide ArmedOk, WaitingOk, LinksOk, Spoken, Accounted, Exclusive, ThreadOk, Lossy;
    hide Registrant, SpokenConn, ArmedConn, Peers;
    hide HandleFirst, HandleNext, ReadTo, Ended, Waiting, Chatting, Grammar, Kinds, EncodeFrame;
    HandlerAlone(s, c);
    ThreadAt(s);
    SpokenAt(s, c);
    var s' := HandlerStep(s, verdict, now);
    SameLossy(s, s');
    if s.conns[c].broken {
      IsRegistrant(s.conns[c]);
      SameAccounts(s, s');
      Raising(s, s', c, []);
    } else {
      OneKind(GRANTED);
      EndsWith(s.conns[c], REGISTER_STREAMER, [], GRANTED, Lossy(s, c));
      SaidReadTo(s.conns[c], GRANTED);
      IsRegistrant(s'.conns[c]);
      Finishing(s, s', c);
    }
  }

  lemma OneKind(m: Message)
    ensures [] + [m] == [m] && Kinds([m]) == [m.kind]
  {
  }

  lemma SendNotFoundKeeps(s: State, c: ConnId, verdict: Verdict, now: int)
    requires Inv(s) && c in s.conns && s.thread == SendNotFound(c)
    ensures Inv(HandlerStep(s, verdict, now))
  {
    hide ArmedOk, WaitingOk, LinksOk, Spoken, Accounted, Exclusive, ThreadOk, Lossy;
    hide Registrant, SpokenConn, ArmedConn, Peers;
    hide HandleFirst, HandleNext, ReadTo, Ended, Waiting, Chatting, Grammar, Kinds, EncodeFrame;
    HandlerAlone(s, c);
    ThreadAt(s);
    SpokenAt(s, c);
    var s' := HandlerStep(s, verdict, now);
    SameLossy(s, s');
    if s.conns[c].broken {
      SameAccounts(s, s');
      Raising(s, s', c, []);
    } else {
      EndedAsked(s.conns[c], FIND_STREAMER);
      Answered(s.conns[c], FIND_STREAMER, REFUSE, Lossy(s, c));
      SaidReadTo(s.conns[c], REFUSE);
      Finishing(s, s', c);
    }
  }

  lemma EndedAsked(conn: Conn, kind: MessageType)
    requires Ended(conn, kind, [])
    ensures conn.requests != [] && Last(conn.requests).kind == kind
  {
  }

  /** A claim that comes to nothing: the node is dropped and the claim counted as lost. */
  lemma NodeDropped(s: State, s': State)
    requires Accounted(s) && Node(s.thread) != {} && Node(s'.thread) == {} && s'.conns == s.conns
    requires s.thread.c in s.conns && s.thread.streamer in s.conns
    requires s.conns[s.thread.c].broken || s.conns[s.thread.streamer].broken
    requires s'.registry == s.registry && s'.log == s.log && s'.links == s.links
    requires s'.lost == s.lost + [LostClaim(s.thread.c, s.thread.streamer)]
    ensures Accounted(s')
  {
    hide Matches, Tally;
    assert |Node(s.thread)| == 1 && |Node(s'.thread)| == 0;
  }

  lemma SendFoundKeeps(s: State, c: ConnId, d: ConnId, verdict: Verdict, now: int)
    requires Inv(s) && c in s.conns && s.thread == SendFound(c, d)
    ensures Inv(HandlerStep(s, verdict, now))
  {
    hide ArmedOk, WaitingOk, LinksOk, Spoken, Accounted, Exclusive, ThreadOk, Lossy;
    hide Registrant, SpokenConn, ArmedConn, Peers;
    hide HandleFirst, HandleNext, ReadTo, Ended, Waiting, Chatting, Grammar, Kinds, EncodeFrame;
    HandlerAlone(s, c);
    ThreadAt(s);
    SpokenAt(s, c);
    var s' := HandlerStep(s, verdict, now);
    if s.conns[c].broken {
      NodeDropped(s, s');
      MoreLossySpoken(s, s', c);
      Raising(s, s', c, []);
    } else {
      OneKind(ACCEPT);
      EndsWith(s.conns[c], FIND_STREAMER, [], ACCEPT, Lossy(s, c));
      SaidReadTo(s.conns[c], ACCEPT);
      StillHandling(s, s');
      SameLossy(s, s');
      SameAccounts(s, s');
      StartingOk(s', c, d);
      HandlerLocal(s, s', c);
      Local(s, s', c);
    }
  }

  /** A reply grammar that holds goes on holding when more claims have been lost. */
  lemma MoreLossySpoken(s: State, s': State, c: ConnId)
    requires c in s.conns && s'.conns == s.conns && s.lost <= s'.lost && SpokenConn(s.conns[c], false, Lossy(s, c))
    ensures SpokenConn(s'.conns[c], false, Lossy(s', c))
  {
    hide SpokenConn, Lossy;
    StillLossy(s, s');
    GrownSpoken(s.conns[c], s.conns[c], false, Lossy(s, c), Lossy(s', c));
  }

  lemma StartingOk(s: State, c: ConnId, d: ConnId)
    requires s.thread == SendStart(c, d) && c in s.conns && d in s.conns
    requires ReadTo(s.conns[c], []) && Ended(s.conns[c], FIND_STREAMER, [ACCEPT]) && Whole(s.conns[c])
    requires Registrant(s.conns[d], false)
    ensures ThreadOk(s)
  {
    hide ReadTo, Ended, Registrant, Whole;
  }

  lemma NodeAlone(s: State, d: ConnId)
    requires Exclusive(s) && Node(s.thread) == {d}
    ensures d in s.conns && d !in s.armed && d !in Peers(s.links) && d !in Main(s.thread) && d !in Waiting(s.registry)
  {
    hide Peers, Waiting, Main, Node, OnceEach;
    assert d in Node(s.thread);
  }

  /** The viewer was told ACK but the streamer is gone: DISCONNECT may follow. */
  lemma AckThenDisconnect(conn: Conn, lossy: bool)
    requires Ended(conn, FIND_STREAMER, [ACCEPT]) && lossy
    ensures Grammar(Kinds(conn.replies) + [DISCONNECT], lossy)
  {
    hide Talk, Grammar;
    var n := |conn.replies| - 1;
    TalkIsLoggedIn(Front(conn.requests), conn.replies[..n], conn.verdict);
    assert Kinds(conn.replies) + [DISCONNECT] == Kinds(conn.replies[..n]) + [ACK, DISCONNECT];
    ThenEnding(Kinds(conn.replies[..n]), [ACK, DISCONNECT], lossy);
  }

  lemma SendStartKeeps(s: State, c: ConnId, d: ConnId, verdict: Verdict, now: int)
    requires Inv(s) && c in s.conns && d in s.conns && s.thread == SendStart(c, d)
    ensures Inv(HandlerStep(s, verdict, now))
  {
    hide Inv, HandlerStep;
    if s.conns[d].broken { StartLost(s, c, d, verdict, now); } else { StartTold(s, c, d, verdict, now); }
  }

  lemma StartLost(s: State, c: ConnId, d: ConnId, verdict: Verdict, now: int)
    requires Inv(s) && c in s.conns && d in s.conns && s.thread == SendStart(c, d) && s.conns[d].broken
    ensures Inv(HandlerStep(s, verdict, now))
  {
    hide ArmedOk, WaitingOk, LinksOk, Spoken, Accounted, Exclusive, ThreadOk, Lossy;
    hide Registrant, SpokenConn, ArmedConn, Peers;
    hide HandleFirst, HandleNext, ReadTo, Ended, Waiting, Chatting, Grammar, Kinds, EncodeFrame;
    HandlerAlone(s, c);
    ThreadAt(s);
    SpokenAt(s, c);
    var s' := HandlerStep(s, verdict, now);
    NodeDropped(s, s');
    LostIsLossy(s', c, d);
    AckThenDisconnect(s.conns[c], Lossy(s', c));
    MoreLossySpoken(s, s', c);
    Raising(s, s', c, []);
  }

  lemma StartTold(s: State, c: ConnId, d: ConnId, verdict: Verdict, now: int)
    requires Inv(s) && c in s.conns && d in s.conns && s.thread == SendStart(c, d) && !s.conns[d].broken
    ensures Inv(HandlerStep(s, verdict, now))
  {
    hide ArmedOk, WaitingOk, LinksOk, Spoken, Accounted, Exclusive, ThreadOk, Lossy;
    hide Registrant, SpokenConn, ArmedConn, Peers;
    hide HandleFirst, HandleNext, ReadTo, Ended, Waiting, Chatting, Grammar, Kinds, EncodeFrame;
    NodeAlone(s, d);
    ThreadAt(s);
    SpokenAt(s, d);
    var s' := HandlerStep(s, verdict, now);
    RegistrantIs(s.conns[d], false);
    KindsAppend([GRANTED], START);
    OneKind(GRANTED);
    EndsWith(s.conns[d], REGISTER_STREAMER, [GRANTED], START, Lossy(s, d));
    assert [GRANTED] + [START] == [GRANTED, START];
    SaidReadTo(s.conns[d], START);
    StillHandling(s, s');
    SameLossy(s, s');
    SameAccounts(s, s');
    OpeningOk(s', c, d);
    Local(s, s', d);
  }

  lemma LostIsLossy(s: State, c: ConnId, d: ConnId)
    requires LostClaim(c, d) in s.lost && d in s.conns && s.conns[d].broken
    ensures Lossy(s, c)
  {
  }

  lemma OpeningOk(s: State, c: ConnId, d: ConnId)
    requires s.thread == OpenBridge(c, d) && c in s.conns && d in s.conns
    requires ReadTo(s.conns[c], []) && Ended(s.conns[c], FIND_STREAMER, [ACCEPT]) && Whole(s.conns[c])
    requires ReadTo(s.conns[d], []) && Ended(s.conns[d], REGISTER_STREAMER, [GRANTED, START]) && Whole(s.conns[d])
    ensures ThreadOk(s)
  {
    hide ReadTo, Ended, Whole;
  }

  lemma FarewellTurned(conn: Conn, lossy: bool)
    requires SpokenConn(conn, false, lossy) && Grammar(Kinds(conn.replies) + [DISCONNECT], lossy)
    ensures conn.verdict == Some(Accepted) || Turned(Kinds(conn.replies) + [DISCONNECT])
  {
    hide Plain, AllFit, Greeted;
  }

  lemma WaitingUnder(s: State, c: ConnId)
    requires WaitingOk(s) && Exclusive(s) && c in s.conns && s.thread != SendId(c)
    ensures c in Waiting(s.registry) ==> Registrant(s.conns[c], false)
  {
    hide WaitingOk, Exclusive, Registrant;
    if c in Waiting(s.registry) {
      var id :| id in s.registry && s.registry[id].session == c;
      RegistrantAt(s, id);
    }
  }

  lemma UnwindingKeeps(s: State, c: ConnId, verdict: Verdict, now: int)
    requires Inv(s) && c in s.conns && s.thread.Unwinding? && s.thread.c == c
    ensures Inv(HandlerStep(s, verdict, now))
  {
    hide ArmedOk, WaitingOk, LinksOk, Spoken, Accounted, Exclusive, ThreadOk, Lossy;
    hide Registrant, SpokenConn, ArmedConn, Peers;
    hide HandleFirst, HandleNext, ReadTo, Ended, Waiting, Chatting, Grammar, Kinds, EncodeFrame;
    HandlerAlone(s, c);
    ThreadAt(s);
    SpokenAt(s, c);
    var s' := HandlerStep(s, verdict, now);
    var farewell := Message(DISCONNECT, s.thread.what);
    SameLossy(s, s');
    if s.conns[c].broken {
      WaitingUnder(s, c);
    } else {
      KindsAppend(s.conns[c].replies, farewell);
      FarewellTurned(s.conns[c], Lossy(s, c));
      SaidSpoken(s.conns[c], farewell, Lossy(s, c));
    }
    Finishing(s, s', c);
  }

  // ---------------------------------------------------------------- bridges

  lemma PeersAppend(links: seq<Link>, l: Link)
    ensures Peers(links + [l]) == Peers(links) + {l.one, l.two}
  {
    assert Front(links + [l]) == links;
  }

  /** At the hand-off both streams stand at a frame boundary, right after the last request. */
  lemma FreshLink(one: Conn, two: Conn, l: Link)
    requires Ended(one, REGISTER_STREAMER, [GRANTED, START]) && ReadTo(one, []) && Whole(one)
    requires Ended(two, FIND_STREAMER, [ACCEPT]) && ReadTo(two, []) && Whole(two)
    requires l.toOne == l.toTwo == 0
    ensures LinkOk(one, two, l)
  {
    hide Ended, EncodeAll;
    AtHandOff(one, two, l.downLive);
    AtHandOff(two, one, l.upLive);
  }

  lemma AtHandOff(from: Conn, to: Conn, live: bool)
    requires ReadTo(from, []) && Whole(to)
    ensures Piped(from, to, 0, live)
  {
    hide EncodeAll;
    assert from.sent[..from.taken] == EncodeAll(from.requests);
    assert to.out == EncodeAll(to.replies) + Past(from)[..0];
  }

  lemma OpenBridgeHolders(s: State, s': State, c: ConnId, d: ConnId)
    requires ArmedOk(s) && WaitingOk(s) && LinksOk(s) && Spoken(s) && s.thread == OpenBridge(c, d) && c in s.conns
             && d in s.conns
    requires s' == s.(links := s.links + [Link(d, c, 0, 0, true, true)], thread := Idle)
    requires LinkOk(s.conns[d], s.conns[c], Link(d, c, 0, 0, true, true))
    ensures ArmedOk(s') && WaitingOk(s') && LinksOk(s') && Spoken(s')
  {
    hide ArmedConn, Registrant, LinkOk, Grammar, AllFit, Kinds, Plain, Peers;
    PeersAppend(s.links, Link(d, c, 0, 0, true, true));
  }

  lemma OpenBridgeExclusive(s: State, s': State, c: ConnId, d: ConnId)
    requires Exclusive(s) && s.thread == OpenBridge(c, d)
    requires s' == s.(links := s.links + [Link(d, c, 0, 0, true, true)], thread := Idle)
    ensures Exclusive(s')
  {
    hide Peers, Waiting;
    PeersAppend(s.links, Link(d, c, 0, 0, true, true));
    PeersAre(s.links);
    HandlerAlone(s, c);
    NodeAlone(s, d);
  }

  lemma OpenBridgeAccounted(s: State, s': State, c: ConnId, d: ConnId)
    requires Accounted(s) && s.thread == OpenBridge(c, d)
    requires s' == s.(links := s.links + [Link(d, c, 0, 0, true, true)], thread := Idle)
    ensures Accounted(s')
  {
    hide Matches, Tally;
  }

  lemma OpenBridgeKeeps(s: State, c: ConnId, d: ConnId, verdict: Verdict, now: int)
    requires Inv(s) && c in s.conns && d in s.conns && s.thread == OpenBridge(c, d)
    ensures Inv(HandlerStep(s, verdict, now))
  {
    hide ArmedOk, WaitingOk, LinksOk, Spoken, Accounted, Exclusive, ThreadOk, Lossy;
    hide Registrant, SpokenConn, ArmedConn, Peers;
    hide HandleFirst, HandleNext, ReadTo, Ended, Waiting, Chatting, Grammar, Kinds, EncodeFrame;
    hide LinkOk;
    var s' := HandlerStep(s, verdict, now);
    HandlerAlone(s, c);
    NodeAlone(s, d);
    ThreadAt(s);
    FreshLink(s.conns[d], s.conns[c], Link(d, c, 0, 0, true, true));
    OpenBridgeHolders(s, s', c, d);
    OpenBridgeExclusive(s, s', c, d);
    OpenBridgeAccounted(s, s', c, d);
    IdleOk(s');
  }

  lemma SliceJoin(s: seq<byte>, h: nat, k: nat, w: nat)
    requires h + k + w <= |s|
    ensures s[h..][..k] + s[h + k..h + k + w] == s[h..][..k + w]
  {
  }

  lemma AppendTo(a: seq<byte>, b: seq<byte>, c: seq<byte>)
    ensures a + b + c == a + (b + c)
  {
  }

  /** One relay step continues its own direction and does not touch the other. */
  lemma RelayMoves(from: Conn, to: Conn, k: nat, n: nat, written: nat, ok: bool, from': Conn, to': Conn)
    requires Piped(from, to, k, true) && written <= n && from.taken + n <= |from.sent| && (ok ==> written == n)
    requires from' == from.(taken := from.taken + n)
             && to' == to.(out := to.out + from.sent[from.taken..from.taken + written])
    ensures Piped(from', to', k + written, ok)
  {
    hide EncodeAll;
    var h, chunk := |EncodeAll(from.requests)|, from.sent[from.taken..from.taken + written];
    SliceJoin(from.sent, h, k, written);
    AppendTo(EncodeAll(to.replies), Past(from)[..k], chunk);
  }

  lemma RelayLeaves(from: Conn, to: Conn, k: nat, live: bool, taken: nat, out: seq<byte>)
    requires Piped(from, to, k, live)
    ensures Piped(from.(out := out), to.(taken := taken), k, live)
  {
    hide EncodeAll;
    assert Past(from.(out := out)) == Past(from);
  }

  ghost predicate SameSpeech(a: Conn, b: Conn) {
    b.requests == a.requests && b.replies == a.replies && b.verdict == a.verdict && b.broken == a.broken
  }

  lemma RelayHolders(s: State, s': State, i: nat, l': Link)
    requires ArmedOk(s) && WaitingOk(s) && LinksOk(s) && Spoken(s) && Exclusive(s)
    requires i < |s.links| && l'.one == s.links[i].one && l'.two == s.links[i].two
    requires s'.conns.Keys == s.conns.Keys && s' == s.(conns := s'.conns, links := s.links[i := l'])
    requires forall c :: c in s.conns && c != l'.one && c != l'.two ==> s'.conns[c] == s.conns[c]
    requires forall c :: c in s.conns ==> SameSpeech(s.conns[c], s'.conns[c])
    requires l'.one in s.conns && l'.two in s.conns && LinkOk(s'.conns[l'.one], s'.conns[l'.two], l')
    ensures ArmedOk(s') && WaitingOk(s') && LinksOk(s') && Spoken(s') && BreaksKept(s, s')
  {
    hide ArmedConn, Registrant, LinkOk, SpokenConn, Peers, Exclusive, Lossy;
    SamePeers(s.links, i, l');
    PeersAre(s.links);
    PeersAlone(s);
    SameLossy(s, s');
    forall c | c in s'.conns ensures SpokenConn(s'.conns[c], c in Peers(s'.links), Lossy(s', c)) {
      if c in Peers(s.links) { SameSpoken(s.conns[c], s'.conns[c], Lossy(s, c)); }
    }
    forall j | 0 <= j < |s'.links| && s'.links[j].one in s'.conns && s'.links[j].two in s'.conns
      ensures LinkOk(s'.conns[s'.links[j].one], s'.conns[s'.links[j].two], s'.links[j])
    {
      if j != i { assert s'.links[j] == s.links[j]; }
    }
  }

  lemma SameSpoken(a: Conn, b: Conn, lossy: bool)
    requires SpokenConn(a, true, lossy) && SameSpeech(a, b)
    ensures SpokenConn(b, true, lossy)
  {
    hide Grammar, Kinds, Turned, AllFit;
  }

  lemma SamePeers(links: seq<Link>, i: nat, l': Link)
    requires i < |links| && l'.one == links[i].one && l'.two == links[i].two
    ensures Peers(links[i := l']) == Peers(links)
  {
    hide Peers;
    PeersAre(links);
    PeersAre(links[i := l']);
    forall c | c in Peers(links) ensures c in Peers(links[i := l']) {
      var j :| 0 <= j < |links| && (links[j].one == c || links[j].two == c);
      assert links[i := l'][j].one == links[j].one && links[i := l'][j].two == links[j].two;
    }
    forall c | c in Peers(links[i := l']) ensures c in Peers(links) {
      var j :| 0 <= j < |links[i := l']| && (links[i := l'][j].one == c || links[i := l'][j].two == c);
      assert links[i := l'][j].one == links[j].one && links[i := l'][j].two == links[j].two;
    }
  }

  lemma PeersAlone(s: State)
    requires Exclusive(s)
    ensures s.armed.Keys !! Peers(s.links) && Waiting(s.registry) !! Peers(s.links) && OnceEach(s.links)
    ensures Peers(s.links) <= s.conns.Keys && s.armed.Keys <= s.conns.Keys
  {
    hide Peers, Waiting, Main, Node, OnceEach;
  }

  lemma RelayExclusive(s: State, s': State, i: nat, l': Link)
    requires Exclusive(s) && i < |s.links| && l'.one == s.links[i].one && l'.two == s.links[i].two
    requires s'.conns.Keys == s.conns.Keys && s' == s.(conns := s'.conns, links := s.links[i := l'])
    ensures Exclusive(s')
  {
    hide Peers, Waiting, Main, Node;
    SamePeers(s.links, i, l');
  }

  lemma RelayKeeps(s: State, s': State, i: nat, l': Link)
    requires Inv(s) && s.thread.Idle?
    requires i < |s.links| && l'.one == s.links[i].one && l'.two == s.links[i].two
    requires s'.conns.Keys == s.conns.Keys && s' == s.(conns := s'.conns, links := s.links[i := l'])
    requires forall c :: c in s.conns && c != l'.one && c != l'.two ==> s'.conns[c] == s.conns[c]
    requires forall c :: c in s.conns ==> SameSpeech(s.conns[c], s'.conns[c])
    requires l'.one in s.conns && l'.two in s.conns && LinkOk(s'.conns[l'.one], s'.conns[l'.two], l')
    ensures Inv(s')
  {
    hide ArmedOk, WaitingOk, LinksOk, Spoken, Accounted, Exclusive, ThreadOk, LinkOk;
    RelayHolders(s, s', i, l');
    RelayExclusive(s, s', i, l');
    SameAccounts(s, s');
    IdleOk(s');
  }

  lemma LinkAt(s: State, i: nat)
    requires LinksOk(s) && Exclusive(s) && i < |s.links|
    ensures var l := s.links[i];
            l.one in s.conns && l.two in s.conns && l.one != l.two && LinkOk(s.conns[l.one], s.conns[l.two], l)
  {
    hide Peers, Waiting, Main, Node, LinkOk;
    PeersAre(s.links);
  }

  lemma RelayDownLink(one: Conn, two: Conn, l: Link, n: nat, written: nat, ok: bool, one': Conn, two': Conn)
    requires LinkOk(one, two, l) && l.downLive && written <= n && one.taken + n <= |one.sent| && (ok ==> written == n)
    requires one' == one.(taken := one.taken + n)
    requires two' == two.(out := two.out + one.sent[one.taken..one.taken + written])
    ensures LinkOk(one', two', l.(toTwo := l.toTwo + written, downLive := ok))
  {
    hide Ended, Piped;
    RelayMoves(one, two, l.toTwo, n, written, ok, one', two');
    RelayLeaves(two, one, l.toOne, l.upLive, one.taken + n, two'.out);
    SameHistory(one, one', two, two');
  }

  lemma RelayDownKeeps(s: State, i: nat, n: nat, written: nat, ok: bool)
    requires Inv(s) && Enabled(s, RelayDown(i, n, written, ok))
    ensures Inv(Step(s, RelayDown(i, n, written, ok)))
  {
    hide ArmedOk, WaitingOk, LinksOk, Spoken, Accounted, Exclusive, ThreadOk, LinkOk;
    hide HandlerStep, TakeHeader, TakeBody, ExpirationEvents, IdSet, SweepOutcome, Distinct;
    var l := s.links[i];
    var s' := Step(s, RelayDown(i, n, written, ok));
    LinkAt(s, i);
    RelayDownLink(s.conns[l.one], s.conns[l.two], l, n, written, ok, s'.conns[l.one], s'.conns[l.two]);
    RelayKeeps(s, s', i, l.(toTwo := l.toTwo + written, downLive := ok));
  }

  lemma SameHistory(one: Conn, one': Conn, two: Conn, two': Conn)
    requires one'.requests == one.requests && one'.replies == one.replies && one'.verdict == one.verdict
    requires two'.requests == two.requests && two'.replies == two.replies && two'.verdict == two.verdict
    ensures forall kind, tail :: Ended(one, kind, tail) <==> Ended(one', kind, tail)
    ensures forall kind, tail :: Ended(two, kind, tail) <==> Ended(two', kind, tail)
  {
    hide Talk;
  }

  lemma RelayUpLink(one: Conn, two: Conn, l: Link, n: nat, written: nat, ok: bool, one': Conn, two': Conn)
    requires LinkOk(one, two, l) && l.upLive && written <= n && two.taken + n <= |two.sent| && (ok ==> written == n)
    requires two' == two.(taken := two.taken + n)
    requires one' == one.(out := one.out + two.sent[two.taken..two.taken + written])
    ensures LinkOk(one', two', l.(toOne := l.toOne + written, upLive := ok))
  {
    hide Ended, Piped;
    RelayMoves(two, one, l.toOne, n, written, ok, two', one');
    RelayLeaves(one, two, l.toTwo, l.downLive, two.taken + n, one'.out);
    SameHistory(one, one', two, two');
  }

  lemma RelayUpKeeps(s: State, i: nat, n: nat, written: nat, ok: bool)
    requires Inv(s) && Enabled(s, RelayUp(i, n, written, ok))
    ensures Inv(Step(s, RelayUp(i, n, written, ok)))
  {
    hide ArmedOk, WaitingOk, LinksOk, Spoken, Accounted, Exclusive, ThreadOk, LinkOk;
    hide HandlerStep, TakeHeader, TakeBody, ExpirationEvents, IdSet, SweepOutcome, Distinct;
    var l := s.links[i];
    var s' := Step(s, RelayUp(i, n, written, ok));
    LinkAt(s, i);
    RelayUpLink(s.conns[l.one], s.conns[l.two], l, n, written, ok, s'.conns[l.one], s'.conns[l.two]);
    RelayKeeps(s, s', i, l.(toOne := l.toOne + written, upLive := ok));
  }

  // ---------------------------------------------------------------- the cleaner

  lemma {:induction false} SweepMatches(registry: map<Id, Entry<ConnId>>, log: seq<Event<ConnId>>, gone: seq<Id>)
    requires Matches(registry, log) && Distinct(gone) && IdSet(gone) <= registry.Keys
    ensures Matches(registry - IdSet(gone), log + ExpirationEvents(gone))
    ensures Tally(log + ExpirationEvents(gone), Extracted) == Tally(log, Extracted)
    ensures forall e :: e in log + ExpirationEvents(gone) && e.Registered? ==> e in log
    decreases |gone|
  {
    hide Matches, Tally;
    if gone == [] {
      assert registry - IdSet(gone) == registry && log + ExpirationEvents(gone) == log;
    } else {
      var id, fewer := Last(gone), Front(gone);
      var left, earlier := registry - IdSet(fewer), log + ExpirationEvents(fewer);
      assert IdSet(gone) == IdSet(fewer) + {id};
      SweepMatches(registry, log, fewer);
      assert id !in IdSet(fewer);
      MatchesRemove(left, earlier, Expired(id));
      assert left - {id} == registry - IdSet(gone);
      assert log + ExpirationEvents(gone) == earlier + [Expired(id)];
      TallyAppend(earlier, Expired(id));
    }
  }

  /** Entries vanish, and nothing else changes. */
  lemma FewerEntries(s: State, s': State)
    requires Inv(s) && s'.conns == s.conns && s'.armed == s.armed && s'.thread == s.thread && s'.links == s.links
    requires s'.registry.Keys <= s.registry.Keys
             && (forall id :: id in s'.registry ==> s'.registry[id] == s.registry[id])
    requires s'.lost == s.lost && Accounted(s')
    ensures Inv(s')
  {
    hide ArmedOk, WaitingOk, LinksOk, Spoken, Accounted, Exclusive, ThreadOk, Lossy, Waiting;
    FewerWaiting(s, s');
    FewerHolders(s, s');
    ThreadStays(s, s');
  }

  lemma ThreadStays(s: State, s': State)
    requires ThreadOk(s) && s'.conns == s.conns && s'.thread == s.thread && Waiting(s'.registry) <= Waiting(s.registry)
    requires s'.lost == s.lost
    ensures ThreadOk(s')
  {
    hide Ended, Grammar, Kinds, ReadTo, Registrant, Lossy, Waiting;
    SameLossy(s, s');
  }

  lemma FewerWaiting(s: State, s': State)
    requires Exclusive(s) && s'.conns == s.conns && s'.armed == s.armed && s'.thread == s.thread && s'.links == s.links
    requires s'.registry.Keys <= s.registry.Keys
             && (forall id :: id in s'.registry ==> s'.registry[id] == s.registry[id])
    ensures Waiting(s'.registry) <= Waiting(s.registry) && Exclusive(s')
  {
    hide Peers, Main, Node, OnceEach;
  }

  lemma FewerHolders(s: State, s': State)
    requires ArmedOk(s) && WaitingOk(s) && LinksOk(s) && Spoken(s)
    requires s'.conns == s.conns && s'.armed == s.armed && s'.thread == s.thread && s'.links == s.links
    requires s'.registry.Keys <= s.registry.Keys
             && (forall id :: id in s'.registry ==> s'.registry[id] == s.registry[id])
    requires s'.lost == s.lost
    ensures ArmedOk(s') && WaitingOk(s') && LinksOk(s') && Spoken(s')
  {
    hide ArmedConn, Registrant, LinkOk, SpokenConn, Peers, Lossy;
    SameLossy(s, s');
  }

  lemma SweepKeeps(s: State, timeout: int, gone: seq<Id>, end: int)
    requires Inv(s) && Enabled(s, Sweep(timeout, gone, end))
    ensures Inv(Step(s, Sweep(timeout, gone, end)))
  {
    hide ArmedOk, WaitingOk, LinksOk, Spoken, Accounted, Exclusive, ThreadOk, SweepOutcome;
    hide HandlerStep, TakeHeader, TakeBody, Relayed, ExpirationEvents;
    var s' := Step(s, Sweep(timeout, gone, end));
    SweepAccounted(s, s', gone);
    FewerEntries(s, s');
  }

  lemma SweepAccounted(s: State, s': State, gone: seq<Id>)
    requires Accounted(s) && Distinct(gone) && IdSet(gone) <= s.registry.Keys
    requires s' == s.(registry := s.registry - IdSet(gone), log := s.log + ExpirationEvents(gone), clock := s'.clock)
    ensures Accounted(s')
  {
    hide Matches, Tally, LostToBreaks, Node, ExpirationEvents, Distinct, IdSet;
    SweepMatches(s.registry, s.log, gone);
    StillLostToBreaks(s, s');
  }

  lemma ResetKeeps(s: State)
    requires Enabled(s, ResetRegistry) && Inv(s)
    ensures Inv(Step(s, ResetRegistry))
  {
    hide ArmedOk, WaitingOk, LinksOk, Spoken, Accounted, Exclusive, ThreadOk;
    hide HandlerStep, TakeHeader, TakeBody, Relayed, ExpirationEvents;
    var s' := Step(s, ResetRegistry);
    ResetAccounted(s, s');
    FewerEntries(s, s');
  }

  lemma ResetAccounted(s: State, s': State)
    requires Accounted(s) && s' == s.(registry := map[], log := s.log + [Cleared])
    ensures Accounted(s')
  {
    hide Matches, Tally, LostToBreaks, Node;
    MatchesClear(s.registry, s.log);
    TallyAppend(s.log, Cleared);
    StillLostToBreaks(s, s');
  }

  // ---------------------------------------------------------------- every step, every run

  lemma TimePasses(s: State, now: int)
    requires Inv(s)
    ensures Inv(s.(clock := now))
  {
    hide ArmedOk, WaitingOk, LinksOk, Spoken, Accounted, Exclusive, ThreadOk;
    var s' := s.(clock := now);
    FewerEntriesClock(s, s');
    FewerEntries(s, s');
  }

  lemma FewerEntriesClock(s: State, s': State)
    requires Accounted(s) && s' == s.(clock := s'.clock)
    ensures Accounted(s')
  {
  }

  /** A write that tears: its connection is broken from now on, and what it got is the replies and the
      beginning of a frame. */
  lemma WriteTearsKeeps(s: State, c: ConnId, m: Message, k: nat)
    requires Inv(s) && Enabled(s, WriteTears(c, m, k))
    ensures Inv(Step(s, WriteTears(c, m, k)))
  {
    hide ArmedOk, WaitingOk, LinksOk, Spoken, Accounted, Exclusive, ThreadOk, Lossy;
    hide Registrant, SpokenConn, ArmedConn, Peers;
    hide HandlerStep, HandleFirst, HandleNext, Relayed, ExpirationEvents, IdSet, SweepOutcome, Distinct, Deserialize;
    hide EncodeAll, EncodeFrame, Ended, ReadTo, Waiting, Concerns;
    var s' := Step(s, WriteTears(c, m, k));
    WritingAlone(s, c);
    SpokenAt(s, c);
    StillLossy(s, s');
    TornSpoken(s.conns[c], s'.conns[c], m, k, Lossy(s, c), Lossy(s', c));
    SameHolders(s, s');
    SameAccounts(s, s');
    TornThread(s, s', c);
    TornConcerns(s, s', c);
    if c in Waiting(s.registry) { TornRegistrant(s, s', c); }
    Local(s, s', c);
  }

  lemma WritingAlone(s: State, c: ConnId)
    requires Exclusive(s) && MayWriteTo(s.thread, c)
    ensures c in Main(s.thread) + Node(s.thread) && c !in s.armed && c !in Peers(s.links)
    ensures Main(s.thread) !! Node(s.thread)
  {
    hide Peers, Waiting, OnceEach;
  }

  lemma TornSpoken(a: Conn, b: Conn, m: Message, k: nat, lossy: bool, lossy': bool)
    requires SpokenConn(a, false, lossy) && !a.broken && (lossy ==> lossy') && Fits(m, BUFFER_SIZE)
             && k < |EncodeFrame(m)|
    requires b == a.(broken := true, out := a.out + EncodeFrame(m)[..k])
    ensures SpokenConn(b, false, lossy')
  {
    hide Grammar, Kinds, EncodeAll, EncodeFrame;
    assert Torn(b, m, k);
    GrammarMonotone(Kinds(a.replies), lossy, lossy');
  }

  lemma TornConcerns(s: State, s': State, c: ConnId)
    requires c in s.conns && c in s'.conns && s' == s.(conns := s.conns[c := s'.conns[c]]) && s'.conns[c].broken
    requires c !in Peers(s.links)
    ensures Concerns(s, s', c)
  {
    hide Peers;
  }

  lemma TornThread(s: State, s': State, c: ConnId)
    requires ThreadOk(s) && MayWriteTo(s.thread, c) && c in s.conns && c in s'.conns
             && s' == s.(conns := s.conns[c := s'.conns[c]])
    requires s'.conns[c] == s.conns[c].(broken := true, out := s'.conns[c].out)
    requires Main(s.thread) !! Node(s.thread)
    ensures ThreadOk(s')
  {
    hide Grammar, Kinds, Lossy, Waiting, EncodeAll, Talk;
  }

  lemma TornRegistrant(s: State, s': State, c: ConnId)
    requires WaitingOk(s) && Exclusive(s) && c in Waiting(s.registry) && c in s.conns && c in s'.conns
    requires s' == s.(conns := s.conns[c := s'.conns[c]])
             && s'.conns[c] == s.conns[c].(broken := true, out := s'.conns[c].out)
    ensures Registrant(s'.conns[c], s'.thread == SendId(c))
  {
    hide Exclusive, Talk, EncodeAll;
    var id :| id in s.registry && s.registry[id].session == c;
    RegistrantAt(s, id);
  }

  /** The bridge cannot be made: both connections are let go, and the claim is lost. */
  lemma BridgeFailsKeeps(s: State)
    requires Inv(s) && Enabled(s, BridgeFails)
    ensures Inv(Step(s, BridgeFails))
  {
    hide ArmedOk, WaitingOk, LinksOk, Spoken, Accounted, Exclusive, ThreadOk, Lossy;
    hide HandlerStep, TakeHeader, TakeBody, Relayed, ExpirationEvents, IdSet, SweepOutcome, Distinct;
    var s' := Step(s, BridgeFails);
    var c := s.thread.c;
    HandlerAlone(s, c);
    NodeDropped(s, s');
    IdleOk(s');
    LetGo(s, s', c);
    SpokenAt(s, c);
    MoreLossySpoken(s, s', c);
    DroppedConcerns(s, s', c);
    DroppedHolders(s, s', c);
  }

  lemma DroppedConcerns(s: State, s': State, c: ConnId)
    requires c in s.conns && c !in Peers(s.links) && s.lost <= s'.lost && !s.thread.SendId?
    requires s' == s.(thread := s'.thread, lost := s'.lost)
    ensures Concerns(s, s', c)
  {
    hide Peers;
  }

  lemma DroppedHolders(s: State, s': State, c: ConnId)
    requires Inv(s) && Exclusive(s') && Concerns(s, s', c) && s.thread.OpenBridge? && s.thread.c == c
    requires s'.conns == s.conns && s'.armed == s.armed && s'.registry == s.registry && s'.thread.Idle?
    requires ThreadOk(s') && SpokenConn(s'.conns[c], false, Lossy(s', c)) && Accounted(s')
    ensures Inv(s')
  {
    hide ArmedOk, WaitingOk, LinksOk, ThreadOk, Spoken, Accounted, Exclusive, SpokenConn, Concerns, Lossy, Waiting;
    HandlerAlone(s, c);
    Local(s, s', c);
  }

  lemma ProceedKeeps(s: State, verdict: Verdict, now: int)
    requires !s.thread.Idle? && s.thread.c in s.conns && (Node(s.thread) != {} ==> s.thread.streamer in s.conns)
    requires verdict.Throws? ==> Fits(Message(DISCONNECT, verdict.what), BUFFER_SIZE)
    requires Inv(s)
    ensures Inv(HandlerStep(s, verdict, now))
  {
    hide Inv;
    var c := s.thread.c;
    match s.thread
    case FirstMessage(_, m) => HandleFirstKeeps(s, c, m, verdict);
    case NextMessage(_, m) =>
      if m.kind == REGISTER_STREAMER {
        NextRegisterKeeps(s, c, m, now);
      } else if m.kind == FIND_STREAMER {
        NextFindKeeps(s, c, m);
      } else {
        NextRefusedKeeps(s, c, m);
      }
    case SendId(_) => SendIdKeeps(s, c, verdict, now);
    case SendNotFound(_) => SendNotFoundKeeps(s, c, verdict, now);
    case SendFound(_, d) => SendFoundKeeps(s, c, d, verdict, now);
    case SendStart(_, d) => SendStartKeeps(s, c, d, verdict, now);
    case OpenBridge(_, d) => OpenBridgeKeeps(s, c, d, verdict, now);
    case Unwinding(_, _) => UnwindingKeeps(s, c, verdict, now);
  }

  lemma StepKeeps(s: State, a: Action)
    requires Inv(s) && Enabled(s, a)
    ensures Inv(Step(s, a))
  {
    hide Inv, HandlerStep, TakeHeader, TakeBody, Relayed;
    match a
    case Connect(c) => ConnectKeeps(s, c);
    case PeerSends(c, bytes) =>
      EnvironmentKeeps(s, Step(s, a));
    case PeerBreaks(c) =>
      EnvironmentKeeps(s, Step(s, a));
    case WriteTears(c, m, k) => WriteTearsKeeps(s, c, m, k);
    case ReadFails(c) => ReadFailsKeeps(s, c);
    case HeaderArrives(c, what) => HeaderArrivesKeeps(s, c, what);
    case BodyArrives(c) => BodyArrivesKeeps(s, c);
    case Proceed(verdict, now) =>
      ProceedKeeps(s, verdict, now);
      TimePasses(HandlerStep(s, verdict, now), now);
    case BridgeFails => BridgeFailsKeeps(s);
    case RelayUp(i, n, written, ok) => RelayUpKeeps(s, i, n, written, ok);
    case RelayDown(i, n, written, ok) => RelayDownKeeps(s, i, n, written, ok);
    case Sweep(timeout, gone, end) => SweepKeeps(s, timeout, gone, end);
    case ResetRegistry => ResetKeeps(s);
  }
}
