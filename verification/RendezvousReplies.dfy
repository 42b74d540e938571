/** What the server tells its clients, to the letter, and that it never owes an answer: refusals, farewells,
    silence. And the clock of the registry. */
module RendezvousReplies {
  import opened Messages
  import opened Framing
  import opened Registry
  import opened Protocol
  import opened Rendezvous
  import opened RendezvousInvariant
  import opened RendezvousSteps
  import opened RendezvousTheorems
  import opened RendezvousOwnership

  // ---------------------------------------------------------------- refusals

  /** A login that was refused is told NACK and nothing else, one that failed is told why, and a client that
      did not log in is told to; if they are told anything. */
  ghost predicate Refusals(conn: Conn) {
    && (conn.verdict.Some? ==> conn.requests != [] && conn.requests[0].kind == LOGIN)
    && (conn.replies != [] ==>
          && (conn.verdict == Some(Rejected) ==> conn.replies == [Message(NACK, [])])
          && (conn.verdict.Some? && conn.verdict.value.Throws? ==>
                conn.replies == [Message(DISCONNECT, conn.verdict.value.what)])
          && (conn.requests != [] && conn.requests[0].kind != LOGIN ==>
                conn.replies == [Message(DISCONNECT, Text("You have to login first."))]))
  }

  ghost predicate Farewell(s: State) {
    s.thread.Unwinding? && s.thread.c in s.conns && !s.conns[s.thread.c].broken ==>
      && Refusals(Said(s.conns[s.thread.c], Message(DISCONNECT, s.thread.what)))
      && |s.conns[s.thread.c].requests| <= |s.conns[s.thread.c].replies| + 1
  }

  /** Every request has been answered, except by a connection that broke, or the one that is being handled. */
  ghost predicate Answered(s: State, c: ConnId) {
    c in s.conns && !s.conns[c].broken && !Holds(s, Handler, c) ==> |s.conns[c].requests| <= |s.conns[c].replies|
  }

  ghost predicate Correct(s: State) {
    && (forall c :: c in s.conns ==> Refusals(s.conns[c]) && Answered(s, c))
    && Farewell(s)
  }

  ghost predicate SameTalk(a: Conn, b: Conn) {
    b.requests == a.requests && b.replies == a.replies && b.verdict == a.verdict && (a.broken ==> b.broken)
  }

  // a connection that logged in
  ghost predicate User(conn: Conn) {
    conn.verdict == Some(Accepted) && conn.requests != [] && conn.requests[0].kind == LOGIN && conn.replies != []
  }

  lemma EndedUser(conn: Conn, kind: MessageType, tail: seq<Message>)
    requires Ended(conn, kind, tail)
    ensures User(conn) && |conn.replies| == |conn.requests| - 1 + |tail|
  {
    assert conn.requests[0] == Front(conn.requests)[0];
  }

  /** A step on which nothing is said: only the environment's doing. */
  lemma QuietKeeps(s: State, s': State)
    requires Correct(s) && s.conns.Keys == s'.conns.Keys && s'.thread == s.thread
    requires forall c :: c in s.conns ==> SameTalk(s.conns[c], s'.conns[c])
    ensures Correct(s')
  {
  }

  /** A step on one connection: what has to be shown of it. */
  lemma OneTalks(s: State, s': State, c: ConnId)
    requires Correct(s) && c in s'.conns && s'.conns.Keys == s.conns.Keys + {c}
    requires forall d :: d in s.conns && d != c ==> s'.conns[d] == s.conns[d]
    requires Holds(s', Handler, c) || s'.thread.Idle?
    requires s.thread.Idle? || Holds(s, Handler, c)
    requires Refusals(s'.conns[c]) && Answered(s', c) && Farewell(s')
    ensures Correct(s')
  {
    hide Refusals, Farewell;
  }

  lemma ConnectCorrect(s: State, c: ConnId)
    requires Correct(s) && Exclusive(s) && Enabled(s, Connect(c))
    ensures Correct(Step(s, Connect(c)))
  {
    hide HandlerStep, TakeHeader, TakeBody, Relayed, ExpirationEvents, Exclusive;
    ConnectExclusive(s, c);
  }

  lemma HeaderCorrect(s: State, c: ConnId, what: seq<byte>)
    requires c in s.armed && c in s.conns && s.thread.Idle? && s.conns[c].taken + HEADER_SIZE <= |s.conns[c].sent|
    requires ArmedConn(s.conns[c], s.armed[c]) && Correct(s)
    ensures Correct(TakeHeader(s, c, what))
  {
    hide ReadTo, Deserialize, Correct, EncodeFrame, ArmedConn;
    var conn, s' := s.conns[c], TakeHeader(s, c, what);
    ArmedTalk(conn, s.armed[c], Message(DISCONNECT, what));
    assert Refusals(conn) by { CorrectAt(s, c); }
    if s'.thread.Idle? {
      QuietKeeps(s, s');
    } else {
      OneTalks(s, s', c);
    }
  }

  lemma CorrectAt(s: State, c: ConnId)
    requires Correct(s) && c in s.conns
    ensures Refusals(s.conns[c]) && Answered(s, c)
  {
    hide Refusals;
  }

  lemma ArmedTalk(conn: Conn, arm: Arm, farewell: Message)
    requires ArmedConn(conn, arm)
    ensures User(conn) || (conn.requests == [] && conn.replies == [] && conn.verdict == None)
    ensures |conn.requests| == |conn.replies|
    ensures forall taken :: Refusals(Said(conn.(taken := taken), farewell))
  {
    hide ReadTo, EncodeFrame;
  }

  lemma BodyCorrect(s: State, c: ConnId)
    requires c in s.armed && c in s.conns && s.thread.Idle? && s.armed[c].header.Some?
    requires s.conns[c].taken + s.armed[c].header.value.length <= |s.conns[c].sent|
    requires ArmedConn(s.conns[c], s.armed[c]) && Correct(s)
    ensures Correct(TakeBody(s, c))
  {
    hide ReadTo, Correct, ArmedConn;
    ArmedTalk(s.conns[c], s.armed[c], START);
    CorrectAt(s, c);
    OneTalks(s, TakeBody(s, c), c);
  }

  lemma FirstCorrect(s: State, c: ConnId, m: Message, verdict: Verdict)
    requires Correct(s) && ThreadOk(s) && c in s.conns && s.thread == FirstMessage(c, m)
    ensures Correct(HandleFirst(s, c, m, verdict))
  {
    hide Correct, ReadTo, EncodeFrame, Text;
    FirstAt(s, c, m);
    CorrectAt(s, c);
    OneTalks(s, HandleFirst(s, c, m, verdict), c);
  }

  lemma NextCorrect(s: State, c: ConnId, m: Message, now: int)
    requires Correct(s) && ThreadOk(s) && c in s.conns && s.thread == NextMessage(c, m)
    ensures Correct(HandleNext(s, c, m, now))
  {
    hide Correct, ReadTo, EncodeFrame, NotExpected, Ended;
    NextAt(s, c, m);
    EndedUser(s.conns[c], m.kind, []);
    CorrectAt(s, c);
    OneTalks(s, HandleNext(s, c, m, now), c);
  }

  lemma ReplyCorrect(s: State, verdict: Verdict, now: int)
    requires Correct(s) && ThreadOk(s) && Exclusive(s) && WaitingOk(s) && Enabled(s, Proceed(verdict, now))
    requires s.thread.SendId? || s.thread.SendNotFound? || s.thread.Unwinding?
    ensures Correct(HandlerStep(s, verdict, now))
  {
    hide Correct, ReadTo, EncodeFrame, Ended, HandleFirst, HandleNext, Enabled, Exclusive, WaitingOk;
    ProceedIs(s, verdict, now);
    var c := s.thread.c;
    ThreadAt(s);
    CorrectAt(s, c);
    assert Farewell(s) by { CorrectFarewell(s); }
    if s.thread.SendId? { EndedUser(s.conns[c], REGISTER_STREAMER, []); }
    if s.thread.SendNotFound? { EndedUser(s.conns[c], FIND_STREAMER, []); }
    if s.thread.Unwinding? && !s.conns[c].broken { assert |s.conns[c].requests| <= |s.conns[c].replies| + 1; }
    OneTalks(s, HandlerStep(s, verdict, now), c);
  }

  lemma CorrectFarewell(s: State)
    requires Correct(s)
    ensures Farewell(s)
  {
    hide Refusals;
  }

  /** While two connections are being joined both have logged in and have all their answers. */
  lemma HandOffCorrect(s: State, s': State, c: ConnId, d: ConnId)
    requires Correct(s) && c in s.conns && d in s.conns && c != d && Holds(s, Handler, c)
    requires s'.conns.Keys == s.conns.Keys && forall x :: x in s.conns && x != c && x != d ==> s'.conns[x] == s.conns[x]
    requires User(s'.conns[c]) && User(s'.conns[d])
    requires |s'.conns[c].requests| <= |s'.conns[c].replies| + 1
    requires !s'.conns[d].broken ==> |s'.conns[d].requests| <= |s'.conns[d].replies|
    requires Holds(s', Handler, c) || (s'.thread.Idle? && |s'.conns[c].requests| <= |s'.conns[c].replies|)
    ensures Correct(s')
  {
    hide EncodeFrame, Text;
  }

  lemma JoiningCorrect(s: State, verdict: Verdict, now: int)
    requires Correct(s) && ThreadOk(s) && Exclusive(s) && Enabled(s, Proceed(verdict, now))
    requires s.thread.SendFound? || s.thread.SendStart? || s.thread.OpenBridge?
    ensures Correct(HandlerStep(s, verdict, now))
  {
    hide Correct, ReadTo, EncodeFrame, Ended, HandleFirst, HandleNext, Enabled, Exclusive, Registrant;
    ProceedIs(s, verdict, now);
    var c, d := s.thread.c, s.thread.streamer;
    NodeAlone(s, d);
    JoiningUsers(s);
    HandOffCorrect(s, HandlerStep(s, verdict, now), c, d);
  }

  lemma JoiningUsers(s: State)
    requires ThreadOk(s) && (s.thread.SendFound? || s.thread.SendStart? || s.thread.OpenBridge?)
    ensures s.thread.c in s.conns && s.thread.streamer in s.conns
    ensures var conn, streamer := s.conns[s.thread.c], s.conns[s.thread.streamer];
            && User(conn) && User(streamer) && |conn.requests| <= |conn.replies| + 1
            && (!s.thread.SendFound? ==> |conn.requests| <= |conn.replies|)
            && (!streamer.broken ==> |streamer.requests| <= |streamer.replies|)
  {
    hide ReadTo, Ended, Registrant;
    ThreadAt(s);
    var conn, streamer := s.conns[s.thread.c], s.conns[s.thread.streamer];
    EndedUser(conn, FIND_STREAMER, if s.thread.SendFound? then [] else [ACCEPT]);
    if s.thread.OpenBridge? {
      EndedUser(streamer, REGISTER_STREAMER, [GRANTED, START]);
    } else {
      RegistrantUser(streamer);
    }
  }

  lemma RegistrantUser(conn: Conn)
    requires Registrant(conn, false)
    ensures User(conn) && (!conn.broken ==> |conn.requests| <= |conn.replies|)
  {
    hide ReadTo, Ended;
    RegistrantIs(conn, false);
    if Ended(conn, REGISTER_STREAMER, [GRANTED]) { EndedUser(conn, REGISTER_STREAMER, [GRANTED]); }
    else { EndedUser(conn, REGISTER_STREAMER, []); }
  }

  lemma FailedBridgeCorrect(s: State)
    requires Correct(s) && ThreadOk(s) && Exclusive(s) && Enabled(s, BridgeFails)
    ensures Correct(Step(s, BridgeFails))
  {
    hide Correct, HandlerStep, TakeHeader, TakeBody, Relayed, ExpirationEvents, Exclusive, ReadTo, Ended;
    NodeAlone(s, s.thread.streamer);
    JoiningUsers(s);
    HandOffCorrect(s, Step(s, BridgeFails), s.thread.c, s.thread.streamer);
  }

  lemma ProceedCorrect(s: State, verdict: Verdict, now: int)
    requires Correct(s) && Inv(s) && Enabled(s, Proceed(verdict, now))
    ensures Correct(Step(s, Proceed(verdict, now)))
  {
    hide Correct, Inv, HandlerStep, HandleFirst, HandleNext, Step, Enabled, ThreadOk, Exclusive, WaitingOk;
    InvParts(s);
    ProceedIs(s, verdict, now);
    WaitingPart(s);
    match s.thread {
      case FirstMessage(c, m) =>
        FirstCorrect(s, c, m, verdict);
        FirstIs(s, c, m, verdict, now);
      case NextMessage(c, m) =>
        NextCorrect(s, c, m, now);
        NextIs(s, c, m, verdict, now);
      case SendFound(_, _) => JoiningCorrect(s, verdict, now);
      case SendStart(_, _) => JoiningCorrect(s, verdict, now);
      case OpenBridge(_, _) => JoiningCorrect(s, verdict, now);
      case _ => ReplyCorrect(s, verdict, now);
    }
    QuietClock(HandlerStep(s, verdict, now), now);
  }

  lemma WaitingPart(s: State)
    requires Inv(s)
    ensures WaitingOk(s)
  {
    hide ArmedOk, WaitingOk, LinksOk, Spoken, Accounted, Exclusive, ThreadOk;
  }

  lemma FirstIs(s: State, c: ConnId, m: Message, verdict: Verdict, now: int)
    requires c in s.conns && s.thread == FirstMessage(c, m)
    ensures HandlerStep(s, verdict, now) == HandleFirst(s, c, m, verdict)
  {
    hide HandleFirst;
  }

  lemma NextIs(s: State, c: ConnId, m: Message, verdict: Verdict, now: int)
    requires c in s.conns && s.thread == NextMessage(c, m)
    ensures HandlerStep(s, verdict, now) == HandleNext(s, c, m, now)
  {
    hide HandleNext;
  }

  lemma QuietClock(s: State, now: int)
    requires Correct(s)
    ensures Correct(s.(clock := now))
  {
    hide Refusals;
  }

  lemma RelayCorrect(s: State, a: Action)
    requires Correct(s) && Enabled(s, a) && (a.RelayUp? || a.RelayDown?)
    ensures Correct(Step(s, a))
  {
    hide Correct, HandlerStep, TakeHeader, TakeBody, ExpirationEvents;
    QuietKeeps(s, Step(s, a));
  }

  lemma EnvironmentCorrect(s: State, a: Action)
    requires Correct(s) && Enabled(s, a)
    requires a.PeerSends? || a.PeerBreaks? || a.WriteTears? || a.ReadFails? || a.Sweep? || a.ResetRegistry?
    ensures Correct(Step(s, a))
  {
    hide Correct, HandlerStep, TakeHeader, TakeBody, ExpirationEvents, EncodeFrame, SweepOutcome, Distinct;
    QuietKeeps(s, Step(s, a));
  }

  lemma StepCorrect(s: State, a: Action)
    requires Correct(s) && Inv(s) && Enabled(s, a)
    ensures Correct(Step(s, a))
  {
    hide Correct, Inv, Enabled, HandlerStep, TakeHeader, TakeBody, Relayed, ExpirationEvents, Exclusive, ThreadOk;
    InvParts(s);
    match a
    case Connect(c) => ConnectCorrect(s, c);
    case HeaderArrives(c, what) =>
      ArmedParts(s, a);
      HeaderCorrect(s, c, what);
    case BodyArrives(c) =>
      ArmedParts(s, a);
      BodyCorrect(s, c);
    case Proceed(verdict, now) => ProceedCorrect(s, verdict, now);
    case BridgeFails => FailedBridgeCorrect(s);
    case RelayUp(_, _, _, _) => RelayCorrect(s, a);
    case RelayDown(_, _, _, _) => RelayCorrect(s, a);
    case _ => EnvironmentCorrect(s, a);
  }

  lemma ArmedParts(s: State, a: Action)
    requires ArmedOk(s) && Enabled(s, a) && (a.HeaderArrives? || a.BodyArrives?)
    ensures a.c in s.armed && a.c in s.conns && s.thread.Idle? && ArmedConn(s.conns[a.c], s.armed[a.c])
    ensures a.HeaderArrives? ==> s.conns[a.c].taken + HEADER_SIZE <= |s.conns[a.c].sent|
    ensures a.BodyArrives? ==> s.armed[a.c].header.Some?
                               && s.conns[a.c].taken + s.armed[a.c].header.value.length <= |s.conns[a.c].sent|
  {
    hide ArmedConn;
  }

  lemma {:induction false} RunCorrect(s: State, actions: seq<Action>)
    requires Inv(s) && Correct(s) && CanRun(s, actions)
    ensures Correct(Run(s, actions))
    decreases |actions|
  {
    hide Inv, Correct, Step, Enabled;
    if actions != [] {
      StepKeeps(s, actions[0]);
      StepCorrect(s, actions[0]);
      RunCorrect(Step(s, actions[0]), actions[1..]);
    }
  }

  /** In every reachable state: a refused login has been told NACK and nothing else, one whose credentials
      could not be checked why, a client that did not log in that it has to; each if it has been told
      anything. And it has been told, unless its connection broke or it is being handled: every request that
      was read has its answer. */
  lemma RefusedToTheLetter(s: State, c: ConnId)
    requires Reachable(s) && c in s.conns
    ensures var conn := s.conns[c];
            && (conn.verdict.Some? ==> conn.requests != [] && conn.requests[0].kind == LOGIN)
            && (conn.replies != [] ==>
                  && (conn.verdict == Some(Rejected) ==> conn.replies == [Message(NACK, [])])
                  && (conn.verdict.Some? && conn.verdict.value.Throws? ==>
                        conn.replies == [Message(DISCONNECT, conn.verdict.value.what)])
                  && (conn.requests != [] && conn.requests[0].kind != LOGIN ==>
                        conn.replies == [Message(DISCONNECT, Text("You have to login first."))]))
            && (!conn.broken && !Holds(s, Handler, c) ==> |conn.requests| <= |conn.replies|)
  {
    hide Step, Enabled, Inv, Text;
    var actions :| CanRun(INITIAL, actions) && Run(INITIAL, actions) == s;
    InitialInv();
    RunCorrect(INITIAL, actions);
    CorrectAt(s, c);
  }

  // ---------------------------------------------------------------- farewells

  /** The exception is on its way to the client before each of these steps, and the handler is done after
      them. */
  ghost predicate Parting(s: State, actions: seq<Action>)
    requires CanRun(s, actions)
    decreases |actions|
  {
    if actions == [] then s.thread.Idle? else s.thread.Unwinding? && Parting(Step(s, actions[0]), actions[1..])
  }

  /** Whatever else happens meanwhile, a client whose handler failed is told why, unless its connection
      breaks. */
  lemma {:induction false} FarewellIsSaid(s: State, c: ConnId, what: seq<byte>, actions: seq<Action>)
    requires s.thread == Unwinding(c, what) && c in s.conns && CanRun(s, actions) && Parting(s, actions)
    ensures c in Run(s, actions).conns
    ensures Run(s, actions).conns[c].broken
            || Run(s, actions).conns[c].replies == s.conns[c].replies + [Message(DISCONNECT, what)]
    decreases |actions|
  {
    hide Step, Enabled;
    var s1 := Step(s, actions[0]);
    PartingStep(s, c, what, actions[0]);
    if s1.thread.Idle? {
      NothingAfter(s1, actions[1..]);
    } else {
      FarewellIsSaid(s1, c, what, actions[1..]);
      if s1.conns[c].broken { StaysBroken(s1, actions[1..], c); }
    }
  }

  lemma NothingAfter(s: State, actions: seq<Action>)
    requires s.thread.Idle? && CanRun(s, actions) && Parting(s, actions)
    ensures Run(s, actions) == s
  {
  }

  lemma PartingStep(s: State, c: ConnId, what: seq<byte>, a: Action)
    requires s.thread == Unwinding(c, what) && c in s.conns && Enabled(s, a)
    ensures var s' := Step(s, a);
            && c in s'.conns && (s'.thread == s.thread || s'.thread.Idle?)
            && (if s'.thread == s.thread then SameTalk(s.conns[c], s'.conns[c])
                else if s.conns[c].broken then s'.conns[c].broken
                else s'.conns[c].replies == s.conns[c].replies + [Message(DISCONNECT, what)])
  {
    hide HandleFirst, HandleNext, TakeHeader, TakeBody, Relayed, ExpirationEvents, EncodeFrame, SweepOutcome, Distinct;
  }

  lemma BreakStep(s: State, a: Action, c: ConnId)
    requires Enabled(s, a) && c in s.conns
    ensures c in Step(s, a).conns && (s.conns[c].broken ==> Step(s, a).conns[c].broken)
    ensures s.conns[c].replies <= Step(s, a).conns[c].replies
  {
    hide HandlerStep, TakeHeader, TakeBody, ExpirationEvents, EncodeFrame, SweepOutcome, Distinct;
    match a
    case HeaderArrives(x, what) => HeaderBreak(s, x, what, c);
    case BodyArrives(x) => BodyBreak(s, x, c);
    case Proceed(verdict, now) => HandlerBreak(s, verdict, now, c);
    case _ =>
  }

  lemma HeaderBreak(s: State, x: ConnId, what: seq<byte>, c: ConnId)
    requires Enabled(s, HeaderArrives(x, what)) && c in s.conns
    ensures var s' := TakeHeader(s, x, what);
            c in s'.conns && s'.conns[c].broken == s.conns[c].broken && s'.conns[c].replies == s.conns[c].replies
  {
    hide Deserialize;
  }

  lemma BodyBreak(s: State, x: ConnId, c: ConnId)
    requires Enabled(s, BodyArrives(x)) && c in s.conns
    ensures var s' := TakeBody(s, x);
            c in s'.conns && s'.conns[c].broken == s.conns[c].broken && s'.conns[c].replies == s.conns[c].replies
  {
  }

  lemma HandlerBreak(s: State, verdict: Verdict, now: int, c: ConnId)
    requires Enabled(s, Proceed(verdict, now)) && c in s.conns
    ensures var s' := HandlerStep(s, verdict, now);
            c in s'.conns && s'.conns[c].broken == s.conns[c].broken && s.conns[c].replies <= s'.conns[c].replies
  {
    hide HandleFirst, HandleNext, EncodeFrame, Enabled;
    ProceedIs(s, verdict, now);
    if s.thread.FirstMessage? { FirstBreak(s, s.thread.c, s.thread.m, verdict, c); }
    if s.thread.NextMessage? { NextBreak(s, s.thread.c, s.thread.m, now, c); }
  }

  lemma FirstBreak(s: State, x: ConnId, m: Message, verdict: Verdict, c: ConnId)
    requires x in s.conns && c in s.conns
    ensures var s' := HandleFirst(s, x, m, verdict);
            c in s'.conns && s'.conns[c].broken == s.conns[c].broken && s.conns[c].replies <= s'.conns[c].replies
  {
    hide EncodeFrame, OnFirstMessage;
  }

  lemma NextBreak(s: State, x: ConnId, m: Message, now: int, c: ConnId)
    requires x in s.conns && c in s.conns
    ensures var s' := HandleNext(s, x, m, now);
            c in s'.conns && s'.conns[c].broken == s.conns[c].broken && s.conns[c].replies <= s'.conns[c].replies
  {
    hide EncodeFrame, NotExpected;
  }

  lemma {:induction false} StaysBroken(s: State, actions: seq<Action>, c: ConnId)
    requires CanRun(s, actions) && c in s.conns && s.conns[c].broken
    ensures c in Run(s, actions).conns && Run(s, actions).conns[c].broken
    decreases |actions|
  {
    hide Step, Enabled;
    if actions != [] {
      BreakStep(s, actions[0], c);
      StaysBroken(Step(s, actions[0]), actions[1..], c);
    }
  }

  // ---------------------------------------------------------------- silence

  /** A client that has been told nothing is still being listened to or handled, or its connection broke. */
  ghost predicate Heard(s: State, c: ConnId) {
    c in s.conns && s.conns[c].replies == [] && !s.conns[c].broken ==> c in s.armed || Holds(s, Handler, c)
  }

  lemma HeardAfter(s: State, a: Action, c: ConnId)
    requires Inv(s) && Heard(s, c) && Enabled(s, a) && a != ReadFails(c)
    ensures Heard(Step(s, a), c)
  {
    hide Inv, Step, Enabled, Exclusive, ThreadOk, Heard;
    InvParts(s);
    if c !in s.conns {
      NewIsHeard(s, a, c);
    } else if a.HeaderArrives? {
      HeaderHeard(s, a.c, a.what, c);
    } else if a.BodyArrives? {
      BodyHeard(s, a.c, c);
    } else if a.Proceed? {
      ProceedIs(s, a.verdict, a.now);
      HandlerHeard(s, a.verdict, a.now, c);
      HeardClock(HandlerStep(s, a.verdict, a.now), a.now, c);
    } else if a.BridgeFails? {
      FailedHeard(s, c);
    } else {
      OthersHeard(s, a, c);
    }
  }

  lemma HeardClock(s: State, now: int, c: ConnId)
    requires Heard(s, c)
    ensures Heard(s.(clock := now), c)
  {
  }

  lemma FailedHeard(s: State, c: ConnId)
    requires ThreadOk(s) && Heard(s, c) && Enabled(s, BridgeFails)
    ensures Heard(Step(s, BridgeFails), c)
  {
    hide ThreadOk, HandlerStep, TakeHeader, TakeBody, Relayed, ExpirationEvents;
    JoiningUsers(s);
  }

  lemma OthersHeard(s: State, a: Action, c: ConnId)
    requires Heard(s, c) && c in s.conns && Enabled(s, a) && a != ReadFails(c)
    requires !a.HeaderArrives? && !a.BodyArrives? && !a.Proceed? && !a.BridgeFails?
    ensures Heard(Step(s, a), c)
  {
    hide HandlerStep, TakeHeader, TakeBody, ExpirationEvents, EncodeFrame, SweepOutcome, Distinct;
  }

  lemma NewIsHeard(s: State, a: Action, c: ConnId)
    requires Exclusive(s) && Enabled(s, a) && c !in s.conns
    ensures Heard(Step(s, a), c)
  {
    hide HandlerStep, TakeHeader, TakeBody, ExpirationEvents, EncodeFrame, SweepOutcome, Distinct, Exclusive;
    if a.Proceed? { HandlerConns(s, a.verdict, a.now); }
    if a.HeaderArrives? { HeaderConns(s, a.c, a.what); }
    if a.BodyArrives? { BodyConns(s, a.c); }
  }

  lemma HeaderConns(s: State, c: ConnId, what: seq<byte>)
    requires Enabled(s, HeaderArrives(c, what))
    ensures TakeHeader(s, c, what).conns.Keys == s.conns.Keys
  {
    hide Deserialize;
  }

  lemma BodyConns(s: State, c: ConnId)
    requires Enabled(s, BodyArrives(c))
    ensures TakeBody(s, c).conns.Keys == s.conns.Keys
  {
  }

  lemma HeaderHeard(s: State, x: ConnId, what: seq<byte>, c: ConnId)
    requires Enabled(s, HeaderArrives(x, what)) && Heard(s, c) && c in s.conns
    ensures Heard(Step(s, HeaderArrives(x, what)), c)
  {
    hide Deserialize, HandlerStep, TakeBody, Relayed, ExpirationEvents;
  }

  lemma BodyHeard(s: State, x: ConnId, c: ConnId)
    requires Enabled(s, BodyArrives(x)) && Heard(s, c) && c in s.conns
    ensures Heard(Step(s, BodyArrives(x)), c)
  {
    hide HandlerStep, TakeHeader, Relayed, ExpirationEvents;
  }

  lemma HandlerHeard(s: State, verdict: Verdict, now: int, c: ConnId)
    requires ThreadOk(s) && Heard(s, c) && Enabled(s, Proceed(verdict, now)) && c in s.conns
    ensures Heard(HandlerStep(s, verdict, now), c)
  {
    hide EncodeFrame, Enabled, ThreadOk, HandleFirst, HandleNext;
    ProceedIs(s, verdict, now);
    HandlerBreak(s, verdict, now, c);
    if s.thread.FirstMessage? {
      FirstHeard(s, s.thread.c, s.thread.m, verdict, c);
    } else if s.thread.c == c && !s.thread.Unwinding? {
      HandledHasReplies(s);
    } else if s.thread.NextMessage? {
      NextHeard(s, s.thread.c, s.thread.m, now, c);
    }
  }

  lemma FirstHeard(s: State, x: ConnId, m: Message, verdict: Verdict, c: ConnId)
    requires s.thread == FirstMessage(x, m) && x in s.conns && c in s.conns && Heard(s, c)
    ensures Heard(HandleFirst(s, x, m, verdict), c)
  {
    hide EncodeFrame, OnFirstMessage;
  }

  lemma NextHeard(s: State, x: ConnId, m: Message, now: int, c: ConnId)
    requires s.thread == NextMessage(x, m) && x in s.conns && c in s.conns && c != x && Heard(s, c)
    ensures Heard(HandleNext(s, x, m, now), c)
  {
    hide EncodeFrame, NotExpected;
  }

  lemma HandledHasReplies(s: State)
    requires ThreadOk(s) && !s.thread.Idle? && !s.thread.FirstMessage? && !s.thread.Unwinding?
    ensures s.thread.c in s.conns && s.conns[s.thread.c].replies != []
  {
    hide ReadTo, Ended, Registrant, Whole;
    assert s.thread.c in Main(s.thread);
    var conn := s.conns[s.thread.c];
    match s.thread
    case NextMessage(_, m) => EndedUser(conn, m.kind, []);
    case SendId(_) => EndedUser(conn, REGISTER_STREAMER, []);
    case SendNotFound(_) => EndedUser(conn, FIND_STREAMER, []);
    case SendFound(_, _) => EndedUser(conn, FIND_STREAMER, []);
    case _ => EndedUser(conn, FIND_STREAMER, [ACCEPT]);
  }

  lemma {:induction false} RunHeard(s: State, actions: seq<Action>, c: ConnId)
    requires Inv(s) && Heard(s, c) && CanRun(s, actions) && ReadFails(c) !in actions
    ensures Heard(Run(s, actions), c)
    decreases |actions|
  {
    hide Inv, Heard, Step, Enabled;
    if actions != [] {
      assert actions[0] in actions;
      StepKeeps(s, actions[0]);
      HeardAfter(s, actions[0], c);
      assert forall a :: a in actions[1..] ==> a in actions;
      RunHeard(Step(s, actions[0]), actions[1..], c);
    }
  }

  /** In every run: a client has been told nothing only if its connection broke, its read failed, a read of
      its messages is still armed, or it is being handled. */
  lemma NobodyIsIgnored(actions: seq<Action>, c: ConnId)
    requires CanRun(INITIAL, actions) && c in Run(INITIAL, actions).conns
             && Run(INITIAL, actions).conns[c].replies == []
    ensures var s := Run(INITIAL, actions);
            s.conns[c].broken || ReadFails(c) in actions || Holds(s, ArmedRead, c) || Holds(s, Handler, c)
  {
    hide Inv, Step, Enabled;
    InitialInv();
    if ReadFails(c) !in actions { RunHeard(INITIAL, actions, c); }
  }

  // ---------------------------------------------------------------- the clock

  /** Registrations bear times that the clock has shown. */
  ghost predicate InThePast(s: State) {
    forall id :: id in s.registry ==> s.registry[id].timePoint <= s.clock
  }

  lemma ClockStep(s: State, a: Action)
    requires InThePast(s) && Enabled(s, a)
    ensures InThePast(Step(s, a)) && s.clock <= Step(s, a).clock
  {
    hide HandlerStep, TakeHeader, TakeBody, ExpirationEvents, EncodeFrame, SweepOutcome, Distinct;
    match a
    case HeaderArrives(c, what) => HeaderClock(s, c, what);
    case BodyArrives(c) => BodyClock(s, c);
    case Proceed(verdict, now) => HandlerClock(s, verdict, now);
    case _ =>
  }

  lemma HeaderClock(s: State, c: ConnId, what: seq<byte>)
    requires Enabled(s, HeaderArrives(c, what))
    ensures TakeHeader(s, c, what).registry == s.registry && TakeHeader(s, c, what).clock == s.clock
  {
    hide Deserialize;
  }

  lemma BodyClock(s: State, c: ConnId)
    requires Enabled(s, BodyArrives(c))
    ensures TakeBody(s, c).registry == s.registry && TakeBody(s, c).clock == s.clock
  {
  }

  lemma HandlerClock(s: State, verdict: Verdict, now: int)
    requires Enabled(s, Proceed(verdict, now)) && InThePast(s)
    ensures forall id :: id in HandlerStep(s, verdict, now).registry ==>
              HandlerStep(s, verdict, now).registry[id].timePoint <= now
  {
    hide Said, NotExpected, OnFirstMessage;
  }

  lemma {:induction false} RunClock(s: State, actions: seq<Action>)
    requires InThePast(s) && CanRun(s, actions)
    ensures InThePast(Run(s, actions)) && s.clock <= Run(s, actions).clock
    decreases |actions|
  {
    hide InThePast, Step, Enabled;
    if actions != [] {
      ClockStep(s, actions[0]);
      RunClock(Step(s, actions[0]), actions[1..]);
    }
  }

  /** Time and registrations: in every reachable state no entry is from the future; the clock never goes back;
      and a sweep takes only entries that are older than the timeout when it ends, all of those that were
      older when it began. */
  lemma SweepsInTime(s: State, timeout: int, gone: seq<Id>, end: int, id: Id)
    requires Reachable(s) && id in s.registry && Enabled(s, Sweep(timeout, gone, end))
    ensures s.registry[id].timePoint <= s.clock <= end == Step(s, Sweep(timeout, gone, end)).clock
    ensures id in Step(s, Sweep(timeout, gone, end)).registry ==> s.clock - s.registry[id].timePoint <= timeout
    ensures id !in Step(s, Sweep(timeout, gone, end)).registry ==> end - s.registry[id].timePoint > timeout
  {
    hide Run, CanRun, HandlerStep, TakeHeader, TakeBody, Relayed, ExpirationEvents;
    EntriesInThePast(s);
  }

  lemma EntriesInThePast(s: State)
    requires Reachable(s)
    ensures InThePast(s)
  {
    hide Step, Enabled, InThePast;
    var actions :| CanRun(INITIAL, actions) && Run(INITIAL, actions) == s;
    assert InThePast(INITIAL) by { NoEntries(); }
    RunClock(INITIAL, actions);
  }

  lemma NoEntries()
    ensures InThePast(INITIAL)
  {
  }
}
