/** The handlers of the transition system keep the contract of `ProxySession`, whatever the cleaner, the
    peers and failing writes do in the middle of them. */
module Handlers {
  import opened Messages
  import opened Framing
  import opened Registry
  import opened Protocol
  import opened Rendezvous
  import opened RendezvousInvariant
  import opened RendezvousSteps
  import opened RendezvousTheorems
  import opened RendezvousOwnership

  // ---------------------------------------------------------------- the first message

  /** `authenticateCallback` is one step: its decision is carried out, and it fails only because of the
      verdict or of the connection (`ProxySession.AuthenticateCallback`). */
  lemma FirstAsSession(s: State, c: ConnId, m: Message, verdict: Verdict, now: int)
    requires Reachable(s) && s.thread == FirstMessage(c, m) && Enabled(s, Proceed(verdict, now))
    ensures c in s.conns && c !in s.armed
    ensures var s' := Step(s, Proceed(verdict, now));
            && c in s'.conns && Over(s'.thread)
            && CarriedOut(OnFirstMessage(m, verdict), s.conns[c].out, s'.conns[c].out, c in s'.armed,
               s'.thread.Unwinding?)
            && (s'.thread.Unwinding? ==> OnFirstMessage(m, verdict).Raise? || s'.conns[c].broken)
            && (c in s'.armed ==> s'.armed[c] == Arm(AfterLogin, None))
  {
    hide Reachable, Inv, Step, Exclusive, Enabled, HandlerStep, OnFirstMessage;
    ReachableInv(s);
    InvParts(s);
    HandlerAlone(s, c);
    ProceedIs(s, verdict, now);
    FirstCarriedOut(s, c, m, verdict, now);
  }

  lemma FirstCarriedOut(s: State, c: ConnId, m: Message, verdict: Verdict, now: int)
    requires s.thread == FirstMessage(c, m) && c in s.conns && c !in s.armed
    ensures var s' := HandlerStep(s, verdict, now);
            && c in s'.conns && Over(s'.thread)
            && CarriedOut(OnFirstMessage(m, verdict), s.conns[c].out, s'.conns[c].out, c in s'.armed,
               s'.thread.Unwinding?)
            && (s'.thread.Unwinding? ==> OnFirstMessage(m, verdict).Raise? || s'.conns[c].broken)
            && (c in s'.armed ==> s'.armed[c] == Arm(AfterLogin, None))
  {
    hide EncodeFrame, OnFirstMessage;
  }

  // ---------------------------------------------------------------- later messages

  /** The handler is done with its connection, or has thrown. */
  predicate Over(t: Thread) {
    t.Idle? || t.Unwinding?
  }

  /** The handler is at work before each of these steps, of its own or of others, and over after them. */
  ghost predicate Working(s: State, actions: seq<Action>)
    requires CanRun(s, actions)
    decreases |actions|
  {
    if actions == [] then Over(s.thread) else !Over(s.thread) && Working(Step(s, actions[0]), actions[1..])
  }

  /** What the handler found when it began: the connection and the message, whether what a find asks for was
      registered and by whom, what had been written to the two, and the bridges. */
  datatype Beginning = Beginning(c: ConnId, m: Message, found: bool, d: ConnId, out: seq<byte>, outD: seq<byte>,
      links: seq<Link>)

  ghost predicate Known(b: Beginning, s: State) {
    b.c in s.conns && (b.found ==> b.d in s.conns && b.d != b.c)
  }

  // written so far, if a write has torn, some first part of the message
  ghost predicate Partly(out: seq<byte>, conn: Conn, m: Message) {
    out <= conn.out <= out + EncodeFrame(m) && (conn.out != out ==> conn.broken)
  }

  /** How far the handler has come. */
  ghost predicate Underway(b: Beginning, s: State) {
    && Known(b, s) && s.links == b.links && b.c !in s.armed
    && var conn := s.conns[b.c];
    match s.thread
    case SendId(c) => c == b.c && b.m.kind == REGISTER_STREAMER && Partly(b.out, conn, GRANTED)
    case SendNotFound(c) => c == b.c && b.m.kind == FIND_STREAMER && !b.found && Partly(b.out, conn, REFUSE)
    case SendFound(c, d) =>
      && c == b.c && b.m.kind == FIND_STREAMER && b.found && d == b.d
      && Partly(b.out, conn, ACCEPT) && s.conns[d].out == b.outD
    case SendStart(c, d) =>
      && c == b.c && b.m.kind == FIND_STREAMER && b.found && d == b.d
      && conn.out == b.out + EncodeFrame(ACCEPT) && Partly(b.outD, s.conns[d], START)
    case OpenBridge(c, d) =>
      && c == b.c && b.m.kind == FIND_STREAMER && b.found && d == b.d
      && conn.out == b.out + EncodeFrame(ACCEPT) && s.conns[d].out == b.outD + EncodeFrame(START)
    case _ => false
  }

  /** How it ended: its answer carried out, and with it a bridge if there was to be one; or with an
      exception, for which its own connection or the streamer's is to blame. */
  ghost predicate Ending(b: Beginning, s: State, threw: bool) {
    && Known(b, s)
    && CarriedOut(OnMessage(b.m, b.found), b.out, s.conns[b.c].out, b.c in s.armed, threw)
    && (b.c in s.armed ==> s.armed[b.c] == Arm(AfterLogin, None))
    && (threw ==> s.conns[b.c].broken || (Finding(b) && s.conns[b.d].broken))
    && (s.thread.Unwinding? ==> threw && s.thread.c == b.c)
    && (if Finding(b) && !threw
        then s.links == b.links + [Link(b.d, b.c, 0, 0, true, true)] && s.conns[b.d].out == b.outD + EncodeFrame(START)
        else s.links == b.links)
  }

  predicate Finding(b: Beginning) {
    b.m.kind == FIND_STREAMER && b.found
  }

  ghost predicate GoesWell(b: Beginning, s: State) {
    if Over(s.thread) then exists threw :: Ending(b, s, threw) else Underway(b, s)
  }

  /** The handler begins: it decides under the lock, and answers at once what needs no lock. */
  lemma Begins(s: State, b: Beginning, verdict: Verdict, now: int)
    requires s.thread == NextMessage(b.c, b.m) && Known(b, s) && b.c !in s.armed
    requires b.m.kind == FIND_STREAMER ==> b.found == (b.m.content in s.registry)
    requires Finding(b) ==> b.d == s.registry[b.m.content].session && b.outD == s.conns[b.d].out
    requires b.out == s.conns[b.c].out && b.links == s.links
    ensures GoesWell(b, HandlerStep(s, verdict, now))
  {
    hide EncodeFrame, NotExpected;
    var s' := HandlerStep(s, verdict, now);
    if Over(s'.thread) { assert Ending(b, s', s'.thread.Unwinding?); }
  }

  lemma Proceeds(s: State, b: Beginning, verdict: Verdict, now: int)
    requires Underway(b, s)
    ensures GoesWell(b, HandlerStep(s, verdict, now))
  {
    hide EncodeFrame, HandleFirst, HandleNext;
    var s' := HandlerStep(s, verdict, now);
    if Over(s'.thread) { assert Ending(b, s', s'.thread.Unwinding?); }
  }

  lemma Fails(s: State, b: Beginning)
    requires Underway(b, s) && Enabled(s, BridgeFails)
    ensures GoesWell(b, Step(s, BridgeFails))
  {
    hide EncodeFrame, HandlerStep, TakeHeader, TakeBody, Relayed, ExpirationEvents;
    assert Ending(b, Step(s, BridgeFails), true);
  }

  lemma Tears(s: State, b: Beginning, c: ConnId, m: Message, k: nat)
    requires Underway(b, s) && Enabled(s, WriteTears(c, m, k))
    ensures GoesWell(b, Step(s, WriteTears(c, m, k)))
  {
    hide EncodeFrame, HandlerStep, TakeHeader, TakeBody, Relayed, ExpirationEvents, NotExpected;
    TornPart(if s.thread.SendStart? then b.outD else b.out, s.conns[c], m, k);
  }

  lemma TornPart(out: seq<byte>, conn: Conn, m: Message, k: nat)
    requires Partly(out, conn, m) && !conn.broken && k < |EncodeFrame(m)|
    ensures Partly(out, conn.(broken := true, out := conn.out + EncodeFrame(m)[..k]), m)
  {
    hide EncodeFrame;
    assert EncodeFrame(m) == EncodeFrame(m)[..k] + EncodeFrame(m)[k..];
    assert out + EncodeFrame(m) == out + EncodeFrame(m)[..k] + EncodeFrame(m)[k..];
  }

  /** The other threads and the peers do not disturb it. */
  lemma OthersGo(s: State, b: Beginning, a: Action)
    requires Underway(b, s) && Enabled(s, a) && !a.Proceed? && !a.BridgeFails? && !a.WriteTears?
    ensures GoesWell(b, Step(s, a))
  {
    hide EncodeFrame, HandlerStep, TakeHeader, TakeBody, Relayed, ExpirationEvents, SweepOutcome, Distinct;
  }

  lemma OneMoreStep(s: State, b: Beginning, a: Action)
    requires Underway(b, s) && Enabled(s, a)
    ensures GoesWell(b, Step(s, a))
  {
    hide Underway, Step, Enabled, Ending, Known, HandlerStep;
    match a
    case Proceed(verdict, now) =>
      ProceedIs(s, verdict, now);
      Proceeds(s, b, verdict, now);
      Clocked(b, HandlerStep(s, verdict, now), now);
    case BridgeFails => Fails(s, b);
    case WriteTears(c, m, k) => Tears(s, b, c, m, k);
    case _ => OthersGo(s, b, a);
  }

  lemma Clocked(b: Beginning, s: State, now: int)
    requires GoesWell(b, s)
    ensures GoesWell(b, s.(clock := now))
  {
    hide CarriedOut, EncodeFrame;
    if Over(s.thread) {
      var threw :| Ending(b, s, threw);
      assert Ending(b, s.(clock := now), threw);
    }
  }

  lemma {:induction false} KeepsGoing(s: State, b: Beginning, actions: seq<Action>)
    requires CanRun(s, actions) && Working(s, actions) && GoesWell(b, s)
    ensures exists threw :: Ending(b, Run(s, actions), threw)
    decreases |actions|
  {
    hide Step, Enabled, Underway, Ending;
    if actions != [] {
      OneMoreStep(s, b, actions[0]);
      KeepsGoing(Step(s, actions[0]), b, actions[1..]);
      assert Run(s, actions) == Run(Step(s, actions[0]), actions[1..]);
    } else {
      var threw :| Ending(b, s, threw);
      assert Run(s, actions) == s;
    }
  }

  ghost function BeginningOf(s: State): Beginning
    requires s.thread.NextMessage? && s.thread.c in s.conns
  {
    var c, m := s.thread.c, s.thread.m;
    var found := m.kind == FIND_STREAMER && m.content in s.registry;
    var d := if found then s.registry[m.content].session else c;
    Beginning(c, m, found, d, s.conns[c].out, if d in s.conns then s.conns[d].out else [], s.links)
  }

  /** `handleRead`, from the moment it begins until it returns or throws, with any steps of the cleaner and
      of the peers in between, and with any of its writes failing: it ends as the contract of
      `ProxySession.HandleRead` says. The history has the registration, or the claim, right after what it
      had before. */
  lemma NextAsSession(s: State, verdict: Verdict, now: int, later: seq<Action>)
    requires Reachable(s) && s.thread.NextMessage? && Enabled(s, Proceed(verdict, now))
    requires CanRun(Step(s, Proceed(verdict, now)), later) && Working(Step(s, Proceed(verdict, now)), later)
    ensures s.thread.c in s.conns && exists threw ::
              Ending(BeginningOf(s), Run(Step(s, Proceed(verdict, now)), later), threw)
    ensures var s', b := Run(Step(s, Proceed(verdict, now)), later), BeginningOf(s);
            && (b.m.kind == REGISTER_STREAMER ==> s.log + [Registered(SESSION_ID, b.c, now)] <= s'.log)
            && (Finding(b) ==> s.log + [Claimed(b.m.content)] <= s'.log)
  {
    hide Reachable, Inv, Step, Enabled, Working, Exclusive, Ending, Underway, HandlerStep;
    ReachableInv(s);
    InvParts(s);
    var c, s1 := s.thread.c, Step(s, Proceed(verdict, now));
    HandlerAlone(s, c);
    ProceedIs(s, verdict, now);
    var b := BeginningOf(s);
    if b.found { RegisteredApart(s, b.m.content); }
    Begins(s, b, verdict, now);
    Clocked(b, HandlerStep(s, verdict, now), now);
    KeepsGoing(s1, b, later);
    RunExtendsLog(s1, later);
    LogBegins(s, verdict, now);
  }

  lemma RegisteredApart(s: State, id: Id)
    requires Exclusive(s) && s.thread.NextMessage? && id in s.registry
    ensures s.registry[id].session in s.conns && s.registry[id].session != s.thread.c
  {
    hide Peers, OnceEach;
    assert s.registry[id].session in Waiting(s.registry);
    assert s.thread.c in Main(s.thread);
  }

  lemma LogBegins(s: State, verdict: Verdict, now: int)
    requires s.thread.NextMessage? && s.thread.c in s.conns
    ensures var s', b := HandlerStep(s, verdict, now), BeginningOf(s);
            && (b.m.kind == REGISTER_STREAMER ==> s'.log == s.log + [Registered(SESSION_ID, b.c, now)])
            && (Finding(b) ==> s'.log == s.log + [Claimed(b.m.content)])
  {
    hide Said, NotExpected;
  }
}
